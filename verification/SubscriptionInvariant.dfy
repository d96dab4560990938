/** What every step of the subscription processes keeps. */
module SubscriptionInvariant {
  import opened Wrappers
  import opened KeyPaths
  import opened VersionedStore
  import opened Routing
  import opened Subscription

  type Processes<V> = map<nat, Process<V>>

  // ---------------------------------------------------------------- the lock

  ghost predicate Alone<V>(processes: Processes<V>, pid: nat) {
    forall other | other in processes && other != pid :: !IsExclusive(processes[other]) && !IsShared(processes[other])
  }

  /** Whoever is inside exclusively is inside alone. */
  ghost predicate LockOk<V>(processes: Processes<V>) {
    forall pid | pid in processes && IsExclusive(processes[pid]) :: Alone(processes, pid)
  }

  lemma LockKept<V>(processes: Processes<V>, pid: nat, p: Process<V>)
    requires LockOk(processes)
    requires IsShared(p) ==> NoneExclusive(processes) || (pid in processes && IsShared(processes[pid]))
    requires IsExclusive(p) ==> NoneInside(processes) || (pid in processes && IsExclusive(processes[pid]))
    ensures LockOk(processes[pid := p])
  {
    var processes' := processes[pid := p];
    forall q | q in processes' && IsExclusive(processes'[q]) ensures Alone(processes', q) {
      if q == pid {
        if pid in processes && IsExclusive(processes[pid]) { assert Alone(processes, pid); }
      } else {
        assert Alone(processes, q);
      }
    }
  }

  // ---------------------------------------------------------------- counting subscriptions

  function CountOf(counts: map<string, int>, fullName: string): int {
    if fullName in counts then counts[fullName] else 0
  }

  ghost function RegisteredFor(registry: map<string, string>, fullName: string): (r: set<string>) {
    set queue | queue in registry && registry[queue] == fullName
  }

  /** The name for which a process holds one count that no registered queue accounts for. */
  function Holds<V>(p: Process<V>): (r: Option<string>) {
    match p
    case Subscriber(name, _, _, CountedUp) => Some(FullName(name))
    case Unsubscriber(_, _, Unregistered(fullName)) => Some(fullName)
    case Unsubscriber(_, _, Denied(fullName)) => Some(fullName)
    case _ => None
  }

  ghost function HoldersOf<V>(processes: Processes<V>, fullName: string): (r: set<nat>) {
    set pid | pid in processes && Holds(processes[pid]) == Some(fullName)
  }

  /**
   A name's count is the number of its registered queues, of subscribers that have counted but not
   registered, of unsubscribers that have unregistered but not counted down, and of those denied.
   */
  ghost predicate CountsOk<V>(counts: map<string, int>, registry: map<string, string>, processes: Processes<V>) {
    forall fullName ::
      && CountOf(counts, fullName) == |RegisteredFor(registry, fullName)| + |HoldersOf(processes, fullName)|
      && (fullName in counts ==> counts[fullName] > 0)
  }

  lemma HoldersAfter<V>(processes: Processes<V>, pid: nat, p: Process<V>, fullName: string)
    ensures var before := pid in processes && Holds(processes[pid]) == Some(fullName);
            var after := Holds(p) == Some(fullName);
            |HoldersOf(processes[pid := p], fullName)| ==
            |HoldersOf(processes, fullName)| + (if after then 1 else 0) - (if before then 1 else 0)
  {
    var rest := HoldersOf(processes, fullName) - {pid};
    assert HoldersOf(processes[pid := p], fullName) == if Holds(p) == Some(fullName) then rest + {pid} else rest;
    assert HoldersOf(processes, fullName) == if pid in HoldersOf(processes, fullName) then rest + {pid} else rest;
  }

  lemma RegisteredAfter(registry: map<string, string>, queue: string, full: string, fullName: string)
    requires queue !in registry
    ensures |RegisteredFor(registry[queue := full], fullName)| == |RegisteredFor(registry, fullName)|
            + if full == fullName then 1 else 0
  {
    var before := RegisteredFor(registry, fullName);
    assert RegisteredFor(registry[queue := full], fullName) == if full == fullName then before + {queue} else before;
  }

  lemma UnregisteredAfter(registry: map<string, string>, queue: string, fullName: string)
    requires queue in registry
    ensures |RegisteredFor(registry - {queue}, fullName)| ==
            |RegisteredFor(registry, fullName)| - if registry[queue] == fullName then 1 else 0
  {
    var before := RegisteredFor(registry, fullName);
    assert RegisteredFor(registry - {queue}, fullName) == before - {queue};
    assert queue in before <==> registry[queue] == fullName;
  }

  /** A process that goes on without gaining or giving up a count. */
  lemma CountsKept<V>(counts: map<string, int>, registry: map<string, string>, processes: Processes<V>, pid: nat,
                      p: Process<V>)
    requires CountsOk(counts, registry, processes)
    requires Holds(p) == if pid in processes then Holds(processes[pid]) else None
    ensures CountsOk(counts, registry, processes[pid := p])
  {
    forall fullName { HoldersAfter(processes, pid, p, fullName); }
  }

  lemma CountedUpOk<V>(counts: map<string, int>, registry: map<string, string>, processes: Processes<V>, pid: nat,
                       p: Process<V>, full: string)
    requires CountsOk(counts, registry, processes)
    requires pid in processes && Holds(processes[pid]) == None && Holds(p) == Some(full)
    ensures CountsOk(CountUp(counts, full), registry, processes[pid := p])
  {
    forall fullName { HoldersAfter(processes, pid, p, fullName); }
  }

  lemma RegisteredOk<V>(counts: map<string, int>, registry: map<string, string>, processes: Processes<V>, pid: nat,
                        p: Process<V>,
                        queue: string, full: string)
    requires CountsOk(counts, registry, processes) && queue !in registry
    requires pid in processes && Holds(processes[pid]) == Some(full) && Holds(p) == None
    ensures CountsOk(counts, registry[queue := full], processes[pid := p])
  {
    forall fullName
      ensures CountOf(counts, fullName) ==
              |RegisteredFor(registry[queue := full], fullName)| + |HoldersOf(processes[pid := p], fullName)|
    {
      HoldersAfter(processes, pid, p, fullName);
      RegisteredAfter(registry, queue, full, fullName);
    }
  }

  lemma UnregisteredOk<V>(counts: map<string, int>, registry: map<string, string>, processes: Processes<V>, pid: nat,
                          p: Process<V>, queue: string)
    requires CountsOk(counts, registry, processes) && queue in registry
    requires pid !in processes && Holds(p) == Some(registry[queue])
    ensures CountsOk(counts, registry - {queue}, processes[pid := p])
  {
    forall fullName
      ensures CountOf(counts, fullName) ==
              |RegisteredFor(registry - {queue}, fullName)| + |HoldersOf(processes[pid := p], fullName)|
    {
      HoldersAfter(processes, pid, p, fullName);
      UnregisteredAfter(registry, queue, fullName);
    }
  }

  lemma CountedDownOk<V>(counts: map<string, int>, registry: map<string, string>, processes: Processes<V>, pid: nat,
                         p: Process<V>, full: string)
    requires CountsOk(counts, registry, processes)
    requires pid in processes && Holds(processes[pid]) == Some(full) && Holds(p) == None
    ensures full in counts
    ensures CountsOk(CountDown(counts, full), registry, processes[pid := p])
  {
    assert pid in HoldersOf(processes, full);
    assert CountOf(counts, full) == |RegisteredFor(registry, full)| + |HoldersOf(processes, full)|;
    forall fullName { HoldersAfter(processes, pid, p, fullName); }
  }

  /** The name of a registered queue is counted. */
  lemma RegisteredIsCounted<V>(counts: map<string, int>, registry: map<string, string>, processes: Processes<V>,
                               queue: string)
    requires CountsOk(counts, registry, processes) && queue in registry
    ensures registry[queue] in counts
  {
    assert queue in RegisteredFor(registry, registry[queue]);
    assert CountOf(counts, registry[queue]) > 0;
  }

  // ---------------------------------------------------------------- queues, bindings and the registry

  predicate IsRouted<V>(phase: SubscriberPhase<V>) {
    phase.Bound? || phase.Listed? || phase.Sending? || phase.Subscribed? || phase.Failed?
  }

  predicate HasRegistered<V>(phase: SubscriberPhase<V>) {
    phase.Registered? || IsRouted(phase)
  }

  ghost predicate IsNoRoute(digest: string -> string, queue: string) {
    forall name: Name :: RoutingKey(digest, FullName(name)) != queue
  }

  /** How often a subscriber's queue is bound to a key: to its own name, and from some phase on to its name's route. */
  function Bindings<V>(digest: string -> string, p: Process<V>, key: string): nat
    requires p.Subscriber?
  {
    (if key == p.queue then 1 else 0) +
    (if IsRouted(p.subscribing) && key == RoutingKey(digest, FullName(p.name)) then 1 else 0)
  }

  ghost predicate IsBound<V>(digest: string -> string, table: map<string, seq<string>>, p: Process<V>)
    requires p.Subscriber?
  {
    forall key :: Times(BoundTo(table, key), p.queue) == Bindings(digest, p, key)
  }

  ghost predicate SubscriberOk<V>(digest: string -> string, table: map<string, seq<string>>,
                                  registry: map<string, string>, p: Process<V>)
    requires p.Subscriber?
  {
    && ':' !in p.name.user
    && IsNoRoute(digest, p.queue)
    && IsBound(digest, table, p)
    && (p.queue in registry ==> HasRegistered(p.subscribing) && registry[p.queue] == FullName(p.name))
  }

  ghost predicate OwnsQueue<V>(processes: Processes<V>, pid: nat, queue: string) {
    forall other | other in processes && processes[other].Subscriber? && other != pid :: processes[other].queue != queue
  }

  /** A queue that was unregistered is not registered again. */
  ghost predicate LeftForGood<V>(registry: map<string, string>, processes: Processes<V>, queue: string) {
    && queue !in registry
    && forall pid | pid in processes && processes[pid].Subscriber? && processes[pid].queue == queue ::
         HasRegistered(processes[pid].subscribing)
  }

  ghost predicate QueuesOk<V>(digest: string -> string, table: map<string, seq<string>>, registry: map<string, string>,
                              processes: Processes<V>) {
    && (forall pid | pid in processes && processes[pid].Subscriber? ::
          OwnsQueue(processes, pid, processes[pid].queue) && SubscriberOk(digest, table, registry, processes[pid]))
    && (forall pid | pid in processes
       && processes[pid].Unsubscriber? :: LeftForGood(registry, processes, processes[pid].leaving))
  }

  /** The same process, at a phase that has registered and bound no less and no more. */
  predicate SameRole<V>(p: Process<V>, p': Process<V>) {
    match p
    case Writer(op, _) => p'.Writer?
    case Subscriber(name, start, queue, phase) =>
      && p'.Subscriber? && p'.name == name && p'.start == start && p'.queue == queue
      && (IsRouted(phase) <==> IsRouted(p'.subscribing))
      && (HasRegistered(phase) <==> HasRegistered(p'.subscribing))
    case Unsubscriber(_, leaving, _) => p'.Unsubscriber? && p'.leaving == leaving
  }

  lemma QueuesKept<V>(digest: string -> string, table: map<string, seq<string>>, registry: map<string, string>,
                      processes: Processes<V>,
                      pid: nat, p: Process<V>)
    requires QueuesOk(digest, table, registry, processes)
    requires if pid in processes then SameRole(processes[pid], p) else p.Writer?
    ensures QueuesOk(digest, table, registry, processes[pid := p])
  {
    var processes' := processes[pid := p];
    forall q | q in processes' && processes'[q].Subscriber?
      ensures OwnsQueue(processes', q, processes'[q].queue) && SubscriberOk(digest, table, registry, processes'[q])
    {
      assert OwnsQueue(processes, q, processes[q].queue) && SubscriberOk(digest, table, registry, processes[q]);
      assert forall key :: Bindings(digest, processes'[q], key) == Bindings(digest, processes[q], key);
    }
    forall u | u in processes' && processes'[u].Unsubscriber?
      ensures LeftForGood(registry, processes', processes'[u].leaving)
    {
      assert LeftForGood(registry, processes, processes[u].leaving);
    }
  }

  /** Registering a queue whose subscriber has counted: nobody has unregistered it before. */
  lemma RegisteringQueuesOk<V>(digest: string -> string, table: map<string, seq<string>>, registry: map<string, string>,
                               processes: Processes<V>,
                               pid: nat, p: Process<V>)
    requires QueuesOk(digest, table, registry, processes)
    requires pid in processes && processes[pid].Subscriber? && processes[pid].subscribing.CountedUp?
    requires p == processes[pid].(subscribing := Registered)
    ensures p.queue !in registry
    ensures QueuesOk(digest, table, registry[p.queue := FullName(p.name)], processes[pid := p])
  {}

  /** A new binding for one subscriber's queue. */
  lemma BindingQueuesOk<V>(digest: string -> string, table: map<string, seq<string>>, registry: map<string, string>,
                           processes: Processes<V>,
                           pid: nat, p: Process<V>)
    requires QueuesOk(digest, table, registry, processes)
    requires pid in processes && processes[pid].Subscriber? && processes[pid].subscribing.Registered?
    requires p == processes[pid].(subscribing := Bound)
    ensures QueuesOk(digest, Bind(table, p.queue, RoutingKey(digest, FullName(p.name))), registry, processes[pid := p])
  {
    hide RoutingKey;
    var key' := RoutingKey(digest, FullName(p.name));
    var table' := Bind(table, p.queue, key');
    var processes' := processes[pid := p];
    forall q | q in processes' && processes'[q].Subscriber?
      ensures OwnsQueue(processes', q, processes'[q].queue) && SubscriberOk(digest, table', registry, processes'[q])
    {
      assert OwnsQueue(processes, q, processes[q].queue) && SubscriberOk(digest, table, registry, processes[q]);
      forall key ensures Times(BoundTo(table', key), processes'[q].queue) == Bindings(digest, processes'[q], key) {
        BindCounts(table, p.queue, key', processes'[q].queue, key);
        assert Times(BoundTo(table, key), processes[q].queue) == Bindings(digest, processes[q], key);
      }
    }
    forall u | u in processes' && processes'[u].Unsubscriber?
      ensures LeftForGood(registry, processes', processes'[u].leaving)
    {
      assert LeftForGood(registry, processes, processes[u].leaving);
    }
  }

  /** A fresh queue is bound to its own name; the bindings of the other queues stay. */
  lemma FreshBindings<V>(w: World<V>, p: Process<V>, other: Process<V>)
    requires p.Subscriber? && p.subscribing == QueueReady && IsFreshQueue(w, p.queue) && other.Subscriber?
    requires other == p || (other.queue != p.queue && IsBound(w.digest, w.table, other))
    ensures IsBound(w.digest, Bind(w.table, p.queue, p.queue), other)
  {
    hide RoutingKey, Bind, BoundTo;
    forall key
      ensures Times(BoundTo(Bind(w.table, p.queue, p.queue), key), other.queue) == Bindings(w.digest, other, key)
    {
      BindCounts(w.table, p.queue, p.queue, other.queue, key);
      assert other != p ==> Times(BoundTo(w.table, key), other.queue) == Bindings(w.digest, other, key);
    }
  }

  lemma NewSubscriberQueuesOk<V>(w: World<V>, pid: nat, p: Process<V>)
    requires QueuesOk(w.digest, w.table, w.registry, w.processes) && pid !in w.processes
    requires p.Subscriber? && p.subscribing == QueueReady && ':' !in p.name.user && IsFreshQueue(w, p.queue)
    ensures QueuesOk(w.digest, Bind(w.table, p.queue, p.queue), w.registry, w.processes[pid := p])
  {
    hide RoutingKey, Bind, IsBound;
    var table' := Bind(w.table, p.queue, p.queue);
    var processes' := w.processes[pid := p];
    FreshBindings(w, p, p);
    forall q | q in processes' && processes'[q].Subscriber?
      ensures OwnsQueue(processes', q, processes'[q].queue) && SubscriberOk(w.digest, table', w.registry, processes'[q])
    {
      if q != pid {
        assert OwnsQueue(w.processes, q, w.processes[q].queue)
            && SubscriberOk(w.digest, w.table, w.registry, w.processes[q]);
        FreshBindings(w, p, w.processes[q]);
      }
    }
    forall u | u in processes' && processes'[u].Unsubscriber?
      ensures LeftForGood(w.registry, processes', processes'[u].leaving)
    {
      assert LeftForGood(w.registry, w.processes, w.processes[u].leaving);
    }
  }

  lemma LeavingQueuesOk<V>(digest: string -> string, table: map<string, seq<string>>, registry: map<string, string>,
                           processes: Processes<V>,
                           pid: nat, p: Process<V>)
    requires QueuesOk(digest, table, registry, processes) && pid !in processes
    requires p.Unsubscriber? && p.leaving in registry
    ensures QueuesOk(digest, table, registry - {p.leaving}, processes[pid := p])
  {}

  // ---------------------------------------------------------------- writers between storing and publishing

  /** What an operation publishes once it has been stored. */
  function MessageOf<V>(op: Operation<V>): (m: Message<V>) {
    Message(ChangeType(op), KeyPath(op.name, if op.Delete? then SecondsOf(op.now) else op.now), PayloadOf(op))
  }

  function VersionOf<V>(op: Operation<V>): Version {
    Version(op.name, op.now)
  }

  predicate HasStored<V>(p: Process<V>) {
    p.Writer? && (p.writing.Stored? || p.writing.Matched?)
  }

  /** The version that a process has stored and not published yet. */
  function FlightOf<V>(p: Process<V>): (r: Option<Version>) {
    if HasStored(p) && !p.op.Delete? then Some(VersionOf(p.op)) else None
  }

  ghost function Flights<V>(processes: Processes<V>): (r: set<Version>) {
    set pid | pid in processes && FlightOf(processes[pid]).Some? :: FlightOf(processes[pid]).value
  }

  ghost predicate WriterOk<V>(versions: map<Version, V>, p: Process<V>) {
    p.Writer? ==>
      && ':' !in p.op.name.user
      && (HasStored(p) ==>
            && p.writing.message == MessageOf(p.op)
            && (!p.op.Delete? ==> VersionOf(p.op) in versions && versions[VersionOf(p.op)] == p.op.value))
  }

  ghost predicate SoleFlight<V>(processes: Processes<V>, pid: nat, v: Version) {
    forall other | other in processes && other != pid :: FlightOf(processes[other]) != Some(v)
  }

  ghost predicate WritersOk<V>(versions: map<Version, V>, processes: Processes<V>) {
    forall pid | pid in processes ::
      && WriterOk(versions, processes[pid])
      && (FlightOf(processes[pid]).Some? ==> SoleFlight(processes, pid, FlightOf(processes[pid]).value))
  }

  /** A process goes on; if it is in flight now, it was before. */
  lemma WritersKept<V>(versions: map<Version, V>, processes: Processes<V>, pid: nat, p: Process<V>)
    requires WritersOk(versions, processes) && WriterOk(versions, p)
    requires FlightOf(p) == None || (pid in processes && FlightOf(p) == FlightOf(processes[pid]))
    ensures WritersOk(versions, processes[pid := p])
  {}

  lemma FlightsKept<V>(processes: Processes<V>, pid: nat, p: Process<V>)
    requires FlightOf(p) == if pid in processes then FlightOf(processes[pid]) else None
    ensures Flights(processes[pid := p]) == Flights(processes)
  {
    var processes' := processes[pid := p];
    forall q | q in processes && FlightOf(processes[q]).Some?
      ensures FlightOf(processes[q]).value in Flights(processes')
    {
      assert FlightOf(processes'[q]) == FlightOf(processes[q]);
    }
  }

  lemma NewFlightOk<V>(versions: map<Version, V>, processes: Processes<V>, pid: nat, p: Process<V>)
    requires WritersOk(versions, processes) && pid in processes && FlightOf(processes[pid]) == None
    requires FlightOf(p).Some? && FlightOf(p).value !in versions
    requires p.writing.message == MessageOf(p.op) && ':' !in p.op.name.user
    ensures var v := FlightOf(p).value;
            && WritersOk(versions[v := p.op.value], processes[pid := p])
            && Flights(processes[pid := p]) == Flights(processes) + {v}
  {
    var v := FlightOf(p).value;
    var processes' := processes[pid := p];
    forall q | q in processes && FlightOf(processes[q]).Some? ensures FlightOf(processes[q]).value in versions {
      assert WriterOk(versions, processes[q]);
    }
    forall q | q in processes'
      ensures WriterOk(versions[v := p.op.value], processes'[q])
      ensures FlightOf(processes'[q]).Some? ==> SoleFlight(processes', q, FlightOf(processes'[q]).value)
    {
      if q != pid {
        assert WriterOk(versions, processes[q]);
        if FlightOf(processes[q]).Some? { assert SoleFlight(processes, q, FlightOf(processes[q]).value); }
      }
    }
    forall x ensures x in Flights(processes') <==> x in Flights(processes) + {v} {
      if x in Flights(processes) {
        var q :| q in processes && FlightOf(processes[q]) == Some(x);
        assert FlightOf(processes'[q]) == Some(x);
      }
      if x == v { assert FlightOf(processes'[pid]) == Some(x); }
    }
  }

  lemma FlightEndsOk<V>(versions: map<Version, V>, processes: Processes<V>, pid: nat, p: Process<V>)
    requires WritersOk(versions, processes) && pid in processes && FlightOf(p) == None
    ensures Flights(processes[pid := p]) ==
            if FlightOf(processes[pid]).Some? then Flights(processes) - {FlightOf(processes[pid]).value}
                else Flights(processes)
  {
    var processes' := processes[pid := p];
    forall x ensures x in Flights(processes') <==> x in Flights(processes) && FlightOf(processes[pid]) != Some(x) {
      if x in Flights(processes') {
        var q :| q in processes' && FlightOf(processes'[q]) == Some(x);
        assert q != pid && FlightOf(processes[q]) == Some(x);
        assert FlightOf(processes[pid]) == Some(x) ==> SoleFlight(processes, pid, x);
      }
      if x in Flights(processes) && FlightOf(processes[pid]) != Some(x) {
        var q :| q in processes && FlightOf(processes[q]) == Some(x);
        assert FlightOf(processes'[q]) == Some(x);
      }
    }
  }

  /** While a subscriber is inside the lock, nothing is between storing and publishing. */
  lemma NoFlightsInside<V>(processes: Processes<V>, pid: nat)
    requires LockOk(processes) && pid in processes && IsExclusive(processes[pid])
    ensures Flights(processes) == {}
  {}
}
