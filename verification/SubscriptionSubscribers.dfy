/** What the steps of subscribers and unsubscribers keep. */
module SubscriptionSubscribers {
  import opened Wrappers
  import opened KeyPaths
  import opened VersionedStore
  import opened Routing
  import opened Subscription
  import opened SubscriptionInvariant
  import opened SubscriptionStreams
  import opened SubscriptionWriters

  type Streams<V> = map<string, seq<Message<V>>>

  /** One subscriber goes on, and no other subscriber's queue changes. */
  ghost predicate OthersKeep<V>(registry: map<string, string>, registry': map<string, string>, streams: Streams<V>,
                                streams': Streams<V>,
                                processes: Processes<V>, pid: nat) {
    forall other | other in processes && processes[other].Subscriber? && other != pid ::
      var queue := processes[other].queue;
      && Contents(streams', queue) == Contents(streams, queue)
      && (queue in registry' <==> queue in registry)
  }

  lemma StreamsAfterMove<V>(versions: map<Version, V>, flights: set<Version>, registry: map<string, string>,
                            registry': map<string, string>,
                            streams: Streams<V>, streams': Streams<V>, processes: Processes<V>, pid: nat, p: Process<V>)
    requires StreamsOk(versions, flights, registry, streams, processes)
    requires OthersKeep(registry, registry', streams, streams', processes, pid)
    requires p.Subscriber? && StreamOk(versions, flights, p.queue in registry', Contents(streams', p.queue), p)
    ensures StreamsOk(versions, flights, registry', streams', processes[pid := p])
  {}

  /** A subscriber moves on within its role: its own queue is right again, the others are as they were. */
  lemma SubscriberMovesOk<V>(w: World<V>, pid: nat, p: Process<V>, streams': Streams<V>)
    requires Inv(w) && pid in w.processes && w.processes[pid].Subscriber? && SameRole(w.processes[pid], p)
    requires Holds(w.processes[pid]) == None == Holds(p)
    requires IsExclusive(p) ==> NoneInside(w.processes) || IsExclusive(w.processes[pid])
    requires OthersKeep(w.registry, w.registry, w.streams, streams', w.processes, pid)
    requires StreamOk(w.store.versions, Flights(w.processes), p.queue in w.registry, Contents(streams', p.queue), p)
    ensures Inv(w.(streams := streams', processes := w.processes[pid := p]))
  {
    hide Consistent, GoodDigest, StreamsOk, StreamOk, QueuesOk, CountsOk, OthersKeep;
    LockKept(w.processes, pid, p);
    CountsKept(w.counts, w.registry, w.processes, pid, p);
    QueuesKept(w.digest, w.table, w.registry, w.processes, pid, p);
    WritersKept(w.store.versions, w.processes, pid, p);
    FlightsKept(w.processes, pid, p);
    StreamsAfterMove(w.store.versions, Flights(w.processes), w.registry, w.registry, w.streams, streams', w.processes,
        pid, p);
  }

  /** The same, sending nothing. */
  lemma SubscriberWaitsOk<V>(w: World<V>, pid: nat, p: Process<V>)
    requires Inv(w) && pid in w.processes && w.processes[pid].Subscriber? && SameRole(w.processes[pid], p)
    requires Holds(w.processes[pid]) == None == Holds(p)
    requires IsExclusive(p) ==> NoneInside(w.processes) || IsExclusive(w.processes[pid])
    requires StreamOk(w.store.versions, Flights(w.processes), p.queue in w.registry, Contents(w.streams, p.queue), p)
    ensures Inv(w.(processes := w.processes[pid := p]))
  {
    hide Inv;
    SubscriberMovesOk(w, pid, p, w.streams);
  }

  /** What the invariant says of one subscriber. */
  lemma SubscriberNow<V>(w: World<V>, pid: nat)
    requires Inv(w) && pid in w.processes && w.processes[pid].Subscriber?
    ensures var p := w.processes[pid];
            && SubscriberOk(w.digest, w.table, w.registry, p)
            && StreamOk(w.store.versions, Flights(w.processes), p.queue in w.registry, Contents(w.streams, p.queue), p)
  {}

  lemma EnteringOk<V>(w: World<V>, pid: nat)
    requires Inv(w) && pid in w.processes && w.processes[pid].Subscriber? && w.processes[pid].subscribing.QueueReady?
    ensures Inv(SubscriberStep(w, pid))
  {
    hide Inv;
    SubscriberNow(w, pid);
    if NoneInside(w.processes) { SubscriberWaitsOk(w, pid, w.processes[pid].(subscribing := Exclusive)); }
  }

  lemma CountingOk<V>(w: World<V>, pid: nat)
    requires Inv(w) && pid in w.processes && w.processes[pid].Subscriber? && w.processes[pid].subscribing.Exclusive?
    ensures Inv(SubscriberStep(w, pid))
  {
    var p := w.processes[pid];
    var p' := p.(subscribing := CountedUp);
    assert StreamOk(w.store.versions, Flights(w.processes), p.queue in w.registry, Contents(w.streams, p.queue), p);
    hide Consistent, GoodDigest, StreamsOk, QueuesOk, CountsOk, FullName, CountUp;
    LockKept(w.processes, pid, p');
    CountedUpOk(w.counts, w.registry, w.processes, pid, p', FullName(p.name));
    QueuesKept(w.digest, w.table, w.registry, w.processes, pid, p');
    WritersKept(w.store.versions, w.processes, pid, p');
    FlightsKept(w.processes, pid, p');
    StreamsAfterMove(w.store.versions, Flights(w.processes), w.registry, w.registry, w.streams, w.streams, w.processes,
        pid, p');
  }

  lemma RegisteringOk<V>(w: World<V>, pid: nat)
    requires Inv(w) && pid in w.processes && w.processes[pid].Subscriber? && w.processes[pid].subscribing.CountedUp?
    ensures Inv(SubscriberStep(w, pid))
  {
    var p := w.processes[pid];
    var p' := p.(subscribing := Registered);
    assert StreamOk(w.store.versions, Flights(w.processes), p.queue in w.registry, Contents(w.streams, p.queue), p);
    assert OwnsQueue(w.processes, pid, p.queue);
    hide Consistent, GoodDigest, StreamsOk, QueuesOk, CountsOk, FullName;
    var registry' := w.registry[p.queue := FullName(p.name)];
    LockKept(w.processes, pid, p');
    RegisteringQueuesOk(w.digest, w.table, w.registry, w.processes, pid, p');
    RegisteredOk(w.counts, w.registry, w.processes, pid, p', p.queue, FullName(p.name));
    WritersKept(w.store.versions, w.processes, pid, p');
    FlightsKept(w.processes, pid, p');
    StreamsAfterMove(w.store.versions, Flights(w.processes), w.registry, registry', w.streams, w.streams, w.processes,
        pid, p');
  }

  lemma BindingOk<V>(w: World<V>, pid: nat)
    requires Inv(w) && pid in w.processes && w.processes[pid].Subscriber? && w.processes[pid].subscribing.Registered?
    ensures Inv(SubscriberStep(w, pid))
  {
    var p := w.processes[pid];
    var p' := p.(subscribing := Bound);
    assert StreamOk(w.store.versions, Flights(w.processes), p.queue in w.registry, Contents(w.streams, p.queue), p);
    hide Consistent, GoodDigest, StreamsOk, QueuesOk, CountsOk, FullName, RoutingKey, Bind;
    LockKept(w.processes, pid, p');
    BindingQueuesOk(w.digest, w.table, w.registry, w.processes, pid, p');
    CountsKept(w.counts, w.registry, w.processes, pid, p');
    WritersKept(w.store.versions, w.processes, pid, p');
    FlightsKept(w.processes, pid, p');
    StreamsAfterMove(w.store.versions, Flights(w.processes), w.registry, w.registry, w.streams, w.streams, w.processes,
        pid, p');
  }

  /** A message sent under a queue's own name reaches that queue once, and no other subscriber's. */
  lemma SendReaches<V>(w: World<V>, pid: nat, m: Message<V>)
    requires QueuesOk(w.digest, w.table, w.registry, w.processes) && pid in w.processes && w.processes[pid].Subscriber?
    ensures var queue := w.processes[pid].queue;
            var streams' := Delivered(w.streams, BoundTo(w.table, queue), m);
            && Contents(streams', queue) == Contents(w.streams, queue) + [m]
            && OthersKeep(w.registry, w.registry, w.streams, streams', w.processes, pid)
  {
    hide RoutingKey, Delivered;
    var p := w.processes[pid];
    var queues := BoundTo(w.table, p.queue);
    var streams' := Delivered(w.streams, queues, m);
    assert OwnsQueue(w.processes, pid, p.queue) && SubscriberOk(w.digest, w.table, w.registry, p);
    forall q | q in w.processes && w.processes[q].Subscriber?
      ensures Contents(streams', w.processes[q].queue) == Contents(w.streams, w.processes[q].queue) + if q == pid
              then [m] else []
    {
      var sub := w.processes[q];
      assert SubscriberOk(w.digest, w.table, w.registry, sub);
      assert Times(queues, sub.queue) == Bindings(w.digest, sub, p.queue);
      DeliveredContents(w.streams, queues, m, sub.queue);
      assert Repeat(m, 1) == [m] by { assert Repeat(m, 0) == []; }
    }
  }

  /** What is in the queue and what is still to be sent stay the same together. */
  lemma StreamAfterSend<V>(versions: map<Version, V>, flights: set<Version>, registered: bool,
                           contents: seq<Message<V>>, p: Process<V>)
    requires p.Subscriber? && p.subscribing.Sending? && StreamOk(versions, flights, registered, contents, p)
    ensures var rest := p.subscribing.rest;
            if rest == [] then StreamOk(versions, flights, registered, contents, p.(subscribing := Subscribed))
            else StreamOk(versions, flights, registered, contents + [rest[0]], p.(subscribing := Sending(rest[1..])))
  {
    hide Complete, Known;
    var rest := p.subscribing.rest;
    if rest == [] {
      assert contents + rest == contents;
    } else {
      assert contents + rest == (contents + [rest[0]]) + rest[1..];
    }
  }

  lemma SendingOk<V>(w: World<V>, pid: nat)
    requires Inv(w) && pid in w.processes && w.processes[pid].Subscriber? && w.processes[pid].subscribing.Sending?
    ensures Inv(SubscriberStep(w, pid))
  {
    var p := w.processes[pid];
    var rest := p.subscribing.rest;
    SubscriberNow(w, pid);
    assert QueuesOk(w.digest, w.table, w.registry, w.processes);
    hide Inv, QueuesOk, OthersKeep, StreamOk, SubscriberOk, Delivered;
    StreamAfterSend(w.store.versions, Flights(w.processes), p.queue in w.registry, Contents(w.streams, p.queue), p);
    if rest == [] {
      SubscriberWaitsOk(w, pid, p.(subscribing := Subscribed));
    } else {
      SendReaches(w, pid, rest[0]);
      SubscriberMovesOk(w, pid, p.(subscribing := Sending(rest[1..])),
          Delivered(w.streams, BoundTo(w.table, p.queue), rest[0]));
    }
  }

  lemma ListingOk<V>(w: World<V>, pid: nat, paths: seq<string>)
    requires Inv(w) && pid in w.processes && w.processes[pid].Subscriber? && w.processes[pid].subscribing.Bound?
    ensures Inv(ListStep(w, pid, paths))
  {
    var p := w.processes[pid];
    SubscriberNow(w, pid);
    assert Consistent(w.store);
    hide Inv, Consistent, IsListing;
    if IsListing(w.store, p.name, p.start, paths) {
      ListedParse(w.store, p.name, p.start, paths);
      if p.start > 0 { WantedAreVersions(w.store, p.name, p.start); }
      SubscriberWaitsOk(w, pid, p.(subscribing := Listed(paths)));
    }
  }

  lemma ReadFailsOk<V>(w: World<V>, pid: nat, path: string)
    requires Inv(w) && pid in w.processes && w.processes[pid].Subscriber? && w.processes[pid].subscribing.Listed?
    requires path in w.processes[pid].subscribing.paths && !Readable(w.store, path)
    ensures Inv(w.(processes := w.processes[pid := w.processes[pid].(subscribing := Failed)]))
  {
    hide Inv, Readable, Known, NameOfPath, FullName;
    var p := w.processes[pid];
    SubscriberNow(w, pid);
    if Claims(p) { ListedAreReadable(w.store, p.name, p.start, p.subscribing.paths); }
    SubscriberWaitsOk(w, pid, p.(subscribing := Failed));
  }

  lemma SnapshotOk<V>(w: World<V>, pid: nat, messages: seq<Message<V>>)
    requires Inv(w) && pid in w.processes && w.processes[pid].Subscriber? && w.processes[pid].subscribing.Listed?
    requires IsSnapshot(w.store, w.processes[pid].subscribing.paths, messages)
    ensures var p := w.processes[pid];
            StreamOk(w.store.versions, Flights(w.processes), p.queue in w.registry, Contents(w.streams, p.queue),
                p.(subscribing := Sending(messages)))
  {
    var p := w.processes[pid];
    var paths := p.subscribing.paths;
    SubscriberNow(w, pid);
    NoFlightsInside(w.processes, pid);
    assert Consistent(w.store);
    hide Inv, Consistent, LockOk, IsSnapshot, ListsVersions, Complete, Known, NameOfPath, FullName;
    SnapshotIsKnown(w.store, p.name, paths, messages);
    if Claims(p) { SnapshotIsComplete(w.store, p.name, p.start, paths, messages); }
    assert [] + messages == messages;
  }

  lemma ReadingOk<V>(w: World<V>, pid: nat, messages: seq<Message<V>>)
    requires Inv(w) && pid in w.processes && w.processes[pid].Subscriber? && w.processes[pid].subscribing.Listed?
    ensures Inv(ReadStep(w, pid, messages))
  {
    hide Inv, StreamOk, IsSnapshot, Readable;
    var p := w.processes[pid];
    if path :| path in p.subscribing.paths && !Readable(w.store, path) {
      ReadFailsOk(w, pid, path);
    } else if IsSnapshot(w.store, p.subscribing.paths, messages) {
      SnapshotOk(w, pid, messages);
      SubscriberWaitsOk(w, pid, p.(subscribing := Sending(messages)));
    }
  }

  lemma SubscriberStepOk<V>(w: World<V>, pid: nat)
    requires Inv(w) && pid in w.processes && w.processes[pid].Subscriber?
    ensures Inv(SubscriberStep(w, pid))
  {
    hide Inv;
    match w.processes[pid].subscribing
    case QueueReady => EnteringOk(w, pid);
    case Exclusive => CountingOk(w, pid);
    case CountedUp => RegisteringOk(w, pid);
    case Registered => BindingOk(w, pid);
    case Sending(_) => SendingOk(w, pid);
    case _ =>
  }

  lemma NewSubscriberOk<V>(w: World<V>, pid: nat, name: Name, start: int, queue: string)
    requires Inv(w) && pid !in w.processes && ':' !in name.user && IsFreshQueue(w, queue)
    ensures Inv(Next(w, StartSubscriber(pid, name, start, queue)))
  {
    hide Consistent, GoodDigest, QueuesOk, CountsOk, FullName, RoutingKey, Bind;
    var p := Subscriber(name, start, queue, QueueReady);
    var streams' := w.streams[queue := []];
    LockKept(w.processes, pid, p);
    NewSubscriberQueuesOk(w, pid, p);
    CountsKept(w.counts, w.registry, w.processes, pid, p);
    WritersKept(w.store.versions, w.processes, pid, p);
    FlightsKept(w.processes, pid, p);
    StreamsAfterMove(w.store.versions, Flights(w.processes), w.registry, w.registry, w.streams, streams', w.processes,
        pid, p);
  }

  // ---------------------------------------------------------------- unsubscribers

  lemma UnregisteringOk<V>(w: World<V>, pid: nat, user: string, queue: string)
    requires Inv(w) && pid !in w.processes && queue in w.registry
    ensures Inv(UnregisterStep(w, pid, user, queue))
  {
    hide Consistent, GoodDigest, QueuesOk, CountsOk;
    var w' := UnregisterStep(w, pid, user, queue);
    var p := w'.processes[pid];
    LockKept(w.processes, pid, p);
    LeavingQueuesOk(w.digest, w.table, w.registry, w.processes, pid, p);
    UnregisteredOk(w.counts, w.registry, w.processes, pid, p, queue);
    WritersKept(w.store.versions, w.processes, pid, p);
    FlightsKept(w.processes, pid, p);
    forall q | q in w'.processes && w'.processes[q].Subscriber?
      ensures var sub := w'.processes[q];
              StreamOk(w.store.versions, Flights(w'.processes), sub.queue in w'.registry,
                  Contents(w.streams, sub.queue), sub)
    {
      var sub := w.processes[q];
      assert StreamOk(w.store.versions, Flights(w.processes), sub.queue in w.registry, Contents(w.streams, sub.queue),
          sub);
    }
  }

  lemma UnsubscriberStepOk<V>(w: World<V>, pid: nat)
    requires Inv(w) && pid in w.processes && w.processes[pid].Unsubscriber?
    ensures Inv(UnsubscriberStep(w, pid))
  {
    match w.processes[pid].unsubscribing
    case Unregistered(full) => CountingDownOk(w, pid);
    case Uncounted => DeletingOk(w, pid);
    case _ =>
  }

  lemma CountingDownOk<V>(w: World<V>, pid: nat)
    requires Inv(w) && pid in w.processes && w.processes[pid].Unsubscriber?
             && w.processes[pid].unsubscribing.Unregistered?
    ensures w.processes[pid].unsubscribing.fullName in w.counts
    ensures Inv(UnsubscriberStep(w, pid))
  {
    hide Consistent, GoodDigest, QueuesOk, StreamsOk, CountsOk, CountDown;
    var p := w.processes[pid];
    var p' := p.(unsubscribing := Uncounted);
    CountedDownOk(w.counts, w.registry, w.processes, pid, p', p.unsubscribing.fullName);
    LockKept(w.processes, pid, p');
    QueuesKept(w.digest, w.table, w.registry, w.processes, pid, p');
    WritersKept(w.store.versions, w.processes, pid, p');
    FlightsKept(w.processes, pid, p');
    StreamsKept(w.store.versions, Flights(w.processes), w.registry, w.streams, w.processes, pid, p');
  }

  /** Deleting a stream: the queue left the registry for good, so nothing is claimed of it any more. */
  lemma DeletingOk<V>(w: World<V>, pid: nat)
    requires Inv(w) && pid in w.processes && w.processes[pid].Unsubscriber? && w.processes[pid].unsubscribing.Uncounted?
    ensures Inv(UnsubscriberStep(w, pid))
  {
    var p := w.processes[pid];
    var p' := p.(unsubscribing := UnsubscriberPhase.Deleted);
    var w' := UnsubscriberStep(w, pid);
    assert LeftForGood(w.registry, w.processes, p.leaving);
    hide Consistent, GoodDigest, QueuesOk, CountsOk;
    LockKept(w.processes, pid, p');
    CountsKept(w.counts, w.registry, w.processes, pid, p');
    QueuesKept(w.digest, w.table, w.registry, w.processes, pid, p');
    WritersKept(w.store.versions, w.processes, pid, p');
    FlightsKept(w.processes, pid, p');
    forall q | q in w'.processes && w'.processes[q].Subscriber?
      ensures var sub := w'.processes[q];
              StreamOk(w.store.versions, Flights(w'.processes), sub.queue in w.registry,
                  Contents(w'.streams, sub.queue), sub)
    {
      var sub := w.processes[q];
      assert StreamOk(w.store.versions, Flights(w.processes), sub.queue in w.registry, Contents(w.streams, sub.queue),
          sub);
    }
  }

  // ---------------------------------------------------------------- the broker's own key

  lemma WritersGrow<V>(versions: map<Version, V>, processes: Processes<V>, v: Version, value: V)
    requires WritersOk(versions, processes) && v !in versions
    ensures WritersOk(versions[v := value], processes)
  {}

  lemma CreatingMqUriOk<V>(w: World<V>, user: string, uri: V, now: Nanos)
    requires Inv(w)
    ensures Inv(Next(w, CreateMqUri(user, uri, now)))
  {
    var op := Create(Name(user, MQ_URI), uri, now);
    if Allowed(w.store, op) && Apply(w.store, op).1.Success? {
      ApplyOk(w.store, op);
      assert VersionOf(op) !in w.store.versions;
      hide Consistent, GoodDigest, QueuesOk, CountsOk, KeyPath, StreamOk;
      WritersGrow(w.store.versions, w.processes, VersionOf(op), uri);
      forall q | q in w.processes && w.processes[q].Subscriber?
        ensures var sub := w.processes[q];
                StreamOk(w.store.versions[VersionOf(op) := uri], Flights(w.processes), sub.queue in w.registry,
                    Contents(w.streams, sub.queue), sub)
      {
        var sub := w.processes[q];
        StreamAfterMqUri(w.store.versions, Flights(w.processes), sub.queue in w.registry,
            Contents(w.streams, sub.queue), sub, VersionOf(op), uri);
      }
    }
  }

  // ---------------------------------------------------------------- every step

  lemma NextOk<V>(w: World<V>, step: Step<V>)
    requires Inv(w)
    ensures Inv(Next(w, step))
  {
    hide Inv;
    match step
    case StartWriter(pid, op) =>
      if pid !in w.processes && ':' !in op.name.user { WriterMovesOk(w, pid, Writer(op, Starting)); }
    case Write(pid) => if pid in w.processes && w.processes[pid].Writer? { WriterStepOk(w, pid); }
    case StartSubscriber(pid, name, start, queue) =>
      if pid !in w.processes && ':' !in name.user && IsFreshQueue(w, queue) {
        NewSubscriberOk(w, pid, name, start, queue);
      }
    case Subscribe(pid) => if pid in w.processes && w.processes[pid].Subscriber? { SubscriberStepOk(w, pid); }
    case List(pid, paths) =>
      if pid in w.processes && w.processes[pid].Subscriber? && w.processes[pid].subscribing.Bound? {
        ListingOk(w, pid, paths);
      }
    case Read(pid, messages) =>
      if pid in w.processes && w.processes[pid].Subscriber? && w.processes[pid].subscribing.Listed? {
        ReadingOk(w, pid, messages);
      }
    case Unregister(pid, user, queue) =>
      if pid !in w.processes && queue in w.registry { UnregisteringOk(w, pid, user, queue); }
    case Unsubscribe(pid) => if pid in w.processes && w.processes[pid].Unsubscriber? { UnsubscriberStepOk(w, pid); }
    case CreateMqUri(user, uri, now) => CreatingMqUriOk(w, user, uri, now);
  }

  lemma {:induction false} ExecuteOk<V>(w: World<V>, steps: seq<Step<V>>)
    requires Inv(w)
    ensures Inv(Execute(w, steps))
    decreases |steps|
  {
    hide Inv;
    if steps != [] {
      NextOk(w, steps[0]);
      ExecuteOk(Next(w, steps[0]), steps[1..]);
    }
  }

  lemma InitOk<V>(digest: string -> string)
    requires GoodDigest(digest)
    ensures Inv<V>(Init(digest))
  {}
}
