/**
 Subscriptions over the mutable storage, as processes that interleave.

 A writer holds a shared lock while it stores and publishes.  A subscriber holds the lock
 exclusively from counting its key to the last message of its snapshot.  An unsubscriber takes
 no part in that lock.  Each process is at a phase; a step is what one process does between two
 points at which another may run.  Who holds the lock can be read off the phases.

 Finished processes stay in the table of processes, so that a subscription can be spoken of
 after `subscribe` has returned.
 */
module Subscription {
  import opened Wrappers
  import opened KeyPaths
  import opened VersionedStore
  import opened Routing

  // The payload of a deletion is empty.
  datatype Message<V> = Message(changeType: string, keyPath: string, payload: Option<V>)

  datatype WriterPhase<V> =
    | Starting
    | Locked
    | Stored(message: Message<V>)
    | Matched(message: Message<V>)
    | Leaving
    | Returned

  datatype SubscriberPhase<V> =
    | QueueReady
    | Exclusive
    | CountedUp
    | Registered
    | Bound
    | Listed(paths: seq<string>)
    | Sending(rest: seq<Message<V>>)
    | Subscribed
    | Failed

  datatype UnsubscriberPhase = Unregistered(fullName: string) | Denied(fullName: string) | Uncounted | Deleted

  datatype Process<V> =
    | Writer(op: Operation<V>, writing: WriterPhase<V>)
    | Subscriber(name: Name, start: int, queue: string, subscribing: SubscriberPhase<V>)
    | Unsubscriber(user: string, leaving: string, unsubscribing: UnsubscriberPhase)

  datatype World<V> = World(
    digest: string -> string,
    store: Store<V>,
    counts: map<string, int>,
    registry: map<string, string>,
    table: map<string, seq<string>>,
    streams: map<string, seq<Message<V>>>,
    processes: map<nat, Process<V>>)

  datatype Step<V> =
    | StartWriter(pid: nat, op: Operation<V>)
    | Write(pid: nat)
    | StartSubscriber(pid: nat, name: Name, start: int, queue: string)
    | Subscribe(pid: nat)
    | List(pid: nat, paths: seq<string>)
    | Read(pid: nat, messages: seq<Message<V>>)
    | Unregister(pid: nat, user: string, queue: string)
    | Unsubscribe(pid: nat)
    | CreateMqUri(user: string, uri: V, now: Nanos)

  const MQ_URI := "_internal:mq_uri"

  predicate IsShared<V>(p: Process<V>) {
    p.Writer? && (p.writing.Locked? || p.writing.Stored? || p.writing.Matched? || p.writing.Leaving?)
  }

  predicate IsExclusive<V>(p: Process<V>) {
    && p.Subscriber?
    && (p.subscribing.Exclusive? || p.subscribing.CountedUp? || p.subscribing.Registered? || p.subscribing.Bound?
        || p.subscribing.Listed? || p.subscribing.Sending?)
  }

  ghost predicate NoneExclusive<V>(processes: map<nat, Process<V>>) {
    forall pid | pid in processes :: !IsExclusive(processes[pid])
  }

  ghost predicate NoneInside<V>(processes: map<nat, Process<V>>) {
    forall pid | pid in processes :: !IsExclusive(processes[pid]) && !IsShared(processes[pid])
  }

  function ChangeType<V>(op: Operation<V>): string {
    match op
    case Create(_, _, _) => "create"
    case Update(_, _, _) => "update"
    case Delete(_, _) => "delete"
  }

  function PayloadOf<V>(op: Operation<V>): Option<V> {
    if op.Delete? then None else Some(op.value)
  }

  function CountUp(counts: map<string, int>, fullName: string): map<string, int> {
    counts[fullName := if fullName in counts then counts[fullName] + 1 else 1]
  }

  /** The last subscription of a name takes its entry away. */
  function CountDown(counts: map<string, int>, fullName: string): map<string, int>
    requires fullName in counts
  {
    if counts[fullName] == 1 then counts - {fullName} else counts[fullName := counts[fullName] - 1]
  }

  function SetOf(paths: seq<string>): (r: set<string>)
    ensures forall path :: path in r <==> path in paths
  {
    set path | path in paths
  }

  function KeyPathsOf<V>(messages: seq<Message<V>>): (r: set<string>)
    ensures forall m | m in messages :: m.keyPath in r
    ensures forall path | path in r :: exists m :: m in messages && m.keyPath == path
  {
    set i | 0 <= i < |messages| :: messages[i].keyPath
  }

  /** The filter of the snapshot: the path parses to the name, at or after the start. */
  predicate Wanted(path: string, fullName: string, start: int) {
    && NameOfPath(path) == Some(fullName)
    && TimestampOfPath(path).Some?
    && TimestampOfPath(path).value >= start
  }

  ghost function WantedPaths<V>(s: Store<V>, name: Name, start: int): (r: set<string>) {
    set path | path in History(s, SubscriptionPrefix(name) + ":") && Wanted(path, FullName(name), start)
  }

  ghost predicate IsListing<V>(s: Store<V>, name: Name, start: int, paths: seq<string>) {
    && SetOf(paths) == WantedPaths(s, name, start)
    && forall i, j | 0 <= i < j < |paths| :: paths[i] != paths[j]
  }

  /** The snapshot: one message for each listed path, in the order of a hash map, which may be any. */
  ghost predicate IsSnapshot<V>(s: Store<V>, paths: seq<string>, messages: seq<Message<V>>) {
    && SetOf(paths) == KeyPathsOf(messages)
    && (forall i, j | 0 <= i < j < |messages| :: messages[i].keyPath != messages[j].keyPath)
    && (forall m | m in messages ::
        m.changeType == "in-storage" && m.payload.Some? && ReadsAs(s, m.keyPath, m.payload.value))
  }

  ghost predicate IsFreshQueue<V>(w: World<V>, queue: string) {
    && queue !in w.streams
    && (forall key :: Times(BoundTo(w.table, key), queue) == 0)
    && queue !in w.table
    && queue !in w.registry
    && (forall pid | pid in w.processes && w.processes[pid].Subscriber? :: w.processes[pid].queue != queue)
    && (forall pid | pid in w.processes && w.processes[pid].Unsubscriber? :: w.processes[pid].leaving != queue)
    && (forall name: Name :: RoutingKey(w.digest, FullName(name)) != queue)
  }

  function At<V>(w: World<V>, pid: nat, p: Process<V>): map<nat, Process<V>> {
    w.processes[pid := p]
  }

  ghost function WriterStep<V>(w: World<V>, pid: nat): (w': World<V>)
    requires pid in w.processes && w.processes[pid].Writer?
  {
    var p := w.processes[pid];
    var full := FullName(p.op.name);
    match p.writing
    case Starting => if NoneExclusive(w.processes) then w.(processes := At(w, pid, p.(writing := Locked))) else w
    case Locked =>
      if !Allowed(w.store, p.op) then w
      else
        var (store, result) := Apply(w.store, p.op);
        var phase :=
          match result
          case Success(path) => Stored(Message(ChangeType(p.op), path, PayloadOf(p.op)))
          case Failure(_) => Leaving;
        w.(store := store, processes := At(w, pid, p.(writing := phase)))
    case Stored(message) =>
      w.(processes := At(w, pid, p.(writing := if full in w.counts then Matched(message) else Leaving)))
    case Matched(message) =>
      w.(streams := Delivered(w.streams, BoundTo(w.table, RoutingKey(w.digest, full)), message),
         processes := At(w, pid, p.(writing := Leaving)))
    case Leaving => w.(processes := At(w, pid, p.(writing := Returned)))
    case Returned => w
  }

  ghost function SubscriberStep<V>(w: World<V>, pid: nat): (w': World<V>)
    requires pid in w.processes && w.processes[pid].Subscriber?
  {
    var p := w.processes[pid];
    var full := FullName(p.name);
    match p.subscribing
    case QueueReady => if NoneInside(w.processes) then w.(processes := At(w, pid, p.(subscribing := Exclusive))) else w
    case Exclusive => w.(counts := CountUp(w.counts, full), processes := At(w, pid, p.(subscribing := CountedUp)))
    case CountedUp =>
      w.(registry := w.registry[p.queue := full], processes := At(w, pid, p.(subscribing := Registered)))
    case Registered =>
      w.(table := Bind(w.table, p.queue, RoutingKey(w.digest, full)), processes := At(w, pid, p.(subscribing := Bound)))
    case Sending(rest) =>
      if rest == [] then w.(processes := At(w, pid, p.(subscribing := Subscribed)))
      else w.(streams := Delivered(w.streams, BoundTo(w.table, p.queue), rest[0]),
              processes := At(w, pid, p.(subscribing := Sending(rest[1..]))))
    case _ => w
  }

  ghost function ListStep<V>(w: World<V>, pid: nat, paths: seq<string>): (w': World<V>)
    requires pid in w.processes && w.processes[pid].Subscriber? && w.processes[pid].subscribing.Bound?
  {
    var p := w.processes[pid];
    if IsListing(w.store, p.name, p.start, paths) then w.(processes := At(w, pid, p.(subscribing := Listed(paths))))
        else w
  }

  /** Reading is all or nothing: a listed path without a version ends the subscription with an error. */
  ghost function ReadStep<V>(w: World<V>, pid: nat, messages: seq<Message<V>>): (w': World<V>)
    requires pid in w.processes && w.processes[pid].Subscriber? && w.processes[pid].subscribing.Listed?
  {
    var p := w.processes[pid];
    var paths := p.subscribing.paths;
    if exists path :: path in paths && !Readable(w.store, path)
        then w.(processes := At(w, pid, p.(subscribing := Failed)))
    else if IsSnapshot(w.store, paths, messages) then w.(processes := At(w, pid, p.(subscribing := Sending(messages))))
    else w
  }

  ghost function UnregisterStep<V>(w: World<V>, pid: nat, user: string, queue: string): (w': World<V>)
    requires pid !in w.processes && queue in w.registry
  {
    var full := w.registry[queue];
    w.(registry := w.registry - {queue},
       processes := At(w, pid,
           Unsubscriber(user, queue, if user == UserOfName(full) then Unregistered(full) else Denied(full))))
  }

  ghost function UnsubscriberStep<V>(w: World<V>, pid: nat): (w': World<V>)
    requires pid in w.processes && w.processes[pid].Unsubscriber?
  {
    var p := w.processes[pid];
    match p.unsubscribing
    case Unregistered(full) =>
      // Without a count the code reports "not found" and stops; see CountIsAlwaysFound.
      if full !in w.counts then w
      else w.(counts := CountDown(w.counts, full), processes := At(w, pid, p.(unsubscribing := Uncounted)))
    case Uncounted =>
      w.(streams := w.streams - {p.leaving}, processes := At(w, pid, p.(unsubscribing := UnsubscriberPhase.Deleted)))
    case _ => w
  }

  ghost function Next<V>(w: World<V>, step: Step<V>): (w': World<V>) {
    match step
    case StartWriter(pid, op) =>
      if pid in w.processes || ':' in op.name.user then w
      else w.(processes := At(w, pid, Writer(op, Starting)))
    case Write(pid) => if pid in w.processes && w.processes[pid].Writer? then WriterStep(w, pid) else w
    case StartSubscriber(pid, name, start, queue) =>
      if pid in w.processes || ':' in name.user || !IsFreshQueue(w, queue) then w
      else w.(streams := w.streams[queue := []], table := Bind(w.table, queue, queue),
              processes := At(w, pid, Subscriber(name, start, queue, QueueReady)))
    case Subscribe(pid) => if pid in w.processes && w.processes[pid].Subscriber? then SubscriberStep(w, pid) else w
    case List(pid, paths) =>
      if pid in w.processes && w.processes[pid].Subscriber? && w.processes[pid].subscribing.Bound?
      then ListStep(w, pid, paths) else w
    case Read(pid, messages) =>
      if pid in w.processes && w.processes[pid].Subscriber? && w.processes[pid].subscribing.Listed?
      then ReadStep(w, pid, messages) else w
    case Unregister(pid, user, queue) =>
      if pid !in w.processes && queue in w.registry then UnregisterStep(w, pid, user, queue) else w
    case Unsubscribe(pid) => if pid in w.processes && w.processes[pid].Unsubscriber? then UnsubscriberStep(w, pid)
        else w
    case CreateMqUri(user, uri, now) =>
      if Allowed(w.store, Create(Name(user, MQ_URI), uri, now))
      then w.(store := Apply(w.store, Create(Name(user, MQ_URI), uri, now)).0) else w
  }

  ghost function Execute<V>(w: World<V>, steps: seq<Step<V>>): (w': World<V>)
    decreases |steps|
  {
    if steps == [] then w else Execute(Next(w, steps[0]), steps[1..])
  }

  function Init<V>(digest: string -> string): World<V> {
    World(digest, Empty(), map[], map[], map[], map[], map[])
  }
}
