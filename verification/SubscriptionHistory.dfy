/** What a run of the processes does to the storage and to a subscription, whatever else it does. */
module SubscriptionHistory {
  import opened Wrappers
  import opened KeyPaths
  import opened VersionedStore
  import opened Routing
  import opened Subscription

  /** The operation that a step performs on the storage, if any. */
  ghost function Performs<V>(w: World<V>, step: Step<V>): (op: Option<Operation<V>>) {
    match step
    case Write(pid) =>
      if pid in w.processes && w.processes[pid].Writer? && w.processes[pid].writing.Locked?
          then PerformsIf(w.store, w.processes[pid].op)
      else None
    case CreateMqUri(user, uri, now) => PerformsIf(w.store, Create(Name(user, MQ_URI), uri, now))
    case _ => None
  }

  ghost function PerformsIf<V>(s: Store<V>, op: Operation<V>): (r: Option<Operation<V>>)
    ensures r.Some? ==> Allowed(s, op) && r.value == op
  {
    if Allowed(s, op) then Some(op) else None
  }

  /** A subscriber keeps its name, its start and its queue. */
  predicate SameSubscription<V>(p: Process<V>, p': Process<V>) {
    p.Subscriber? && p'.Subscriber? && p'.name == p.name && p'.start == p.start && p'.queue == p.queue
  }

  ghost predicate KeepsSubscription<V>(w: World<V>, w': World<V>, pid: nat) {
    pid in w.processes && w.processes[pid].Subscriber? ==>
      pid in w'.processes && SameSubscription(w.processes[pid], w'.processes[pid])
  }

  lemma WriterStepKeeps<V>(w: World<V>, actor: nat, pid: nat)
    requires actor in w.processes && w.processes[actor].Writer?
    ensures KeepsSubscription(w, WriterStep(w, actor), pid)
    ensures var op := Performs(w, Write(actor));
            WriterStep(w, actor).store == if op.Some? then Apply(w.store, op.value).0 else w.store
  {
    hide Apply, Allowed, FullName, NoneExclusive, Delivered, BoundTo, RoutingKey, KeyPath;
  }

  lemma SubscriberStepKeeps<V>(w: World<V>, actor: nat, pid: nat)
    requires actor in w.processes && w.processes[actor].Subscriber?
    ensures KeepsSubscription(w, SubscriberStep(w, actor), pid) && SubscriberStep(w, actor).store == w.store
  {
    hide FullName, NoneInside, CountUp, Bind, Delivered, BoundTo, RoutingKey;
  }

  lemma SnapshotStepsKeep<V>(w: World<V>, actor: nat, paths: seq<string>, messages: seq<Message<V>>, pid: nat)
    requires actor in w.processes && w.processes[actor].Subscriber?
    ensures w.processes[actor].subscribing.Bound? ==>
              KeepsSubscription(w, ListStep(w, actor, paths), pid) && ListStep(w, actor, paths).store == w.store
    ensures w.processes[actor].subscribing.Listed? ==>
              KeepsSubscription(w, ReadStep(w, actor, messages), pid) && ReadStep(w, actor, messages).store == w.store
  {
    hide IsListing, IsSnapshot, Readable;
  }

  lemma UnsubscriberStepsKeep<V>(w: World<V>, actor: nat, user: string, queue: string, pid: nat)
    ensures actor !in w.processes && queue in w.registry ==>
              KeepsSubscription(w, UnregisterStep(w, actor, user, queue), pid)
                  && UnregisterStep(w, actor, user, queue).store == w.store
    ensures actor in w.processes && w.processes[actor].Unsubscriber? ==>
              KeepsSubscription(w, UnsubscriberStep(w, actor), pid) && UnsubscriberStep(w, actor).store == w.store
  {
    hide UserOfName, CountDown;
  }

  /** One step performs at most one operation, and no subscription changes hands. */
  lemma NextKeeps<V>(w: World<V>, step: Step<V>, pid: nat)
    ensures var op := Performs(w, step);
            Next(w, step).store == if op.Some? then Apply(w.store, op.value).0 else w.store
    ensures KeepsSubscription(w, Next(w, step), pid)
  {
    hide WriterStep, SubscriberStep, ListStep, ReadStep, UnregisterStep, UnsubscriberStep, Apply, Allowed, IsFreshQueue;
    match step
    case StartWriter(actor, op) =>
    case Write(actor) => if actor in w.processes && w.processes[actor].Writer? { WriterStepKeeps(w, actor, pid); }
    case StartSubscriber(actor, name, start, queue) =>
    case Subscribe(actor) =>
        if actor in w.processes && w.processes[actor].Subscriber? { SubscriberStepKeeps(w, actor, pid); }
    case List(actor, paths) =>
        if actor in w.processes && w.processes[actor].Subscriber? { SnapshotStepsKeep(w, actor, paths, [], pid); }
    case Read(actor, messages) =>
        if actor in w.processes && w.processes[actor].Subscriber? { SnapshotStepsKeep(w, actor, [], messages, pid); }
    case Unregister(actor, user, queue) => UnsubscriberStepsKeep(w, actor, user, queue, pid);
    case Unsubscribe(actor) => UnsubscriberStepsKeep(w, actor, "", "", pid);
    case CreateMqUri(user, uri, now) =>
  }

  /** Versions stay with their values, and those made later of a name are later than all that it had. */
  ghost predicate Extends<V>(s: Store<V>, s': Store<V>) {
    && (forall v | v in s.versions :: v in s'.versions && s'.versions[v] == s.versions[v])
    && (forall v | v in s'.versions && v !in s.versions :: Fresh(s, v.name, v.timestamp))
  }

  lemma ApplyExtends<V>(s: Store<V>, op: Operation<V>)
    requires Allowed(s, op)
    ensures Extends(s, Apply(s, op).0)
  {
    hide FullName, KeyPath;
  }

  lemma ExtendsTwice<V>(s: Store<V>, s1: Store<V>, s2: Store<V>)
    requires Extends(s, s1) && Extends(s1, s2)
    ensures Extends(s, s2)
  {
    forall v | v in s2.versions && v !in s.versions ensures Fresh(s, v.name, v.timestamp) {
      if v in s1.versions {
        assert Fresh(s, v.name, v.timestamp);
      } else {
        assert Fresh(s1, v.name, v.timestamp);
      }
    }
  }

  /** A whole run, from any world. */
  lemma {:induction false} ExecuteKeeps<V>(w: World<V>, steps: seq<Step<V>>, pid: nat)
    ensures Extends(w.store, Execute(w, steps).store)
    ensures KeepsSubscription(w, Execute(w, steps), pid)
    decreases |steps|
  {
    hide Next, Apply, Performs, Extends;
    ExtendsItself(w.store);
    if steps != [] {
      NextKeeps(w, steps[0], pid);
      var op := Performs(w, steps[0]);
      if op.Some? {
        PerformedIsAllowed(w, steps[0]);
        ApplyExtends(w.store, op.value);
      }
      ExecuteKeeps(Next(w, steps[0]), steps[1..], pid);
      ExtendsTwice(w.store, Next(w, steps[0]).store, Execute(w, steps).store);
    }
  }

  lemma ExtendsItself<V>(s: Store<V>)
    ensures Extends(s, s)
  {}

  lemma PerformedIsAllowed<V>(w: World<V>, step: Step<V>)
    requires Performs(w, step).Some?
    ensures Allowed(w.store, Performs(w, step).value)
  {}
}
