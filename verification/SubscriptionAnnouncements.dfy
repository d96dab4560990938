/**
 What the messages say: over every run, each message in a queue is of a snapshot, or announces the one
 operation that made its version, as the operation that it was.
 */
module SubscriptionAnnouncements {
  import opened Wrappers
  import opened KeyPaths
  import opened VersionedStore
  import opened Routing
  import opened Subscription
  import opened SubscriptionInvariant
  import opened SubscriptionWriters
  import opened SubscriptionSubscribers
  import opened SubscriptionHistory

  // ---------------------------------------------------------------- what a run announces

  /** What a writer's step has to tell, if it performs its operation and that succeeds. */
  ghost function Announced<V>(w: World<V>, step: Step<V>): (ms: set<Message<V>>) {
    match Performs(w, step)
    case Some(op) =>
      var r := Apply(w.store, op).1;
      if !step.Write? || r.Failure? then {}
      else if op.Create? then {Message("create", r.value, Some(op.value))}
      else if op.Update? then {Message("update", r.value, Some(op.value))}
      else {Message("delete", r.value, None)}
    case None => {}
  }

  ghost function AllAnnounced<V>(w: World<V>, steps: seq<Step<V>>): (ms: set<Message<V>>)
    decreases |steps|
  {
    if steps == [] then {} else Announced(w, steps[0]) + AllAnnounced(Next(w, steps[0]), steps[1..])
  }

  // ---------------------------------------------------------------- where announcements are

  ghost predicate WritersAnnounce<V>(processes: Processes<V>, made: set<Message<V>>) {
    forall pid | pid in processes && HasStored(processes[pid]) :: processes[pid].writing.message in made
  }

  ghost predicate IsHistory<V>(ms: seq<Message<V>>) {
    forall m | m in ms :: m.changeType == "in-storage"
  }

  ghost predicate SendersTellHistory<V>(processes: Processes<V>) {
    forall pid | pid in processes && processes[pid].Subscriber? && processes[pid].subscribing.Sending? ::
      IsHistory(processes[pid].subscribing.rest)
  }

  ghost predicate StreamsAnnounce<V>(streams: Streams<V>, made: set<Message<V>>) {
    forall queue, m | queue in streams && m in streams[queue] :: m.changeType == "in-storage" || m in made
  }

  ghost predicate Announces<V>(w: World<V>, made: set<Message<V>>) {
    && WritersAnnounce(w.processes, made) && SendersTellHistory(w.processes) && StreamsAnnounce(w.streams, made)
  }

  lemma {:induction false} DeliveredAnnounces<V>(streams: Streams<V>, queues: seq<string>, m: Message<V>,
                                                 made: set<Message<V>>)
    requires StreamsAnnounce(streams, made) && (m.changeType == "in-storage" || m in made)
    ensures StreamsAnnounce(Delivered(streams, queues, m), made)
  {
    if queues != [] { DeliveredAnnounces(streams, queues[..|queues| - 1], m, made); }
  }

  /** One process goes on, and the streams are right. */
  lemma GoesOnAnnounces<V>(w: World<V>, w': World<V>, made: set<Message<V>>, made': set<Message<V>>, pid: nat,
                           p: Process<V>)
    requires Announces(w, made) && made <= made' && w'.processes == w.processes[pid := p]
    requires StreamsAnnounce(w'.streams, made')
    requires HasStored(p) ==> p.writing.message in made'
    requires p.Subscriber? && p.subscribing.Sending? ==> IsHistory(p.subscribing.rest)
    ensures Announces(w', made')
  {
    hide IsHistory, StreamsAnnounce;
  }

  lemma MoreAnnounced<V>(w: World<V>, made: set<Message<V>>, made': set<Message<V>>)
    requires Announces(w, made) && made <= made'
    ensures Announces(w, made')
  {}

  // ---------------------------------------------------------------- every step

  /** A stored operation is announced as what it is, with the path that it returned. */
  lemma StoringAnnounces<V>(w: World<V>, made: set<Message<V>>, pid: nat)
    requires Announces(w, made) && pid in w.processes && w.processes[pid].Writer? && w.processes[pid].writing.Locked?
    ensures Announces(WriterStep(w, pid), made + Announced(w, Write(pid)))
  {
    hide KeyPath, FullName, Allowed, Announces;
    var p := w.processes[pid];
    var made' := made + Announced(w, Write(pid));
    MoreAnnounced(w, made, made');
    if Allowed(w.store, p.op) {
      assert Performs(w, Write(pid)) == Some(p.op);
      var r := Apply(w.store, p.op).1;
      var w' := WriterStep(w, pid);
      assert r.Success? ==> w'.processes[pid].writing.message in made';
      AnnouncesStreams(w, made');
      GoesOnAnnounces(w, w', made, made', pid, w'.processes[pid]);
    }
  }

  lemma AnnouncesStreams<V>(w: World<V>, made: set<Message<V>>)
    requires Announces(w, made)
    ensures StreamsAnnounce(w.streams, made)
  {}

  lemma WriterAnnounces<V>(w: World<V>, made: set<Message<V>>, pid: nat)
    requires Announces(w, made) && pid in w.processes && w.processes[pid].Writer?
    ensures Announces(WriterStep(w, pid), made + Announced(w, Write(pid)))
  {
    var p := w.processes[pid];
    assert p.writing.Stored? || p.writing.Matched? ==> HasStored(p) && p.writing.message in made;
    hide Announces, StreamsAnnounce, FullName, RoutingKey, BoundTo, Delivered, NoneExclusive;
    AnnouncesStreams(w, made);
    match p.writing
    case Starting => GoesOnAnnounces(w, w.(processes := At(w, pid, p.(writing := Locked))), made, made, pid,
        p.(writing := Locked));
    case Locked => StoringAnnounces(w, made, pid);
    case Stored(m) =>
      GoesOnAnnounces(w, w.(processes := At(w, pid, p.(writing := Matched(m)))), made, made, pid,
          p.(writing := Matched(m)));
      GoesOnAnnounces(w, w.(processes := At(w, pid, p.(writing := Leaving))), made, made, pid, p.(writing := Leaving));
    case Matched(m) =>
      var queues := BoundTo(w.table, RoutingKey(w.digest, FullName(p.op.name)));
      DeliveredAnnounces(w.streams, queues, m, made);
      GoesOnAnnounces(w, WriterStep(w, pid), made, made, pid, p.(writing := Leaving));
    case Leaving => GoesOnAnnounces(w, WriterStep(w, pid), made, made, pid, p.(writing := Returned));
    case Returned =>
  }

  lemma SubscriberAnnounces<V>(w: World<V>, made: set<Message<V>>, pid: nat)
    requires Announces(w, made) && pid in w.processes && w.processes[pid].Subscriber?
    ensures Announces(SubscriberStep(w, pid), made)
  {
    var p := w.processes[pid];
    assert p.subscribing.Sending? ==> IsHistory(p.subscribing.rest);
    hide Announces, StreamsAnnounce, FullName, RoutingKey, BoundTo, Delivered, NoneInside, CountUp, Bind;
    AnnouncesStreams(w, made);
    var w' := SubscriberStep(w, pid);
    match p.subscribing
    case Sending(rest) =>
      if rest == [] {
        GoesOnAnnounces(w, w', made, made, pid, p.(subscribing := Subscribed));
      } else {
        DeliveredAnnounces(w.streams, BoundTo(w.table, p.queue), rest[0], made);
        GoesOnAnnounces(w, w', made, made, pid, p.(subscribing := Sending(rest[1..])));
      }
    case QueueReady => if w' != w { GoesOnAnnounces(w, w', made, made, pid, p.(subscribing := Exclusive)); }
    case Exclusive => GoesOnAnnounces(w, w', made, made, pid, p.(subscribing := CountedUp));
    case CountedUp => GoesOnAnnounces(w, w', made, made, pid, p.(subscribing := Registered));
    case Registered => GoesOnAnnounces(w, w', made, made, pid, p.(subscribing := Bound));
    case _ =>
  }

  lemma ReadingAnnounces<V>(w: World<V>, made: set<Message<V>>, step: Step<V>)
    requires Announces(w, made) && (step.List? || step.Read?)
    ensures Announces(Next(w, step), made)
  {
    hide Announces, StreamsAnnounce, IsListing, Readable;
    AnnouncesStreams(w, made);
    var w' := Next(w, step);
    if w' != w { GoesOnAnnounces(w, w', made, made, step.pid, w'.processes[step.pid]); }
  }

  lemma OthersAnnounce<V>(w: World<V>, made: set<Message<V>>, step: Step<V>)
    requires Announces(w, made)
    requires step.StartWriter? || step.StartSubscriber? || step.Unregister? || step.Unsubscribe?
    ensures Announces(Next(w, step), made)
  {
    assert StreamsAnnounce(Next(w, step).streams, made) by {
      hide WritersAnnounce, SendersTellHistory, IsFreshQueue, UserOfName, Bind, CountDown;
    }
    hide Announces, StreamsAnnounce, IsFreshQueue, UserOfName, Bind, CountDown;
    var w' := Next(w, step);
    if w' != w { GoesOnAnnounces(w, w', made, made, step.pid, w'.processes[step.pid]); }
  }

  lemma NextAnnounces<V>(w: World<V>, made: set<Message<V>>, step: Step<V>)
    requires Announces(w, made)
    ensures Announces(Next(w, step), made + Announced(w, step))
  {
    hide Announces, WriterStep, SubscriberStep, UnsubscriberStep, ListStep, ReadStep, UnregisterStep, IsFreshQueue,
        Bind,
        Apply, Allowed;
    assert made + {} == made;
    match step
    case Write(pid) =>
      if pid in w.processes && w.processes[pid].Writer? { WriterAnnounces(w, made, pid); }
    case Subscribe(pid) => if pid in w.processes && w.processes[pid].Subscriber? { SubscriberAnnounces(w, made, pid); }
    case List(_, _) => ReadingAnnounces(w, made, step);
    case Read(_, _) => ReadingAnnounces(w, made, step);
    case CreateMqUri(_, _, _) => StoreAnnounces(w, Next(w, step), made);
    case _ => OthersAnnounce(w, made, step);
  }

  lemma StoreAnnounces<V>(w: World<V>, w': World<V>, made: set<Message<V>>)
    requires Announces(w, made) && w' == w.(store := w'.store)
    ensures Announces(w', made)
  {}

  // ---------------------------------------------------------------- one announcement for each version

  /** Announced values are stored, and no path is announced with two different messages. */
  ghost predicate AnnouncedOnce<V>(s: Store<V>, made: set<Message<V>>) {
    && (forall m | m in made && m.payload.Some? :: ReadsAs(s, m.keyPath, m.payload.value))
    && (forall m, m' | m in made && m' in made && m.payload.Some? && m'.payload.Some? && m.keyPath == m'.keyPath ::
          m == m')
  }

  lemma ReadsOn<V>(s: Store<V>, s': Store<V>, path: string, value: V)
    requires Extends(s, s') && ReadsAs(s, path, value)
    ensures ReadsAs(s', path, value)
  {}

  /** The path of a write is new. */
  lemma NewPathIsNew<V>(s: Store<V>, name: Name, now: Nanos, value: V)
    requires Consistent(s) && ':' !in name.user && Fresh(s, name, now)
    ensures !ReadsAs(s, KeyPath(name, now), value)
  {
    hide KeyPath;
    if v :| v in s.versions && PathOf(v) == KeyPath(name, now) {
      assert VersionOk(s, v);
      KeyPathInjective(v.name, v.timestamp, name, now);
    }
  }

  lemma AnnouncedReads<V>(w: World<V>, step: Step<V>, m: Message<V>)
    requires Consistent(w.store) && m in Announced(w, step) && m.payload.Some?
    ensures ReadsAs(Next(w, step).store, m.keyPath, m.payload.value)
    ensures forall value :: !ReadsAs(w.store, m.keyPath, value)
  {
    hide Next, KeyPath, Consistent;
    NextKeeps(w, step, 0);
    PerformedIsAllowed(w, step);
    var op := Performs(w, step).value;
    var v := Version(op.name, op.now);
    assert v in Next(w, step).store.versions && PathOf(v) == m.keyPath;
    forall value: V ensures !ReadsAs(w.store, m.keyPath, value) { NewPathIsNew(w.store, op.name, op.now, value); }
  }

  lemma NextAnnouncedOnce<V>(w: World<V>, made: set<Message<V>>, step: Step<V>)
    requires Consistent(w.store) && AnnouncedOnce(w.store, made)
    ensures AnnouncedOnce(Next(w, step).store, made + Announced(w, step))
  {
    hide Consistent, Next, ReadsAs, Apply, Performs;
    OneStepExtends(w, step);
    var s' := Next(w, step).store;
    forall m | m in made && m.payload.Some? ensures ReadsAs(s', m.keyPath, m.payload.value) {
      ReadsOn(w.store, s', m.keyPath, m.payload.value);
    }
    forall m | m in Announced(w, step) && m.payload.Some?
      ensures ReadsAs(s', m.keyPath, m.payload.value)
      ensures forall value :: !ReadsAs(w.store, m.keyPath, value)
    {
      AnnouncedReads(w, step, m);
    }
  }

  lemma OneStepExtends<V>(w: World<V>, step: Step<V>)
    ensures Extends(w.store, Next(w, step).store)
  {
    hide Next, Apply, Performs, Extends;
    NextKeeps(w, step, 0);
    ExtendsItself(w.store);
    if Performs(w, step).Some? {
      PerformedIsAllowed(w, step);
      ApplyExtends(w.store, Performs(w, step).value);
    }
  }

  // ---------------------------------------------------------------- every run

  lemma {:induction false} ExecuteAnnounces<V>(w: World<V>, made: set<Message<V>>, steps: seq<Step<V>>)
    requires Inv(w) && Announces(w, made) && AnnouncedOnce(w.store, made)
    ensures Announces(Execute(w, steps), made + AllAnnounced(w, steps))
    ensures AnnouncedOnce(Execute(w, steps).store, made + AllAnnounced(w, steps))
    decreases |steps|
  {
    assert Consistent(w.store);
    hide Inv, Consistent, Announces, AnnouncedOnce, Next, Announced;
    if steps == [] {
      assert made + {} == made;
    } else {
      NextOk(w, steps[0]);
      NextAnnounces(w, made, steps[0]);
      NextAnnouncedOnce(w, made, steps[0]);
      var made' := made + Announced(w, steps[0]);
      ExecuteAnnounces(Next(w, steps[0]), made', steps[1..]);
      assert made' + AllAnnounced(Next(w, steps[0]), steps[1..]) == made + AllAnnounced(w, steps);
    }
  }

  /**
   Every message in every queue of every run is of a snapshot, or is the announcement of an operation that
   the run performed, as a creation, an update or a deletion; and of two announcements of values with the
   same path, wherever they are, both say the same.
   */
  lemma QueuesHoldAnnouncements<V(!new)>(digest: string -> string, steps: seq<Step<V>>)
    requires GoodDigest(digest)
    ensures var w, made := Execute(Init(digest), steps), AllAnnounced(Init(digest), steps);
            && (forall queue, m | queue in w.streams && m in w.streams[queue] ::
                  m.changeType == "in-storage" || m in made)
            && (forall m, m' | m in made && m' in made && m.payload.Some? && m'.payload.Some?
                  && m.keyPath == m'.keyPath :: m == m')
  {
    InitOk<V>(digest);
    assert Announces<V>(Init(digest), {}) && AnnouncedOnce<V>(Init<V>(digest).store, {});
    hide Inv, Execute, AllAnnounced, Init;
    ExecuteAnnounces<V>(Init(digest), {}, steps);
    assert {} + AllAnnounced<V>(Init(digest), steps) == AllAnnounced<V>(Init(digest), steps);
  }

  /** An announcement belongs to a step that performed its operation. */
  lemma {:induction false} AnnouncedBySomeStep<V>(w: World<V>, steps: seq<Step<V>>, m: Message<V>) returns (i: nat)
    requires m in AllAnnounced(w, steps)
    ensures i < |steps| && m in Announced(Execute(w, steps[..i]), steps[i])
    decreases |steps|
  {
    hide Next, Announced;
    if m in Announced(w, steps[0]) {
      i := 0;
    } else {
      var j := AnnouncedBySomeStep(Next(w, steps[0]), steps[1..], m);
      i := j + 1;
      assert steps[..i][1..] == steps[1..][..j] && steps[..i][0] == steps[0];
    }
  }
}
