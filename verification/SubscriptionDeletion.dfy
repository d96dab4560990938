/**
 Streams are deleted by their owners only.  A stream that was deleted may come back, since deleting it
 leaves the bindings of its queue alone: when that happens exactly, and a run in which it does.
 */
module SubscriptionDeletion {
  import opened KeyPaths
  import opened VersionedStore
  import opened Routing
  import opened Subscription
  import opened SubscriptionInvariant
  import opened SubscriptionStreams
  import opened SubscriptionWriters
  import opened SubscriptionSubscribers
  import opened SubscriptionTheorems
  import opened SubscriptionService
  import opened SubscriptionRuns

  // ---------------------------------------------------------------- exactly when

  /** The step publishes a change of the subscription's own name, whose route its queue is bound to. */
  predicate PublishesTo<V>(w: World<V>, step: Step<V>, sub: Process<V>)
    requires sub.Subscriber?
  {
    && step.Write? && step.pid in w.processes && w.processes[step.pid].Writer?
    && w.processes[step.pid].writing.Matched? && w.processes[step.pid].op.name == sub.name
    && IsRouted(sub.subscribing)
  }

  /** The step sends the subscriber one more message of its own snapshot. */
  predicate SendsTo<V>(w: World<V>, step: Step<V>, pid: nat)
    requires pid in w.processes && w.processes[pid].Subscriber?
  {
    step == Subscribe(pid) && w.processes[pid].subscribing.Sending? && w.processes[pid].subscribing.rest != []
  }

  lemma PublishingRestores<V>(w: World<V>, pid: nat, writer: nat)
    requires Inv(w) && pid in w.processes && w.processes[pid].Subscriber? && w.processes[pid].queue !in w.streams
    requires writer in w.processes && w.processes[writer].Writer? && w.processes[writer].writing.Matched?
    ensures w.processes[pid].queue in WriterStep(w, writer).streams <==>
              IsRouted(w.processes[pid].subscribing) && w.processes[writer].op.name == w.processes[pid].name
  {
    SubscriberNow(w, pid);
    assert WriterOk(w.store.versions, w.processes[writer]);
    var p, op := w.processes[pid], w.processes[writer].op;
    assert ':' !in op.name.user && ':' !in p.name.user && IsBound(w.digest, w.table, p) && IsNoRoute(w.digest, p.queue);
    assert GoodDigest(w.digest);
    hide Inv, StreamOk, SubscriberOk, IsRouted, FullName, RoutingKey, Delivered, Times, GoodDigest;
    var key := RoutingKey(w.digest, FullName(op.name));
    var queues := BoundTo(w.table, key);
    DeletedStreamComesBack(w.streams, queues, w.processes[writer].writing.message, p.queue);
    ListedIsBound(queues, p.queue);
    assert Times(queues, p.queue) == Bindings(w.digest, p, key);
    if key == RoutingKey(w.digest, FullName(p.name)) { RoutingKeyInjective(w.digest, op.name, p.name); }
  }

  lemma SendingRestores<V>(w: World<V>, pid: nat, other: nat)
    requires Inv(w) && pid in w.processes && w.processes[pid].Subscriber? && w.processes[pid].queue !in w.streams
    requires other in w.processes && w.processes[other].Subscriber?
    ensures w.processes[pid].queue in SubscriberStep(w, other).streams <==> SendsTo(w, Subscribe(other), pid)
  {
    SubscriberNow(w, pid);
    SubscriberNow(w, other);
    var p, q := w.processes[pid], w.processes[other];
    assert OwnsQueue(w.processes, pid, p.queue);
    assert IsBound(w.digest, w.table, p) && IsNoRoute(w.digest, q.queue);
    hide Inv, StreamOk, SubscriberOk, IsRouted, FullName, RoutingKey, Delivered, Times, CountUp, Bind;
    if q.subscribing.Sending? && q.subscribing.rest != [] {
      var queues := BoundTo(w.table, q.queue);
      DeletedStreamComesBack(w.streams, queues, q.subscribing.rest[0], p.queue);
      ListedIsBound(queues, p.queue);
      assert Times(queues, p.queue) == Bindings(w.digest, p, q.queue);
    }
  }

  lemma WriterRestores<V>(w: World<V>, pid: nat, writer: nat)
    requires Inv(w) && pid in w.processes && w.processes[pid].Subscriber? && w.processes[pid].queue !in w.streams
    requires writer in w.processes && w.processes[writer].Writer?
    ensures w.processes[pid].queue in WriterStep(w, writer).streams <==>
              PublishesTo(w, Write(writer), w.processes[pid])
  {
    hide Inv, IsRouted, FullName, RoutingKey, Delivered, BoundTo, Apply, Allowed, NoneExclusive, KeyPath;
    if w.processes[writer].writing.Matched? {
      hide WriterStep;
      PublishingRestores(w, pid, writer);
    }
  }

  lemma OthersRestoreNothing<V>(w: World<V>, pid: nat, step: Step<V>)
    requires pid in w.processes && w.processes[pid].Subscriber? && w.processes[pid].queue !in w.streams
    requires !step.Write? && !step.Subscribe?
    ensures w.processes[pid].queue !in Next(w, step).streams
  {
    hide FullName, RoutingKey, Bind, Apply, Allowed, IsListing, IsSnapshot, Readable, CountDown, UserOfName;
  }

  /**
   A subscriber's stream that is gone comes back at a step if and only if the step publishes a change of
   the subscription's own name, or sends what is left of its own snapshot.
   */
  lemma StreamComesBackExactly<V(!new)>(w: World<V>, pid: nat, step: Step<V>)
    requires Reached(w) && pid in w.processes && w.processes[pid].Subscriber? && w.processes[pid].queue !in w.streams
    ensures w.processes[pid].queue in Next(w, step).streams <==>
              PublishesTo(w, step, w.processes[pid]) || SendsTo(w, step, pid)
  {
    ReachedOk(w);
    hide Reached, Inv, IsRouted, FullName, WriterStep, SubscriberStep, UnsubscriberStep, UnregisterStep, ListStep,
        ReadStep, Apply, Allowed, Bind, IsFreshQueue;
    match step
    case Write(q) => if q in w.processes && w.processes[q].Writer? { WriterRestores(w, pid, q); }
    case Subscribe(q) => if q in w.processes && w.processes[q].Subscriber? { SendingRestores(w, pid, q); }
    case _ => OthersRestoreNothing(w, pid, step);
  }

  // ---------------------------------------------------------------- who deletes

  /** Whoever asks for a subscriber's queue and is not denied is the subscriber's user. */
  ghost predicate AsksForOwn<V>(p: Process<V>, sub: Process<V>) {
    p.Unsubscriber? && !p.unsubscribing.Denied? && sub.Subscriber? && sub.queue == p.leaving ==>
      sub.name.user == p.user
  }

  ghost predicate AllAskForOwn<V>(processes: Processes<V>) {
    forall u, q | u in processes && q in processes :: AsksForOwn(processes[u], processes[q])
  }

  /** The same process, still for the same name, queue or user, and still denied if it was. */
  predicate OwnRole<V>(p: Process<V>, p': Process<V>) {
    match p
    case Writer(_, _) => p'.Writer?
    case Subscriber(name, _, queue, _) => p'.Subscriber? && p'.name == name && p'.queue == queue
    case Unsubscriber(user, leaving, phase) =>
      p'.Unsubscriber? && p'.user == user && p'.leaving == leaving && (phase.Denied? ==> p'.unsubscribing.Denied?)
  }

  lemma GoesOnAsking<V>(processes: Processes<V>, pid: nat, p: Process<V>)
    requires AllAskForOwn(processes)
    requires if pid in processes then OwnRole(processes[pid], p) else p.Writer?
    ensures AllAskForOwn(processes[pid := p])
  {
    var processes' := processes[pid := p];
    forall u, q | u in processes' && q in processes' ensures AsksForOwn(processes'[u], processes'[q]) {
      if u in processes && q in processes { assert AsksForOwn(processes[u], processes[q]); }
    }
  }

  lemma WriterAsks<V>(w: World<V>, pid: nat)
    requires AllAskForOwn(w.processes) && pid in w.processes && w.processes[pid].Writer?
    ensures AllAskForOwn(WriterStep(w, pid).processes)
  {
    hide AllAskForOwn, FullName, KeyPath, Apply, Allowed, NoneExclusive, Delivered, BoundTo, RoutingKey;
    var w' := WriterStep(w, pid);
    if w' != w { GoesOnAsking(w.processes, pid, w'.processes[pid]); }
  }

  lemma PhaseAsks<V>(processes: Processes<V>, pid: nat, phase: SubscriberPhase<V>)
    requires AllAskForOwn(processes) && pid in processes && processes[pid].Subscriber?
    ensures AllAskForOwn(processes[pid := processes[pid].(subscribing := phase)])
  {
    hide AllAskForOwn;
    GoesOnAsking(processes, pid, processes[pid].(subscribing := phase));
  }

  lemma SubscriberAsks<V>(w: World<V>, pid: nat)
    requires AllAskForOwn(w.processes) && pid in w.processes && w.processes[pid].Subscriber?
    ensures AllAskForOwn(SubscriberStep(w, pid).processes)
  {
    hide AllAskForOwn, FullName, NoneInside, CountUp, Bind, Delivered, BoundTo, RoutingKey;
    match w.processes[pid].subscribing
    case QueueReady => PhaseAsks(w.processes, pid, Exclusive);
    case Exclusive => PhaseAsks(w.processes, pid, CountedUp);
    case CountedUp => PhaseAsks(w.processes, pid, Registered);
    case Registered => PhaseAsks(w.processes, pid, Bound);
    case Sending(rest) =>
      if rest == [] { PhaseAsks(w.processes, pid, Subscribed); } else {
        PhaseAsks(w.processes, pid, Sending(rest[1..]));
      }
    case _ =>
  }

  lemma SnapshotAsks<V>(w: World<V>, pid: nat, paths: seq<string>, messages: seq<Message<V>>)
    requires AllAskForOwn(w.processes) && pid in w.processes && w.processes[pid].Subscriber?
    ensures w.processes[pid].subscribing.Bound? ==> AllAskForOwn(ListStep(w, pid, paths).processes)
    ensures w.processes[pid].subscribing.Listed? ==> AllAskForOwn(ReadStep(w, pid, messages).processes)
  {
    hide AllAskForOwn, IsListing, IsSnapshot, Readable;
    PhaseAsks(w.processes, pid, Listed(paths));
    PhaseAsks(w.processes, pid, Failed);
    PhaseAsks(w.processes, pid, Sending(messages));
  }

  lemma UnsubscriberAsks<V>(w: World<V>, pid: nat)
    requires AllAskForOwn(w.processes) && pid in w.processes && w.processes[pid].Unsubscriber?
    ensures AllAskForOwn(UnsubscriberStep(w, pid).processes)
  {
    hide AllAskForOwn, CountDown;
    var w' := UnsubscriberStep(w, pid);
    if w' != w { GoesOnAsking(w.processes, pid, w'.processes[pid]); }
  }

  /** A queue is registered under its subscriber's name, so who passes the check of the name is its user. */
  lemma UnregisterAsks<V>(w: World<V>, pid: nat, user: string, queue: string)
    requires Inv(w) && AllAskForOwn(w.processes) && pid !in w.processes && queue in w.registry
    ensures AllAskForOwn(UnregisterStep(w, pid, user, queue).processes)
  {
    hide FullName, UserOfName, Consistent, LockOk, CountsOk, WritersOk, StreamsOk, GoodDigest;
    var processes' := UnregisterStep(w, pid, user, queue).processes;
    forall u, q | u in processes' && q in processes' ensures AsksForOwn(processes'[u], processes'[q]) {
      if u in w.processes && q in w.processes {
        assert AsksForOwn(w.processes[u], w.processes[q]);
      } else if q in w.processes && w.processes[q].Subscriber? && w.processes[q].queue == queue {
        SubscriberNow(w, q);
        NameGivesUser(w.processes[q].name);
      }
    }
  }

  lemma NewSubscriberAsks<V>(w: World<V>, pid: nat, p: Process<V>)
    requires AllAskForOwn(w.processes) && pid !in w.processes && p.Subscriber? && IsFreshQueue(w, p.queue)
    ensures AllAskForOwn(w.processes[pid := p])
  {
    hide RoutingKey, FullName, Times;
    var processes' := w.processes[pid := p];
    forall u, q | u in processes' && q in processes' ensures AsksForOwn(processes'[u], processes'[q]) {
      if u in w.processes && q in w.processes { assert AsksForOwn(w.processes[u], w.processes[q]); }
    }
  }

  lemma NextAsks<V>(w: World<V>, step: Step<V>)
    requires Inv(w) && AllAskForOwn(w.processes)
    ensures AllAskForOwn(Next(w, step).processes)
  {
    hide Inv, AllAskForOwn, WriterStep, SubscriberStep, UnsubscriberStep, UnregisterStep, ListStep, ReadStep,
        IsFreshQueue, Bind, Apply, Allowed;
    match step
    case StartWriter(pid, op) =>
      if pid !in w.processes { GoesOnAsking(w.processes, pid, Writer(op, Starting)); }
    case Write(pid) => if pid in w.processes && w.processes[pid].Writer? { WriterAsks(w, pid); }
    case StartSubscriber(pid, name, start, queue) =>
      if pid !in w.processes && IsFreshQueue(w, queue) {
        NewSubscriberAsks(w, pid, Subscriber(name, start, queue, QueueReady));
      }
    case Unregister(pid, user, queue) =>
      if pid !in w.processes && queue in w.registry { UnregisterAsks(w, pid, user, queue); }
    case Unsubscribe(pid) => if pid in w.processes && w.processes[pid].Unsubscriber? { UnsubscriberAsks(w, pid); }
    case Subscribe(pid) => if pid in w.processes && w.processes[pid].Subscriber? { SubscriberAsks(w, pid); }
    case List(pid, paths) => if pid in w.processes && w.processes[pid].Subscriber? { SnapshotAsks(w, pid, paths, []); }
    case Read(pid, messages) =>
      if pid in w.processes && w.processes[pid].Subscriber? { SnapshotAsks(w, pid, [], messages); }
    case CreateMqUri(_, _, _) =>
  }

  lemma {:induction false} ExecuteAsks<V>(w: World<V>, steps: seq<Step<V>>)
    requires Inv(w) && AllAskForOwn(w.processes)
    ensures AllAskForOwn(Execute(w, steps).processes)
    decreases |steps|
  {
    hide Inv, AllAskForOwn, Next;
    if steps != [] {
      NextOk(w, steps[0]);
      NextAsks(w, steps[0]);
      ExecuteAsks(Next(w, steps[0]), steps[1..]);
    }
  }

  /** Nothing but the last step of an unsubscriber takes a stream away, and only the one that it asked for. */
  lemma StreamGoesExactly<V>(w: World<V>, step: Step<V>, queue: string)
    requires queue in w.streams && !step.Write? && !step.Subscribe?
    ensures queue !in Next(w, step).streams <==>
              && step.Unsubscribe? && step.pid in w.processes && w.processes[step.pid].Unsubscriber?
              && w.processes[step.pid].unsubscribing.Uncounted? && w.processes[step.pid].leaving == queue
  {
    hide FullName, RoutingKey, Bind, Apply, Allowed, IsListing, IsSnapshot, Readable, CountDown, UserOfName;
  }

  lemma PublishingKeepsStreams<V>(w: World<V>, step: Step<V>, queue: string)
    requires queue in w.streams && (step.Write? || step.Subscribe?)
    ensures queue in Next(w, step).streams
  {
    hide FullName, RoutingKey, Bind, BoundTo, Apply, Allowed, Delivered, CountUp, NoneInside, NoneExclusive, KeyPath;
    var pid := step.pid;
    if pid in w.processes {
      var p := w.processes[pid];
      if step.Write? && p.Writer? && p.writing.Matched? {
        DeletedStreamComesBack(w.streams, BoundTo(w.table, RoutingKey(w.digest, FullName(p.op.name))),
            p.writing.message, queue);
      } else if step.Subscribe? && p.Subscriber? && p.subscribing.Sending? && p.subscribing.rest != [] {
        DeletedStreamComesBack(w.streams, BoundTo(w.table, p.queue), p.subscribing.rest[0], queue);
      }
    }
  }

  /** In every run, a subscriber's stream goes only at the request of the user whose subscription it is. */
  lemma OnlyTheOwnerDeletes<V(!new)>(digest: string -> string, steps: seq<Step<V>>, step: Step<V>, q: nat)
    requires GoodDigest(digest)
    requires var w := Execute(Init(digest), steps);
             && q in w.processes && w.processes[q].Subscriber?
             && w.processes[q].queue in w.streams && w.processes[q].queue !in Next(w, step).streams
    ensures var w := Execute(Init(digest), steps);
            && step.Unsubscribe? && step.pid in w.processes && w.processes[step.pid].Unsubscriber?
            && w.processes[step.pid].leaving == w.processes[q].queue
            && w.processes[step.pid].user == w.processes[q].name.user
  {
    InitOk<V>(digest);
    hide Inv, Execute, Init, Next, GoodDigest;
    assert AllAskForOwn<V>(Init<V>(digest).processes) by { NobodyAsks<V>(digest); }
    ExecuteAsks<V>(Init(digest), steps);
    var w := Execute(Init(digest), steps);
    var queue := w.processes[q].queue;
    if step.Write? || step.Subscribe? {
      PublishingKeepsStreams(w, step, queue);
    } else {
      StreamGoesExactly(w, step, queue);
      assert AsksForOwn(w.processes[step.pid], w.processes[q]);
    }
  }

  lemma NobodyAsks<V>(digest: string -> string)
    ensures AllAskForOwn<V>(Init<V>(digest).processes)
  {}

  // ---------------------------------------------------------------- a run in which it does

  /** With nothing stored, a call of subscribe that runs alone ends well and sends nothing. */
  lemma SubscribeToNothing<V>(w: World<V>, pid: nat, name: Name, queue: string) returns (steps: seq<Step<V>>)
    requires w.store == Empty() && pid !in w.processes && ':' !in name.user && IsFreshQueue(w, queue)
    requires NoneInside(w.processes)
    ensures Execute(w, steps) ==
              WithSubscriber(Registering(w, name, queue), pid, Subscriber(name, 1, queue, QueueReady), Subscribed)
  {
    NothingListed(w.store, name);
    hide Execute, IsListing, IsSnapshot, Registering, WithSubscriber, SentAll, IsFreshQueue, NoneInside;
    NothingSentYet(Registering(w, name, queue).streams, BoundTo(Registering(w, name, queue).table, queue));
    steps := SubscribingIsARun(w, pid, name, 1, queue, [], []);
  }

  lemma NothingListed<V>(s: Store<V>, name: Name)
    requires s == Empty()
    ensures IsListing(s, name, 1, []) && IsSnapshot(s, [], [])
  {}

  /** A queue is fresh if its name holds no colon and no other queue has it. */
  lemma OtherQueueIsFresh<V>(digest: string -> string, pid: nat, name: Name, first: string, second: string)
    requires ':' !in first && ':' !in second && first != second
    ensures IsFreshQueue<V>(Init(digest), first)
    ensures IsFreshQueue<V>(WithSubscriber(Registering(Init(digest), name, first), pid,
                Subscriber(name, 1, first, QueueReady), Subscribed), second)
  {}

  /** The world after two subscriptions to one name. */
  function TwoSubscribed<V>(digest: string -> string, name: Name): (w: World<V>) {
    var one := WithSubscriber(Registering(Init(digest), name, "q1"), 1, Subscriber(name, 1, "q1", QueueReady),
            Subscribed);
    WithSubscriber(Registering(one, name, "q2"), 2, Subscriber(name, 1, "q2", QueueReady), Subscribed)
  }

  lemma TwoSubscribedIsReached<V(!new)>(digest: string -> string, name: Name)
    requires GoodDigest(digest) && ':' !in name.user
    ensures Reached<V>(TwoSubscribed(digest, name))
  {
    var w0: World<V> := Init(digest);
    var one := WithSubscriber(Registering(w0, name, "q1"), 1, Subscriber(name, 1, "q1", QueueReady), Subscribed);
    assert Execute(w0, []) == w0;
    OtherQueueIsFresh<V>(digest, 1, name, "q1", "q2");
    hide Execute, GoodDigest, IsFreshQueue;
    var steps := SubscribeToNothing(w0, 1, name, "q1");
    assert Reached(one);
    var steps2 := SubscribeToNothing(one, 2, name, "q2");
    ReachedFurther(one, steps2);
  }

  /** The world in which the first of the two has been given up: its stream is gone, its bindings are not. */
  function OneLeft<V>(digest: string -> string, name: Name): (w: World<V>)
  {
    var w: World<V> := TwoSubscribed(digest, name);
    w.(counts := map[FullName(name) := 1], registry := w.registry - {"q1"}, streams := w.streams - {"q1"},
       processes := w.processes[3 := Unsubscriber(name.user, "q1", UnsubscriberPhase.Deleted)])
  }

  lemma OneLeftIsReached<V(!new)>(digest: string -> string, name: Name)
    requires GoodDigest(digest) && ':' !in name.user
    ensures Reached<V>(OneLeft(digest, name))
  {
    TwoSubscribedIsReached<V>(digest, name);
    var w: World<V> := TwoSubscribed(digest, name);
    NameGivesUser(name);
    hide Reached, RoutingKey, Bind, UserOfName, FullName;
    assert w.registry["q1"] == FullName(name) && w.counts == map[FullName(name) := 2];
    var steps := UnsubscribingIsARun(w, 3, name.user, "q1");
    ReachedFurther(w, steps);
  }

  lemma NothingIsLive<V>(s: Store<V>, op: Operation<V>)
    requires s == Empty() && ':' !in op.name.user && !op.Delete?
    ensures Allowed(s, op) && Apply(s, op).1.Success?
  {}

  lemma OneLeftNow<V>(digest: string -> string, name: Name)
    ensures var w: World<V> := OneLeft(digest, name);
            && w.store == Empty() && w.digest == digest && FullName(name) in w.counts
            && "q1" !in w.streams && "q1" !in w.registry && w.processes.Keys == {1, 2, 3}
            && w.processes[1] == Subscriber(name, 1, "q1", Subscribed)
            && w.processes[3] == Unsubscriber(name.user, "q1", UnsubscriberPhase.Deleted)
            && NoneExclusive(w.processes)
  {
    hide RoutingKey, Bind, FullName;
  }

  /** What is published to a bound queue without a stream makes a stream with that message alone. */
  lemma PublishedAlone<V(!new)>(w: World<V>, pid: nat, op: Operation<V>)
    requires Reached(w) && pid in w.processes && w.processes[pid].Subscriber?
    requires w.processes[pid].subscribing.Subscribed? && w.processes[pid].name == op.name
    requires w.processes[pid].queue !in w.streams
    ensures var streams' := Delivered(w.streams, BoundTo(w.table, RoutingKey(w.digest, FullName(op.name))),
                MessageOf(op));
            w.processes[pid].queue in streams' && streams'[w.processes[pid].queue] == [MessageOf(op)]
  {
    ReachedOk(w);
    SubscriberNow(w, pid);
    hide Reached, StreamOk, SubscriberOk, RoutingKey, FullName, KeyPath, GoodDigest, Delivered, MessageOf;
    PublishReaches(w, op, w.processes[pid]);
    assert [] + [MessageOf(op)] == [MessageOf(op)];
  }

  /** A write of a counted name that runs alone publishes its message. */
  lemma WritingPublishes<V(!new)>(w: World<V>, pid: nat, op: Operation<V>) returns (steps: seq<Step<V>>)
    requires Reached(w) && pid !in w.processes && NoneExclusive(w.processes)
    requires Allowed(w.store, op) && Apply(w.store, op).1.Success? && FullName(op.name) in w.counts
    ensures var w' := Execute(w, steps);
            && Reached(w') && w'.registry == w.registry
            && w'.streams == Delivered(w.streams, BoundTo(w.table, RoutingKey(w.digest, FullName(op.name))),
                   MessageOf(op))
  {
    hide Reached, RoutingKey, Execute, FullName, MessageOf, Delivered, NoneExclusive, Apply, Allowed;
    steps := WritingIsARun(w, pid, op);
    ReachedFurther(w, steps);
  }

  /**
   Two subscriptions to one name, the first given up, and then any write of the name: the stream that
   was deleted for the unsubscriber is there again, with the message, although its queue is in nobody's
   registry any more.
   */
  lemma DeletedStreamExistsAgain<V(!new)>(digest: string -> string, op: Operation<V>)
    returns (w: World<V>, steps: seq<Step<V>>)
    requires GoodDigest(digest) && ':' !in op.name.user && !op.Delete?
    ensures Reached(w) && "q1" !in w.streams && "q1" !in w.registry
    ensures 3 in w.processes && w.processes[3] == Unsubscriber(op.name.user, "q1", UnsubscriberPhase.Deleted)
    ensures var w' := Execute(w, steps);
            Reached(w') && "q1" !in w'.registry && "q1" in w'.streams && w'.streams["q1"] == [MessageOf(op)]
  {
    hide *;
    w := OneLeft(digest, op.name);
    OneLeftIsReached<V>(digest, op.name);
    OneLeftNow<V>(digest, op.name);
    NothingIsLive(w.store, op);
    PublishedAlone(w, 1, op);
    steps := WritingPublishes(w, 4, op);
  }
}
