/**
 Whether a writer asks for the count before it publishes makes no difference to any subscription,
 over whole runs: the machine is compared with one that always publishes.
 */
module SubscriptionSkipping {
  import opened KeyPaths
  import opened VersionedStore
  import opened Routing
  import opened Subscription
  import opened SubscriptionInvariant
  import opened SubscriptionStreams
  import opened SubscriptionWriters
  import opened SubscriptionSubscribers
  import opened SubscriptionQueues

  // ---------------------------------------------------------------- the machine that always publishes

  /** The writer is about to find that its name is not counted. */
  predicate Skips<V>(w: World<V>, step: Step<V>) {
    && step.Write? && step.pid in w.processes && w.processes[step.pid].Writer?
    && w.processes[step.pid].writing.Stored?
    && FullName(w.processes[step.pid].op.name) !in w.counts
  }

  function PublishAnyway<V>(w: World<V>, pid: nat): (w': World<V>)
    requires Skips(w, Write(pid))
  {
    var p := w.processes[pid];
    var queues := BoundTo(w.table, RoutingKey(w.digest, FullName(p.op.name)));
    w.(streams := Delivered(w.streams, queues, p.writing.message), processes := At(w, pid, p.(writing := Leaving)))
  }

  ghost function NextAlways<V>(w: World<V>, step: Step<V>): (w': World<V>) {
    if Skips(w, step) then PublishAnyway(w, step.pid) else Next(w, step)
  }

  ghost function ExecuteAlways<V>(w: World<V>, steps: seq<Step<V>>): (w': World<V>)
    decreases |steps|
  {
    if steps == [] then w else ExecuteAlways(NextAlways(w, steps[0]), steps[1..])
  }

  // ---------------------------------------------------------------- how the two worlds compare

  predicate IsBoundQueue(table: map<string, seq<string>>, queue: string) {
    exists key :: key in table && Times(table[key], queue) > 0
  }

  /** Always publishing only adds streams, and only such as belong to a queue that is bound somewhere. */
  ghost predicate ExtraOk<V>(table: map<string, seq<string>>, streams: Streams<V>, more: Streams<V>) {
    && (forall queue | queue in streams :: queue in more)
    && (forall queue | queue in more && queue !in streams :: IsBoundQueue(table, queue))
  }

  ghost predicate SameQueues<V>(registry: map<string, string>, processes: Processes<V>, streams: Streams<V>,
                                more: Streams<V>) {
    forall pid | pid in processes && Hears(registry, processes[pid]) ::
      Contents(more, processes[pid].queue) == Contents(streams, processes[pid].queue)
  }

  /** A world and the streams that it would have if everything had been published. */
  ghost predicate Alike<V>(w: World<V>, more: Streams<V>) {
    ExtraOk(w.table, w.streams, more) && SameQueues(w.registry, w.processes, w.streams, more)
  }

  // ---------------------------------------------------------------- streams

  lemma ExtraAfterDelivery<V>(table: map<string, seq<string>>, streams: Streams<V>, more: Streams<V>,
                              queues: seq<string>, m: Message<V>)
    requires ExtraOk(table, streams, more)
    ensures ExtraOk(table, Delivered(streams, queues, m), Delivered(more, queues, m))
  {}

  lemma ExtraAfterSkip<V>(table: map<string, seq<string>>, streams: Streams<V>, more: Streams<V>, key: string,
                          m: Message<V>)
    requires ExtraOk(table, streams, more)
    ensures ExtraOk(table, streams, Delivered(more, BoundTo(table, key), m))
  {
    hide Delivered, Times;
    var queues := BoundTo(table, key);
    forall queue ensures queue in queues ==> IsBoundQueue(table, queue) { ListedIsBound(queues, queue); }
    forall queue ensures queue in Delivered(more, queues, m) <==> queue in more || queue in queues {
      DeletedStreamComesBack(more, queues, m, queue);
    }
  }

  lemma ExtraAfterBind<V>(table: map<string, seq<string>>, streams: Streams<V>, more: Streams<V>, queue: string,
                          key: string)
    requires ExtraOk(table, streams, more)
    ensures ExtraOk(Bind(table, queue, key), streams, more)
  {
    hide Times;
    var table' := Bind(table, queue, key);
    forall q | q in more && q !in streams ensures IsBoundQueue(table', q) {
      var k :| k in table && Times(table[k], q) > 0;
      BindCounts(table, queue, key, q, k);
      assert k in table' && Times(table'[k], q) > 0;
    }
  }

  lemma SameAfterDelivery<V>(registry: map<string, string>, processes: Processes<V>, streams: Streams<V>,
                             more: Streams<V>, queues: seq<string>, m: Message<V>)
    requires SameQueues(registry, processes, streams, more)
    ensures SameQueues(registry, processes, Delivered(streams, queues, m), Delivered(more, queues, m))
  {}

  /** A process goes on that hears no more than it did. */
  lemma SameKept<V>(registry: map<string, string>, processes: Processes<V>, streams: Streams<V>, more: Streams<V>,
                    pid: nat, p: Process<V>)
    requires SameQueues(registry, processes, streams, more)
    requires Hears(registry, p) ==>
               pid in processes && Hears(registry, processes[pid]) && p.queue == processes[pid].queue
    ensures SameQueues(registry, processes[pid := p], streams, more)
  {}

  // ---------------------------------------------------------------- writers

  /** One process goes on, hears no more than it did, and nothing is sent. */
  lemma AlikeKept<V>(w: World<V>, w': World<V>, more: Streams<V>, pid: nat, p: Process<V>)
    requires Alike(w, more) && w'.processes == w.processes[pid := p]
    requires w'.table == w.table && w'.registry == w.registry && w'.streams == w.streams
    requires Hears(w.registry, p) ==>
               pid in w.processes && Hears(w.registry, w.processes[pid]) && p.queue == w.processes[pid].queue
    ensures Alike(w', more)
  {}

  /** A writer's step that publishes nothing. */
  lemma StoringAlike<V>(w: World<V>, more: Streams<V>, pid: nat)
    requires Alike(w, more) && pid in w.processes && w.processes[pid].Writer? && w.processes[pid].writing.Locked?
    ensures WriterStep(w.(streams := more), pid) == WriterStep(w, pid).(streams := more)
    ensures Alike(WriterStep(w, pid), more)
  {
    hide Alike, Hears, FullName, KeyPath, Apply, Allowed;
    var p := w.processes[pid];
    if Allowed(w.store, p.op) {
      var w' := WriterStep(w, pid);
      NoSubscriberHears(w.registry, w'.processes[pid]);
      AlikeKept(w, w', more, pid, w'.processes[pid]);
    }
  }

  lemma PhaseAlike<V>(w: World<V>, more: Streams<V>, pid: nat, phase: WriterPhase<V>)
    requires Alike(w, more) && pid in w.processes && w.processes[pid].Writer?
    ensures Alike(w.(processes := At(w, pid, w.processes[pid].(writing := phase))), more)
  {}

  lemma WaitingAlike<V>(w: World<V>, more: Streams<V>, pid: nat)
    requires Alike(w, more) && pid in w.processes && w.processes[pid].Writer?
    requires !w.processes[pid].writing.Locked? && !w.processes[pid].writing.Matched?
    ensures WriterStep(w.(streams := more), pid) == WriterStep(w, pid).(streams := more)
    ensures Alike(WriterStep(w, pid), more)
  {
    hide Alike, FullName, NoneExclusive;
    match w.processes[pid].writing
    case Starting => PhaseAlike(w, more, pid, Locked);
    case Stored(m) =>
      PhaseAlike(w, more, pid, Matched(m));
      PhaseAlike(w, more, pid, Leaving);
    case Leaving => PhaseAlike(w, more, pid, Returned);
    case Returned =>
  }

  lemma MatchedAlike<V>(w: World<V>, more: Streams<V>, pid: nat)
    requires Alike(w, more) && pid in w.processes && w.processes[pid].Writer? && w.processes[pid].writing.Matched?
    ensures var p := w.processes[pid];
            var queues := BoundTo(w.table, RoutingKey(w.digest, FullName(p.op.name)));
            var more' := Delivered(more, queues, p.writing.message);
            && WriterStep(w.(streams := more), pid) == WriterStep(w, pid).(streams := more')
            && Alike(WriterStep(w, pid), more')
  {
    hide ExtraOk, SameQueues, FullName, Delivered, BoundTo, RoutingKey;
    var p := w.processes[pid];
    var queues := BoundTo(w.table, RoutingKey(w.digest, FullName(p.op.name)));
    var m := p.writing.message;
    ExtraAfterDelivery(w.table, w.streams, more, queues, m);
    SameAfterDelivery(w.registry, w.processes, w.streams, more, queues, m);
    SameKept(w.registry, w.processes, Delivered(w.streams, queues, m), Delivered(more, queues, m), pid,
        p.(writing := Leaving));
  }

  /**
   In one world, with any streams: publishing although the name is not counted adds nothing to the queue
   of any subscriber that is registered, whatever its phase, or has not come to register yet.
   */
  lemma SkippingIsInvisible<V>(w: World<V>, more: Streams<V>, op: Operation<V>, pid: nat)
    requires Inv(w) && ':' !in op.name.user && FullName(op.name) !in w.counts
    requires pid in w.processes && Hears(w.registry, w.processes[pid])
    ensures Contents(Delivered(more, BoundTo(w.table, RoutingKey(w.digest, FullName(op.name))), MessageOf(op)),
                     w.processes[pid].queue)
         == Contents(more, w.processes[pid].queue)
  {
    SubscriberNow(w, pid);
    var p := w.processes[pid];
    hide KeyPath, FullName, RoutingKey, MessageOf, StreamsOk, Consistent, WritersOk, LockOk, QueuesOk, Delivered;
    if p.queue in w.registry { RegisteredIsCounted(w.counts, w.registry, w.processes, p.queue); }
    PublishReaches(w.(streams := more), op, p);
    assert Contents(more, p.queue) + [] == Contents(more, p.queue);
  }

  lemma SkippedAlike<V>(w: World<V>, more: Streams<V>, pid: nat)
    requires Inv(w) && Alike(w, more) && Skips(w, Write(pid))
    ensures var more' := PublishAnyway(w.(streams := more), pid).streams;
            && PublishAnyway(w.(streams := more), pid) == WriterStep(w, pid).(streams := more')
            && Alike(WriterStep(w, pid), more')
  {
    assert WriterOk(w.store.versions, w.processes[pid]);
    hide ExtraOk, FullName, Delivered, BoundTo, RoutingKey, Inv, Hears, Contents, MessageOf;
    var p := w.processes[pid];
    var key := RoutingKey(w.digest, FullName(p.op.name));
    var more' := Delivered(more, BoundTo(w.table, key), MessageOf(p.op));
    ExtraAfterSkip(w.table, w.streams, more, key, MessageOf(p.op));
    forall q | q in w.processes && Hears(w.registry, w.processes[q])
      ensures Contents(more', w.processes[q].queue) == Contents(more, w.processes[q].queue)
    {
      SkippingIsInvisible(w, more, p.op, q);
    }
    assert SameQueues(w.registry, w.processes, w.streams, more');
    NoSubscriberHears(w.registry, p.(writing := Leaving));
    SameKept(w.registry, w.processes, w.streams, more', pid, p.(writing := Leaving));
  }

  // ---------------------------------------------------------------- subscribers

  lemma SubscriberPhaseAlike<V>(w: World<V>, more: Streams<V>, pid: nat, phase: SubscriberPhase<V>)
    requires Alike(w, more) && pid in w.processes && w.processes[pid].Subscriber?
    requires HasRegistered(w.processes[pid].subscribing) ==> HasRegistered(phase)
    ensures Alike(w.(processes := At(w, pid, w.processes[pid].(subscribing := phase))), more)
  {}

  /** A queue that is registered now was heard before it was. */
  lemma RegisteringAlike<V>(w: World<V>, more: Streams<V>, pid: nat)
    requires Alike(w, more) && pid in w.processes && w.processes[pid].Subscriber?
             && w.processes[pid].subscribing.CountedUp?
    ensures SubscriberStep(w.(streams := more), pid) == SubscriberStep(w, pid).(streams := more)
    ensures Alike(SubscriberStep(w, pid), more)
  {}

  lemma BindingAlike<V>(w: World<V>, more: Streams<V>, pid: nat)
    requires Alike(w, more) && pid in w.processes && w.processes[pid].Subscriber?
             && w.processes[pid].subscribing.Registered?
    ensures SubscriberStep(w.(streams := more), pid) == SubscriberStep(w, pid).(streams := more)
    ensures Alike(SubscriberStep(w, pid), more)
  {
    hide ExtraOk, SameQueues, FullName, Bind, RoutingKey;
    var p := w.processes[pid];
    ExtraAfterBind(w.table, w.streams, more, p.queue, RoutingKey(w.digest, FullName(p.name)));
    SameKept(w.registry, w.processes, w.streams, more, pid, p.(subscribing := Bound));
  }

  lemma SendingAlike<V>(w: World<V>, more: Streams<V>, pid: nat)
    requires Alike(w, more) && pid in w.processes && w.processes[pid].Subscriber?
    requires w.processes[pid].subscribing.Sending? && w.processes[pid].subscribing.rest != []
    ensures var p := w.processes[pid];
            var more' := Delivered(more, BoundTo(w.table, p.queue), p.subscribing.rest[0]);
            && SubscriberStep(w.(streams := more), pid) == SubscriberStep(w, pid).(streams := more')
            && Alike(SubscriberStep(w, pid), more')
  {
    hide ExtraOk, SameQueues, Delivered, BoundTo;
    var p := w.processes[pid];
    var queues, m := BoundTo(w.table, p.queue), p.subscribing.rest[0];
    ExtraAfterDelivery(w.table, w.streams, more, queues, m);
    SameAfterDelivery(w.registry, w.processes, w.streams, more, queues, m);
    SameKept(w.registry, w.processes, Delivered(w.streams, queues, m), Delivered(more, queues, m), pid,
        p.(subscribing := Sending(p.subscribing.rest[1..])));
  }

  lemma CountingAlike<V>(w: World<V>, more: Streams<V>, pid: nat)
    requires Alike(w, more) && pid in w.processes && w.processes[pid].Subscriber?
             && w.processes[pid].subscribing.Exclusive?
    ensures SubscriberStep(w.(streams := more), pid) == SubscriberStep(w, pid).(streams := more)
    ensures Alike(SubscriberStep(w, pid), more)
  {}

  lemma SubscriberAlike<V>(w: World<V>, more: Streams<V>, pid: nat)
    requires Alike(w, more) && pid in w.processes && w.processes[pid].Subscriber?
    ensures var more' := SubscriberStep(w.(streams := more), pid).streams;
            && SubscriberStep(w.(streams := more), pid) == SubscriberStep(w, pid).(streams := more')
            && Alike(SubscriberStep(w, pid), more')
  {
    hide Alike, NoneInside, FullName, CountUp, Bind, RoutingKey, Delivered, BoundTo;
    var p := w.processes[pid];
    match p.subscribing
    case QueueReady => SubscriberPhaseAlike(w, more, pid, Exclusive);
    case Exclusive => CountingAlike(w, more, pid);
    case CountedUp => RegisteringAlike(w, more, pid);
    case Registered => BindingAlike(w, more, pid);
    case Sending(rest) =>
      if rest == [] { SubscriberPhaseAlike(w, more, pid, Subscribed); } else { SendingAlike(w, more, pid); }
    case _ =>
  }

  lemma ListAlike<V>(w: World<V>, more: Streams<V>, pid: nat, paths: seq<string>)
    requires Alike(w, more) && pid in w.processes && w.processes[pid].Subscriber? && w.processes[pid].subscribing.Bound?
    ensures ListStep(w.(streams := more), pid, paths) == ListStep(w, pid, paths).(streams := more)
    ensures Alike(ListStep(w, pid, paths), more)
  {
    hide Alike, IsListing;
    SubscriberPhaseAlike(w, more, pid, Listed(paths));
  }

  lemma ReadAlike<V>(w: World<V>, more: Streams<V>, pid: nat, messages: seq<Message<V>>)
    requires Alike(w, more) && pid in w.processes && w.processes[pid].Subscriber?
             && w.processes[pid].subscribing.Listed?
    ensures ReadStep(w.(streams := more), pid, messages) == ReadStep(w, pid, messages).(streams := more)
    ensures Alike(ReadStep(w, pid, messages), more)
  {
    hide Alike, Readable, IsSnapshot;
    SubscriberPhaseAlike(w, more, pid, Failed);
    SubscriberPhaseAlike(w, more, pid, Sending(messages));
  }

  /** A stream that only the other world has does not make a queue's name less fresh: it is bound already. */
  lemma FreshAlike<V>(w: World<V>, more: Streams<V>, queue: string)
    requires ExtraOk(w.table, w.streams, more)
    ensures IsFreshQueue(w.(streams := more), queue) <==> IsFreshQueue(w, queue)
    ensures IsFreshQueue(w, queue) ==> queue !in more
  {
    hide RoutingKey, FullName, Times;
    if queue in more && queue !in w.streams {
      var key :| key in w.table && Times(w.table[key], queue) > 0;
      assert Times(BoundTo(w.table, key), queue) != 0;
    }
  }

  lemma StartingAlike<V>(w: World<V>, more: Streams<V>, pid: nat, name: Name, start: int, queue: string)
    requires Alike(w, more) && pid !in w.processes && IsFreshQueue(w, queue)
    ensures var w' := w.(streams := w.streams[queue := []], table := Bind(w.table, queue, queue),
                processes := At(w, pid, Subscriber(name, start, queue, QueueReady)));
            Alike(w', more[queue := []])
  {
    hide Bind, IsBoundQueue, Times, RoutingKey, FullName;
    var p: Process<V> := Subscriber(name, start, queue, QueueReady);
    var streams', more' := w.streams[queue := []], more[queue := []];
    FreshAlike(w, more, queue);
    ExtraAfterBind(w.table, w.streams, more, queue, queue);
    assert ExtraOk(Bind(w.table, queue, queue), streams', more');
  }

  // ---------------------------------------------------------------- unsubscribers

  lemma UnregisterAlike<V>(w: World<V>, more: Streams<V>, pid: nat, user: string, queue: string)
    requires Alike(w, more) && pid !in w.processes && queue in w.registry
    ensures UnregisterStep(w.(streams := more), pid, user, queue)
         == UnregisterStep(w, pid, user, queue).(streams := more)
    ensures Alike(UnregisterStep(w, pid, user, queue), more)
  {}

  lemma DeletingAlike<V>(w: World<V>, more: Streams<V>, pid: nat)
    requires Alike(w, more) && pid in w.processes && w.processes[pid].Unsubscriber?
             && w.processes[pid].unsubscribing.Uncounted?
    ensures var more' := more - {w.processes[pid].leaving};
            && UnsubscriberStep(w.(streams := more), pid) == UnsubscriberStep(w, pid).(streams := more')
            && Alike(UnsubscriberStep(w, pid), more')
  {
    hide IsBoundQueue, Hears;
    var p := w.processes[pid];
    var p' := p.(unsubscribing := UnsubscriberPhase.Deleted);
    NoSubscriberHears(w.registry, p');
    SameKept(w.registry, w.processes, w.streams - {p.leaving}, more - {p.leaving}, pid, p');
  }

  lemma UnsubscriberAlike<V>(w: World<V>, more: Streams<V>, pid: nat)
    requires Alike(w, more) && pid in w.processes && w.processes[pid].Unsubscriber?
    ensures var more' := UnsubscriberStep(w.(streams := more), pid).streams;
            && UnsubscriberStep(w.(streams := more), pid) == UnsubscriberStep(w, pid).(streams := more')
            && Alike(UnsubscriberStep(w, pid), more')
  {
    hide Alike, Hears, CountDown;
    match w.processes[pid].unsubscribing
    case Unregistered(full) =>
      if full in w.counts {
        var w' := UnsubscriberStep(w, pid);
        NoSubscriberHears(w.registry, w'.processes[pid]);
        AlikeKept(w, w', more, pid, w'.processes[pid]);
      }
    case Uncounted => DeletingAlike(w, more, pid);
    case _ =>
  }

  // ---------------------------------------------------------------- every step, and every run

  lemma WriteAlike<V>(w: World<V>, more: Streams<V>, pid: nat)
    requires Inv(w) && Alike(w, more) && pid in w.processes && w.processes[pid].Writer?
    ensures var more' := NextAlways(w.(streams := more), Write(pid)).streams;
            && NextAlways(w.(streams := more), Write(pid)) == Next(w, Write(pid)).(streams := more')
            && Alike(Next(w, Write(pid)), more')
  {
    hide Inv, Alike, WriterStep, FullName, PublishAnyway;
    if Skips(w, Write(pid)) {
      SkippedAlike(w, more, pid);
    } else if w.processes[pid].writing.Matched? {
      MatchedAlike(w, more, pid);
    } else if w.processes[pid].writing.Locked? {
      StoringAlike(w, more, pid);
    } else {
      WaitingAlike(w, more, pid);
    }
  }

  lemma NextAlike<V>(w: World<V>, more: Streams<V>, step: Step<V>) returns (more': Streams<V>)
    requires Inv(w) && Alike(w, more)
    ensures NextAlways(w.(streams := more), step) == Next(w, step).(streams := more')
    ensures Alike(Next(w, step), more')
  {
    hide Inv, Alike, IsFreshQueue, WriterStep, SubscriberStep, ListStep, ReadStep, UnregisterStep, UnsubscriberStep,
        Apply, Allowed, PublishAnyway, Bind, FullName;
    more' := NextAlways(w.(streams := more), step).streams;
    match step
    case Write(pid) => if pid in w.processes && w.processes[pid].Writer? { WriteAlike(w, more, pid); }
    case Subscribe(pid) => if pid in w.processes && w.processes[pid].Subscriber? { SubscriberAlike(w, more, pid); }
    case Unsubscribe(pid) =>
      if pid in w.processes && w.processes[pid].Unsubscriber? { UnsubscriberAlike(w, more, pid); }
    case Unregister(pid, user, queue) =>
      if pid !in w.processes && queue in w.registry { UnregisterAlike(w, more, pid, user, queue); }
    case _ => OtherAlike(w, more, step);
  }

  lemma OtherAlike<V>(w: World<V>, more: Streams<V>, step: Step<V>)
    requires Alike(w, more)
    requires !step.Write? && !step.Subscribe? && !step.Unsubscribe? && !step.Unregister?
    ensures var more' := Next(w.(streams := more), step).streams;
            && Next(w.(streams := more), step) == Next(w, step).(streams := more')
            && Alike(Next(w, step), more')
  {
    assert ExtraOk(w.table, w.streams, more);
    hide Alike, ExtraOk, IsFreshQueue, ListStep, ReadStep, Apply, Allowed, Bind;
    match step
    case StartWriter(pid, op) =>
      if pid !in w.processes && ':' !in op.name.user {
        AlikeKept(w, Next(w, step), more, pid, Writer(op, Starting));
      }
    case StartSubscriber(pid, name, start, queue) =>
      FreshAlike(w, more, queue);
      if pid !in w.processes && ':' !in name.user && IsFreshQueue(w, queue) {
        StartingAlike(w, more, pid, name, start, queue);
      }
    case List(pid, paths) =>
      if pid in w.processes && w.processes[pid].Subscriber? && w.processes[pid].subscribing.Bound? {
        ListAlike(w, more, pid, paths);
      }
    case Read(pid, messages) =>
      if pid in w.processes && w.processes[pid].Subscriber? && w.processes[pid].subscribing.Listed? {
        ReadAlike(w, more, pid, messages);
      }
    case _ => StoreAlike(w, Next(w, step), more);
  }

  lemma StoreAlike<V>(w: World<V>, w': World<V>, more: Streams<V>)
    requires Alike(w, more) && w' == w.(store := w'.store)
    ensures Alike(w', more)
  {}

  lemma {:induction false} ExecuteAlike<V>(w: World<V>, more: Streams<V>, steps: seq<Step<V>>)
    returns (more': Streams<V>)
    requires Inv(w) && Alike(w, more)
    ensures ExecuteAlways(w.(streams := more), steps) == Execute(w, steps).(streams := more')
    ensures Alike(Execute(w, steps), more')
    decreases |steps|
  {
    hide Inv, Alike, Next, NextAlways;
    if steps == [] {
      more' := more;
    } else {
      NextOk(w, steps[0]);
      more' := NextAlike(w, more, steps[0]);
      more' := ExecuteAlike(Next(w, steps[0]), more', steps[1..]);
    }
  }

  // ---------------------------------------------------------------- skipping is invisible

  /**
   Whatever the run, always publishing would change no part of the world but streams, and no stream of
   a queue that is registered: every such queue has the same stream either way.
   */
  lemma SkippingIsInvisibleInRuns<V(!new)>(digest: string -> string, steps: seq<Step<V>>)
    requires GoodDigest(digest)
    ensures var w, a := Execute(Init(digest), steps), ExecuteAlways(Init(digest), steps);
            && a == w.(streams := a.streams)
            && forall queue | queue in w.registry ::
                 queue in w.streams && queue in a.streams && a.streams[queue] == w.streams[queue]
  {
    InitOk<V>(digest);
    var w0: World<V> := Init(digest);
    assert Alike(w0, w0.streams) && w0 == w0.(streams := w0.streams);
    hide Inv, Execute, ExecuteAlways, Init, GoodDigest;
    var more := ExecuteAlike(w0, w0.streams, steps);
    ExecuteExist(w0, steps);
    var w := Execute(w0, steps);
    forall queue | queue in w.registry
      ensures queue in w.streams && queue in more && more[queue] == w.streams[queue]
    {
      assert HasSubscriber(w.processes, queue);
      var pid :| pid in w.processes && w.processes[pid].Subscriber? && w.processes[pid].queue == queue;
      assert Hears(w.registry, w.processes[pid]);
    }
  }
}
