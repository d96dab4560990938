/** Every registered queue belongs to a subscriber and has a stream, in every run. */
module SubscriptionQueues {
  import opened KeyPaths
  import opened VersionedStore
  import opened Routing
  import opened Subscription
  import opened SubscriptionInvariant
  import opened SubscriptionWriters
  import opened SubscriptionSubscribers

  /** The subscriptions that have not been given up: not registered yet, or registered still. */
  predicate Hears<V>(registry: map<string, string>, p: Process<V>) {
    p.Subscriber? && (!HasRegistered(p.subscribing) || p.queue in registry)
  }

  lemma NoSubscriberHears<V>(registry: map<string, string>, p: Process<V>)
    requires !p.Subscriber?
    ensures !Hears(registry, p)
  {}

  predicate HasSubscriber<V>(processes: Processes<V>, queue: string) {
    exists pid :: pid in processes && processes[pid].Subscriber? && processes[pid].queue == queue
  }

  /** Every registered queue is some subscriber's, and whoever hears has a stream. */
  ghost predicate QueuesExist<V>(registry: map<string, string>, streams: Streams<V>, processes: Processes<V>) {
    && (forall queue | queue in registry :: HasSubscriber(processes, queue))
    && (forall pid | pid in processes && Hears(registry, processes[pid]) :: processes[pid].queue in streams)
  }

  ghost predicate AllKept<V>(streams: Streams<V>, streams': Streams<V>) {
    forall queue | queue in streams :: queue in streams'
  }

  /** One process goes on, and no stream is lost. */
  lemma ExistKept<V>(w: World<V>, w': World<V>, pid: nat, p: Process<V>)
    requires QueuesExist(w.registry, w.streams, w.processes) && AllKept(w.streams, w'.streams)
    requires w'.processes == w.processes[pid := p]
    requires forall queue | queue in w'.registry :: queue in w.registry || (p.Subscriber? && p.queue == queue)
    requires pid in w.processes && w.processes[pid].Subscriber? ==> p.Subscriber? && p.queue == w.processes[pid].queue
    requires Hears(w'.registry, p) ==>
               p.queue in w'.streams || (pid in w.processes && Hears(w.registry, w.processes[pid]))
    ensures QueuesExist(w'.registry, w'.streams, w'.processes)
  {
    forall queue | queue in w'.registry ensures HasSubscriber(w'.processes, queue) {
      if p.Subscriber? && p.queue == queue {
        assert w'.processes[pid].queue == queue;
      } else {
        assert HasSubscriber(w.processes, queue);
        var q :| q in w.processes && w.processes[q].Subscriber? && w.processes[q].queue == queue;
        assert w'.processes[q].Subscriber? && w'.processes[q].queue == queue;
      }
    }
  }

  lemma DeliveredAllKept<V>(streams: Streams<V>, queues: seq<string>, m: Message<V>)
    ensures AllKept(streams, Delivered(streams, queues, m))
  {}

  lemma WriterExist<V>(w: World<V>, pid: nat)
    requires QueuesExist(w.registry, w.streams, w.processes) && pid in w.processes && w.processes[pid].Writer?
    ensures var w' := WriterStep(w, pid); QueuesExist(w'.registry, w'.streams, w'.processes)
  {
    hide QueuesExist, Hears, FullName, KeyPath, Apply, Allowed, NoneExclusive, Delivered, BoundTo, RoutingKey;
    var p := w.processes[pid];
    var w' := WriterStep(w, pid);
    if p.writing.Matched? {
      DeliveredAllKept(w.streams, BoundTo(w.table, RoutingKey(w.digest, FullName(p.op.name))), p.writing.message);
    }
    if w' != w {
      NoSubscriberHears(w.registry, w'.processes[pid]);
      ExistKept(w, w', pid, w'.processes[pid]);
    }
  }

  lemma PhaseExist<V>(w: World<V>, pid: nat, phase: SubscriberPhase<V>)
    requires QueuesExist(w.registry, w.streams, w.processes) && pid in w.processes && w.processes[pid].Subscriber?
    requires HasRegistered(w.processes[pid].subscribing) ==> HasRegistered(phase)
    ensures QueuesExist(w.registry, w.streams, At(w, pid, w.processes[pid].(subscribing := phase)))
  {
    hide QueuesExist;
    var p' := w.processes[pid].(subscribing := phase);
    ExistKept(w, w.(processes := At(w, pid, p')), pid, p');
  }

  lemma SubscriberExist<V>(w: World<V>, pid: nat)
    requires QueuesExist(w.registry, w.streams, w.processes) && pid in w.processes && w.processes[pid].Subscriber?
    ensures var w' := SubscriberStep(w, pid); QueuesExist(w'.registry, w'.streams, w'.processes)
  {
    hide QueuesExist, FullName, NoneInside, CountUp, Bind, Delivered, BoundTo, RoutingKey;
    var p := w.processes[pid];
    var w' := SubscriberStep(w, pid);
    match p.subscribing
    case QueueReady => PhaseExist(w, pid, Exclusive);
    case Exclusive => PhaseExist(w, pid, CountedUp);
    case CountedUp => ExistKept(w, w', pid, p.(subscribing := Registered));
    case Registered => PhaseExist(w, pid, Bound);
    case Sending(rest) =>
      if rest == [] {
        PhaseExist(w, pid, Subscribed);
      } else {
        DeliveredAllKept(w.streams, BoundTo(w.table, p.queue), rest[0]);
        ExistKept(w, w', pid, p.(subscribing := Sending(rest[1..])));
      }
    case _ =>
  }

  /** Only the stream of a queue that is registered no more is deleted. */
  lemma DeletingExist<V>(w: World<V>, pid: nat)
    requires QueuesOk(w.digest, w.table, w.registry, w.processes)
    requires QueuesExist(w.registry, w.streams, w.processes)
    requires pid in w.processes && w.processes[pid].Unsubscriber?
    ensures QueuesExist(w.registry, w.streams - {w.processes[pid].leaving}, w.processes)
  {}

  lemma UnsubscriberExist<V>(w: World<V>, pid: nat)
    requires QueuesOk(w.digest, w.table, w.registry, w.processes)
    requires QueuesExist(w.registry, w.streams, w.processes)
    requires pid in w.processes && w.processes[pid].Unsubscriber?
    ensures var w' := UnsubscriberStep(w, pid); QueuesExist(w'.registry, w'.streams, w'.processes)
  {
    hide QueuesOk, QueuesExist, Hears, CountDown;
    var p := w.processes[pid];
    match p.unsubscribing
    case Unregistered(full) =>
      NoSubscriberHears(w.registry, p.(unsubscribing := Uncounted));
      ExistKept(w, w.(processes := At(w, pid, p.(unsubscribing := Uncounted))), pid, p.(unsubscribing := Uncounted));
    case Uncounted =>
      var p' := p.(unsubscribing := UnsubscriberPhase.Deleted);
      var w1 := w.(streams := w.streams - {p.leaving});
      DeletingExist(w, pid);
      NoSubscriberHears(w.registry, p');
      ExistKept(w1, w1.(processes := At(w, pid, p')), pid, p');
    case _ =>
  }

  lemma ReadingExist<V>(w: World<V>, step: Step<V>)
    requires QueuesExist(w.registry, w.streams, w.processes)
    requires step.List? || step.Read?
    ensures var w' := Next(w, step); QueuesExist(w'.registry, w'.streams, w'.processes)
  {
    hide QueuesExist, IsListing, IsSnapshot, Readable;
    match step
    case List(pid, paths) =>
      if pid in w.processes && w.processes[pid].Subscriber? && w.processes[pid].subscribing.Bound? {
        PhaseExist(w, pid, Listed(paths));
      }
    case Read(pid, messages) =>
      if pid in w.processes && w.processes[pid].Subscriber? && w.processes[pid].subscribing.Listed? {
        PhaseExist(w, pid, Failed);
        PhaseExist(w, pid, Sending(messages));
      }
  }

  /** A step with a new process: a queue is created with its stream, or one leaves the registry. */
  lemma StartingExist<V>(w: World<V>, step: Step<V>)
    requires QueuesExist(w.registry, w.streams, w.processes)
    requires step.StartWriter? || step.StartSubscriber? || step.Unregister?
    ensures var w' := Next(w, step); QueuesExist(w'.registry, w'.streams, w'.processes)
  {
    hide QueuesExist, IsFreshQueue, UserOfName, Bind;
    var w' := Next(w, step);
    if w' != w { ExistKept(w, w', step.pid, w'.processes[step.pid]); }
  }

  lemma NextExist<V>(w: World<V>, step: Step<V>)
    requires Inv(w) && QueuesExist(w.registry, w.streams, w.processes)
    ensures var w' := Next(w, step); QueuesExist(w'.registry, w'.streams, w'.processes)
  {
    assert QueuesOk(w.digest, w.table, w.registry, w.processes);
    hide Inv, QueuesExist, QueuesOk, IsFreshQueue, WriterStep, SubscriberStep, UnsubscriberStep, ListStep, ReadStep,
        UnregisterStep, Apply, Allowed, Bind;
    match step
    case Write(pid) => if pid in w.processes && w.processes[pid].Writer? { WriterExist(w, pid); }
    case Subscribe(pid) => if pid in w.processes && w.processes[pid].Subscriber? { SubscriberExist(w, pid); }
    case Unsubscribe(pid) =>
      if pid in w.processes && w.processes[pid].Unsubscriber? { UnsubscriberExist(w, pid); }
    case CreateMqUri(_, _, _) =>
    case List(_, _) => ReadingExist(w, step);
    case Read(_, _) => ReadingExist(w, step);
    case _ => StartingExist(w, step);
  }

  lemma {:induction false} ExecuteExist<V>(w: World<V>, steps: seq<Step<V>>)
    requires Inv(w) && QueuesExist(w.registry, w.streams, w.processes)
    ensures var w' := Execute(w, steps); QueuesExist(w'.registry, w'.streams, w'.processes)
    decreases |steps|
  {
    hide Inv, QueuesExist, Next;
    if steps != [] {
      NextOk(w, steps[0]);
      NextExist(w, steps[0]);
      ExecuteExist(Next(w, steps[0]), steps[1..]);
    }
  }
}
