/** A call with nothing beside it, as the object makes it, is a run of the machine's steps. */
module SubscriptionRuns {
  import opened KeyPaths
  import opened VersionedStore
  import opened Routing
  import opened Subscription
  import opened SubscriptionInvariant
  import opened SubscriptionService

  lemma {:induction false} ExecuteThen<V>(w: World<V>, steps: seq<Step<V>>, step: Step<V>)
    ensures Execute(w, steps + [step]) == Next(Execute(w, steps), step)
    decreases |steps|
  {
    hide Next;
    if steps == [] {
      assert steps + [step] == [step];
    } else {
      assert (steps + [step])[1..] == steps[1..] + [step];
      ExecuteThen(Next(w, steps[0]), steps[1..], step);
    }
  }

  lemma RunOn<V>(w: World<V>, steps: seq<Step<V>>, now: World<V>, step: Step<V>)
    returns (steps': seq<Step<V>>, now': World<V>)
    requires Execute(w, steps) == now
    ensures now' == Next(now, step) && Execute(w, steps') == now' && steps' == steps + [step]
  {
    ExecuteThen(w, steps, step);
    steps', now' := steps + [step], Next(now, step);
  }

  function WithWriter<V>(w: World<V>, pid: nat, op: Operation<V>, phase: WriterPhase<V>): World<V> {
    w.(processes := w.processes[pid := Writer(op, phase)])
  }

  function AfterPhase<V>(w: World<V>, pid: nat, op: Operation<V>, phase: WriterPhase<V>): (w': World<V>) {
    match phase
    case Starting => WithWriter(w, pid, op, Locked)
    case Locked =>
      var (store, r) := Apply(w.store, op);
      WithWriter(w.(store := store), pid, op, if r.Success? then Stored(MessageOf(op)) else Leaving)
    case Stored(m) => WithWriter(w, pid, op, if FullName(op.name) in w.counts then Matched(m) else Leaving)
    case Matched(m) =>
      WithWriter(w.(streams := Delivered(w.streams, BoundTo(w.table, RoutingKey(w.digest, FullName(op.name))), m)), pid,
          op, Leaving)
    case Leaving => WithWriter(w, pid, op, Returned)
    case Returned => WithWriter(w, pid, op, Returned)
  }

  lemma Rewritten<V>(w: World<V>, pid: nat, op: Operation<V>, phase: WriterPhase<V>, next: WriterPhase<V>)
    ensures WithWriter(w, pid, op, phase).processes[pid := Writer(op, next)] == w.processes[pid := Writer(op, next)]
  {}

  lemma WriterGoesOn<V>(w: World<V>, pid: nat, op: Operation<V>, phase: WriterPhase<V>)
    requires NoneExclusive(w.processes) && (phase.Locked? ==> Allowed(w.store, op))
    ensures Next(WithWriter(w, pid, op, phase), Write(pid)) == AfterPhase(w, pid, op, phase)
  {
    hide FullName, KeyPath, RoutingKey, Delivered, Apply, Allowed, MessageOf, BoundTo;
    var w1 := WithWriter(w, pid, op, phase);
    match phase
    case Starting =>
      assert NoneExclusive(w1.processes);
      Rewritten(w, pid, op, phase, Locked);
    case Locked =>
      if Apply(w.store, op).1.Success? {
        PathOfResult(w.store, op);
        Rewritten(w, pid, op, phase, Stored(MessageOf(op)));
      } else {
        Rewritten(w, pid, op, phase, Leaving);
      }
    case Stored(m) => Rewritten(w, pid, op, phase, if FullName(op.name) in w.counts then Matched(m) else Leaving);
    case Matched(m) => Rewritten(w, pid, op, phase, Leaving);
    case Leaving => Rewritten(w, pid, op, phase, Returned);
    case Returned =>
  }

  /** From storing on, the run publishes if the name is counted, and is about to leave. */
  lemma PublishingIsARun<V>(w: World<V>, steps: seq<Step<V>>, w2: World<V>, pid: nat, op: Operation<V>)
    returns (steps': seq<Step<V>>)
    requires NoneExclusive(w2.processes) && Execute(w, steps) == WithWriter(w2, pid, op, Stored(MessageOf(op)))
    ensures Execute(w, steps') ==
              WithWriter(w2.(streams := Published(w2.digest, w2.counts, w2.table, w2.streams, op.name, MessageOf(op))),
                  pid, op, Leaving)
  {
    hide Execute, Next, FullName, KeyPath, RoutingKey, Delivered, NoneExclusive, WithWriter, MessageOf;
    var now;
    WriterGoesOn(w2, pid, op, Stored(MessageOf(op)));
    steps', now := RunOn(w, steps, Execute(w, steps), Write(pid));
    if FullName(op.name) in w2.counts {
      WriterGoesOn(w2, pid, op, Matched(MessageOf(op)));
      steps', now := RunOn(w, steps', now, Write(pid));
    }
  }

  /** A storage call with nothing beside it is a run of the writer's steps. */
  lemma WritingIsARun<V>(w: World<V>, pid: nat, op: Operation<V>) returns (steps: seq<Step<V>>)
    requires pid !in w.processes && NoneExclusive(w.processes) && Allowed(w.store, op)
    ensures var (store, r) := Apply(w.store, op);
            Execute(w, steps) ==
              WithWriter(w.(store := store, streams := AfterChange(w.digest, w.counts, w.table, w.streams, op, r)), pid,
                  op, Returned)
  {
    assert Execute(w, []) == w;
    assert Next(w, StartWriter(pid, op)) == WithWriter(w, pid, op, Starting);
    hide Execute, Next, FullName, KeyPath, RoutingKey, Published, Apply, Allowed, NoneExclusive, WithWriter, MessageOf;
    var now;
    steps, now := RunOn(w, [], w, StartWriter(pid, op));
    WriterGoesOn(w, pid, op, Starting);
    steps, now := RunOn(w, steps, now, Write(pid));
    WriterGoesOn(w, pid, op, Locked);
    steps, now := RunOn(w, steps, now, Write(pid));
    var (store, r) := Apply(w.store, op);
    var w2 := w.(store := store);
    if r.Success? {
      steps := PublishingIsARun(w, steps, w2, pid, op);
      w2 := w2.(streams := Published(w.digest, w.counts, w.table, w.streams, op.name, MessageOf(op)));
    }
    WriterGoesOn(w2, pid, op, Leaving);
    steps, now := RunOn(w, steps, Execute(w, steps), Write(pid));
  }

  lemma PathOfResult<V>(s: Store<V>, op: Operation<V>)
    requires Apply(s, op).1.Success?
    ensures Message(ChangeType(op), Apply(s, op).1.value, PayloadOf(op)) == MessageOf(op)
  {}

  function WithSubscriber<V>(w: World<V>, pid: nat, p: Process<V>, phase: SubscriberPhase<V>): World<V>
    requires p.Subscriber?
  {
    w.(processes := w.processes[pid := p.(subscribing := phase)])
  }

  function AfterSubscriber<V>(w: World<V>, pid: nat, p: Process<V>, phase: SubscriberPhase<V>): (w': World<V>)
    requires p.Subscriber?
  {
    match phase
    case QueueReady => WithSubscriber(w, pid, p, Exclusive)
    case Exclusive => WithSubscriber(w.(counts := CountUp(w.counts, FullName(p.name))), pid, p, CountedUp)
    case CountedUp => WithSubscriber(w.(registry := w.registry[p.queue := FullName(p.name)]), pid, p, Registered)
    case Registered => WithSubscriber(w.(table := Bind(w.table, p.queue, RoutingKey(w.digest, FullName(p.name)))), pid,
        p, Bound)
    case Sending(rest) =>
      if rest == [] then WithSubscriber(w, pid, p, Subscribed)
      else WithSubscriber(w.(streams := Delivered(w.streams, BoundTo(w.table, p.queue), rest[0])), pid, p,
          Sending(rest[1..]))
    case _ => WithSubscriber(w, pid, p, phase)
  }

  lemma SubscriberRewritten<V>(w: World<V>, pid: nat, p: Process<V>, phase: SubscriberPhase<V>,
                               next: SubscriberPhase<V>)
    requires p.Subscriber?
    ensures WithSubscriber(w, pid, p, phase).processes[pid := p.(subscribing := next)]
            == w.processes[pid := p.(subscribing := next)]
  {}

  lemma SubscriberGoesOn<V>(w: World<V>, pid: nat, p: Process<V>, phase: SubscriberPhase<V>)
    requires p.Subscriber? && NoneInside(w.processes)
    ensures Next(WithSubscriber(w, pid, p, phase), Subscribe(pid)) == AfterSubscriber(w, pid, p, phase)
  {
    hide FullName, RoutingKey, Delivered, CountUp, Bind, BoundTo;
    var w1 := WithSubscriber(w, pid, p, phase);
    match phase
    case QueueReady =>
      assert NoneInside(w1.processes);
      SubscriberRewritten(w, pid, p, phase, Exclusive);
    case Exclusive => SubscriberRewritten(w, pid, p, phase, CountedUp);
    case CountedUp => SubscriberRewritten(w, pid, p, phase, Registered);
    case Registered => SubscriberRewritten(w, pid, p, phase, Bound);
    case Sending(rest) => SubscriberRewritten(w, pid, p, phase, if rest == [] then Subscribed else Sending(rest[1..]));
    case _ =>
  }

  /** The snapshot goes out one message at a time. */
  lemma SendingIsARun<V>(w: World<V>, steps: seq<Step<V>>, w2: World<V>, pid: nat, p: Process<V>,
                         messages: seq<Message<V>>)
    returns (steps': seq<Step<V>>)
    requires p.Subscriber? && NoneInside(w2.processes)
             && Execute(w, steps) == WithSubscriber(w2, pid, p, Sending(messages))
    ensures Execute(w, steps') ==
              WithSubscriber(w2.(streams := SentAll(w2.streams, BoundTo(w2.table, p.queue), messages)), pid, p,
                  Subscribed)
  {
    hide Execute, Next, FullName, RoutingKey, Delivered, CountUp, Bind, BoundTo, NoneInside, WithSubscriber, SentAll;
    steps' := steps;
    var n, now, queues := 0, Execute(w, steps), BoundTo(w2.table, p.queue);
    assert messages[..0] == [] && messages[0..] == messages;
    NothingSentYet(w2.streams, queues);
    while n < |messages|
      invariant 0 <= n <= |messages| && Execute(w, steps') == now
      invariant now
                == WithSubscriber(w2.(streams := SentAll(w2.streams, queues, messages[..n])), pid, p,
                    Sending(messages[n..]))
    {
      SubscriberGoesOn(w2.(streams := SentAll(w2.streams, queues, messages[..n])), pid, p, Sending(messages[n..]));
      steps', now := RunOn(w, steps', now, Subscribe(pid));
      SentOneMore(w2.streams, queues, messages[..n], messages[n]);
      assert messages[..n + 1] == messages[..n] + [messages[n]] && messages[n..][1..] == messages[n + 1..];
      n := n + 1;
    }
    assert messages[..n] == messages && messages[n..] == [];
    SubscriberGoesOn(w2.(streams := SentAll(w2.streams, queues, messages)), pid, p, Sending([]));
    steps', now := RunOn(w, steps', now, Subscribe(pid));
  }

  lemma NothingSentYet<V>(streams: map<string, seq<Message<V>>>, queues: seq<string>)
    ensures SentAll(streams, queues, []) == streams
  {}

  /** The world in which a call of subscribe has bound its queue and is about to list. */
  function Registering<V>(w: World<V>, name: Name, queue: string): World<V> {
    w.(counts := CountUp(w.counts, FullName(name)),
       registry := w.registry[queue := FullName(name)],
       table := Bind(Bind(w.table, queue, queue), queue, RoutingKey(w.digest, FullName(name))),
       streams := w.streams[queue := []])
  }

  lemma BindingIsARun<V>(w: World<V>, pid: nat, name: Name, start: int, queue: string) returns (steps: seq<Step<V>>)
    requires pid !in w.processes && ':' !in name.user && IsFreshQueue(w, queue) && NoneInside(w.processes)
    ensures Execute(w, steps)
            == WithSubscriber(Registering(w, name, queue), pid, Subscriber(name, start, queue, QueueReady), Bound)
  {
    assert Execute(w, []) == w;
    var p := Subscriber(name, start, queue, QueueReady);
    var w1 := w.(streams := w.streams[queue := []], table := Bind(w.table, queue, queue));
    assert Next(w, StartSubscriber(pid, name, start, queue)) == WithSubscriber(w1, pid, p, QueueReady);
    hide Execute, Next, FullName, RoutingKey, CountUp, Bind, NoneInside, WithSubscriber, IsFreshQueue;
    var now;
    steps, now := RunOn(w, [], w, StartSubscriber(pid, name, start, queue));
    SubscriberGoesOn(w1, pid, p, QueueReady);
    steps, now := RunOn(w, steps, now, Subscribe(pid));
    SubscriberGoesOn(w1, pid, p, Exclusive);
    steps, now := RunOn(w, steps, now, Subscribe(pid));
    var w2 := w1.(counts := CountUp(w.counts, FullName(name)));
    SubscriberGoesOn(w2, pid, p, CountedUp);
    steps, now := RunOn(w, steps, now, Subscribe(pid));
    var w3 := w2.(registry := w.registry[queue := FullName(name)]);
    SubscriberGoesOn(w3, pid, p, Registered);
    steps, now := RunOn(w, steps, now, Subscribe(pid));
  }

  /** A call of subscribe with nothing beside it is a run of the subscriber's steps, whichever way it ends. */
  lemma SubscribingIsARun<V>(w: World<V>, pid: nat, name: Name, start: int, queue: string, paths: seq<string>,
                             messages: seq<Message<V>>)
    returns (steps: seq<Step<V>>)
    requires pid !in w.processes && ':' !in name.user && IsFreshQueue(w, queue) && NoneInside(w.processes)
    requires IsListing(w.store, name, start, paths)
    requires (exists path :: path in paths && !Readable(w.store, path)) || IsSnapshot(w.store, paths, messages)
    ensures var p := Subscriber(name, start, queue, QueueReady);
            var w2 := Registering(w, name, queue);
            Execute(w, steps) ==
              if exists path :: path in paths && !Readable(w.store, path) then WithSubscriber(w2, pid, p, Failed)
              else WithSubscriber(w2.(streams := SentAll(w2.streams, BoundTo(w2.table, queue), messages)), pid, p,
                  Subscribed)
  {
    hide Execute, Next, FullName, RoutingKey, CountUp, Bind, IsFreshQueue, IsListing, IsSnapshot, SentAll,
        WithSubscriber, Readable, NoneInside;
    var p := Subscriber(name, start, queue, QueueReady);
    var w2 := Registering(w, name, queue);
    var now;
    steps := BindingIsARun(w, pid, name, start, queue);
    SubscriberLists(w2, pid, p, paths);
    steps, now := RunOn(w, steps, Execute(w, steps), List(pid, paths));
    SubscriberReads(w2, pid, p, paths, messages);
    steps, now := RunOn(w, steps, now, Read(pid, messages));
    if !exists path :: path in paths && !Readable(w.store, path) {
      steps := SendingIsARun(w, steps, w2, pid, p, messages);
    }
  }

  lemma SubscriberLists<V>(w: World<V>, pid: nat, p: Process<V>, paths: seq<string>)
    requires p.Subscriber? && IsListing(w.store, p.name, p.start, paths)
    ensures Next(WithSubscriber(w, pid, p, Bound), List(pid, paths)) == WithSubscriber(w, pid, p, Listed(paths))
  {
    hide IsListing;
    SubscriberRewritten(w, pid, p, Bound, Listed(paths));
  }

  lemma SubscriberReads<V>(w: World<V>, pid: nat, p: Process<V>, paths: seq<string>, messages: seq<Message<V>>)
    requires p.Subscriber?
    requires (exists path :: path in paths && !Readable(w.store, path)) || IsSnapshot(w.store, paths, messages)
    ensures Next(WithSubscriber(w, pid, p, Listed(paths)), Read(pid, messages)) ==
              WithSubscriber(w, pid, p, if exists path :: path in paths && !Readable(w.store, path) then Failed
                  else Sending(messages))
  {
    hide Readable, IsSnapshot;
    SubscriberRewritten(w, pid, p, Listed(paths), Failed);
    SubscriberRewritten(w, pid, p, Listed(paths), Sending(messages));
  }

  /** Messages sent to a list of queues that holds one queue once and another not at all. */
  lemma {:induction false} SentContents<V>(streams: map<string, seq<Message<V>>>, queues: seq<string>,
                                           messages: seq<Message<V>>, queue: string)
    requires Times(queues, queue) <= 1
    ensures Contents(SentAll(streams, queues, messages), queue) ==
              Contents(streams, queue) + if Times(queues, queue) == 1 then messages else []
  {
    hide Times, Contents, Delivered;
    if messages == [] {
      assert Contents(streams, queue) + [] == Contents(streams, queue);
    } else {
      var init, m := messages[..|messages| - 1], messages[|messages| - 1];
      SentContents(streams, queues, init, queue);
      DeliveredContents(SentAll(streams, queues, init), queues, m, queue);
      assert messages == init + [m] && Repeat(m, 0) == [] && Repeat(m, 1) == [m];
      assert Contents(streams, queue) + init + [m] == Contents(streams, queue) + messages;
      assert Contents(streams, queue) + [] + [] == Contents(streams, queue) + [];
    }
  }

  /** What a call of subscribe leaves in a fresh queue is the snapshot, and all other streams are as they were. */
  lemma QueueHoldsSnapshot<V>(w: World<V>, name: Name, queue: string, messages: seq<Message<V>>, other: string)
    requires IsFreshQueue(w, queue)
    requires other != queue ==> Times(BoundTo(w.table, queue), other) == 0
    ensures var w2 := Registering(w, name, queue);
            Contents(SentAll(w2.streams, BoundTo(w2.table, queue), messages), other) ==
              if other == queue then messages else Contents(w.streams, other)
  {
    hide SentAll, RoutingKey, Bind, Times, FullName;
    var w2 := Registering(w, name, queue);
    var table1 := Bind(w.table, queue, queue);
    BindCounts(w.table, queue, queue, other, queue);
    BindCounts(table1, queue, RoutingKey(w.digest, FullName(name)), other, queue);
    SentContents(w2.streams, BoundTo(w2.table, queue), messages, other);
    assert [] + messages == messages && Contents(w.streams, other) + [] == Contents(w.streams, other);
  }

  /** A call of unsubscribe with nothing beside it is a run of the unsubscriber's steps, whoever asks. */
  lemma UnsubscribingIsARun<V>(w: World<V>, pid: nat, user: string, queue: string) returns (steps: seq<Step<V>>)
    requires pid !in w.processes && queue in w.registry && w.registry[queue] in w.counts
    ensures Execute(w, steps) ==
              if user == UserOfName(w.registry[queue]) then
                w.(counts := CountDown(w.counts, w.registry[queue]), registry := w.registry - {queue},
                    streams := w.streams - {queue},
                   processes := w.processes[pid := Unsubscriber(user, queue, UnsubscriberPhase.Deleted)])
              else w.(registry := w.registry - {queue},
                      processes := w.processes[pid := Unsubscriber(user, queue, Denied(w.registry[queue]))])
  {
    assert Execute(w, []) == w;
    hide Execute, UserOfName, CountDown;
    var full := w.registry[queue];
    var w2 := w.(registry := w.registry - {queue});
    var now;
    steps, now := RunOn(w, [], w, Unregister(pid, user, queue));
    if user != UserOfName(full) { return; }
    assert now == w2.(processes := w.processes[pid := Unsubscriber(user, queue, Unregistered(full))]);
    UnsubscriberGoesOn(w2, pid, user, queue, full);
    hide Next;
    steps, now := RunOn(w, steps, now, Unsubscribe(pid));
    steps, now := RunOn(w, steps, now, Unsubscribe(pid));
  }

  lemma UnsubscriberGoesOn<V>(w: World<V>, pid: nat, user: string, queue: string, full: string)
    requires full in w.counts
    ensures var unregistered := w.(processes := w.processes[pid := Unsubscriber(user, queue, Unregistered(full))]);
            var uncounted := w.(counts := CountDown(w.counts, full),
                processes := w.processes[pid := Unsubscriber(user, queue, Uncounted)]);
            && Next(unregistered, Unsubscribe(pid)) == uncounted
            && Next(uncounted, Unsubscribe(pid)) ==
               uncounted.(streams := w.streams - {queue},
                   processes := w.processes[pid := Unsubscriber(user, queue, UnsubscriberPhase.Deleted)])
  {
    hide CountDown;
  }
}
