/** What the writers' steps keep: storing, publishing, and not publishing. */
module SubscriptionWriters {
  import opened Wrappers
  import opened KeyPaths
  import opened VersionedStore
  import opened Routing
  import opened Subscription
  import opened SubscriptionInvariant
  import opened SubscriptionStreams

  ghost predicate Inv<V>(w: World<V>) {
    && GoodDigest(w.digest)
    && Consistent(w.store)
    && LockOk(w.processes)
    && CountsOk(w.counts, w.registry, w.processes)
    && QueuesOk(w.digest, w.table, w.registry, w.processes)
    && WritersOk(w.store.versions, w.processes)
    && StreamsOk(w.store.versions, Flights(w.processes), w.registry, w.streams, w.processes)
  }

  lemma ConsistentVersions<V>(s: Store<V>)
    requires Consistent(s)
    ensures VersionsOk(s.versions)
  {}

  lemma SharedExcludes<V>(processes: Processes<V>, pid: nat)
    requires LockOk(processes) && pid in processes && IsShared(processes[pid])
    ensures NoneExclusive(processes)
  {}

  /** The queues while one process goes on that is no subscriber. */
  lemma StreamsKept<V>(versions: map<Version, V>, flights: set<Version>, registry: map<string, string>,
                       streams: map<string, seq<Message<V>>>, processes: Processes<V>, pid: nat, p: Process<V>)
    requires StreamsOk(versions, flights, registry, streams, processes) && !p.Subscriber?
    ensures StreamsOk(versions, flights, registry, streams, processes[pid := p])
  {}

  // ---------------------------------------------------------------- writers

  /** A writer moves on without storing or publishing. */
  lemma WriterMovesOk<V>(w: World<V>, pid: nat, p: Process<V>)
    requires Inv(w) && p.Writer? && (pid in w.processes ==> w.processes[pid].Writer?)
    requires WriterOk(w.store.versions, p)
    requires FlightOf(p) == if pid in w.processes then FlightOf(w.processes[pid]) else None
    requires IsShared(p) ==> NoneExclusive(w.processes) || (pid in w.processes && IsShared(w.processes[pid]))
    ensures Inv(w.(processes := w.processes[pid := p]))
  {
    hide Consistent, GoodDigest;
    LockKept(w.processes, pid, p);
    CountsKept(w.counts, w.registry, w.processes, pid, p);
    QueuesKept(w.digest, w.table, w.registry, w.processes, pid, p);
    WritersKept(w.store.versions, w.processes, pid, p);
    FlightsKept(w.processes, pid, p);
  }

  lemma StoreOk<V>(w: World<V>, pid: nat)
    requires Inv(w) && pid in w.processes && w.processes[pid].Writer? && w.processes[pid].writing.Locked?
    ensures Inv(WriterStep(w, pid))
  {
    var p := w.processes[pid];
    if Allowed(w.store, p.op) {
      ApplyOk(w.store, p.op);
      assert WriterOk(w.store.versions, p);
      if Apply(w.store, p.op).1.Failure? {
        WriterMovesOk(w, pid, p.(writing := Leaving));
      } else if p.op.Delete? {
        ErasingOk(w, pid);
      } else {
        WritingOk(w, pid);
      }
    }
  }

  lemma ErasingOk<V>(w: World<V>, pid: nat)
    requires Inv(w) && pid in w.processes && w.processes[pid].Writer? && w.processes[pid].writing.Locked?
    requires var op := w.processes[pid].op; op.Delete? && Apply(w.store, op).1.Success?
    requires Consistent(Apply(w.store, w.processes[pid].op).0)
    ensures var p := w.processes[pid];
            Inv(w.(store := Apply(w.store, p.op).0,
                processes := w.processes[pid := p.(writing := Stored(MessageOf(p.op)))]))
  {
    hide Consistent, KeyPath;
    var p := w.processes[pid];
    assert WriterOk(w.store.versions, p);
    WriterMovesOk(w, pid, p.(writing := Stored(MessageOf(p.op))));
  }

  lemma WritingOk<V>(w: World<V>, pid: nat)
    requires Inv(w) && pid in w.processes && w.processes[pid].Writer? && w.processes[pid].writing.Locked?
    requires var op := w.processes[pid].op;
               !op.Delete? && Apply(w.store, op).1.Success? && Fresh(w.store, op.name, op.now)
    requires Consistent(Apply(w.store, w.processes[pid].op).0)
    ensures var p := w.processes[pid];
            Inv(w.(store := Apply(w.store, p.op).0,
                processes := w.processes[pid := p.(writing := Stored(MessageOf(p.op)))]))
  {
    var p := w.processes[pid];
    var v := VersionOf(p.op);
    var p' := p.(writing := Stored(MessageOf(p.op)));
    var processes' := w.processes[pid := p'];
    ConsistentVersions(w.store);
    hide Consistent, KeyPath, GoodDigest;
    assert v !in w.store.versions;
    assert WriterOk(w.store.versions, p);
    SharedExcludes(w.processes, pid);
    LockKept(w.processes, pid, p');
    CountsKept(w.counts, w.registry, w.processes, pid, p');
    QueuesKept(w.digest, w.table, w.registry, w.processes, pid, p');
    NewFlightOk(w.store.versions, w.processes, pid, p');
    forall q | q in processes' && processes'[q].Subscriber?
      ensures StreamOk(w.store.versions[v := p.op.value], Flights(processes'), processes'[q].queue in w.registry,
                       Contents(w.streams, processes'[q].queue), processes'[q])
    {
      assert SubscriberOk(w.digest, w.table, w.registry, w.processes[q]);
      StreamAfterStore(w.store.versions, Flights(w.processes), w.processes[q].queue in w.registry,
                       Contents(w.streams, w.processes[q].queue), w.processes[q], v, p.op.value);
    }
  }

  /** The name is not counted, so nothing is published: no registered queue misses anything. */
  lemma SkippingOk<V>(w: World<V>, pid: nat)
    requires Inv(w) && pid in w.processes && w.processes[pid].Writer? && w.processes[pid].writing.Stored?
    requires FullName(w.processes[pid].op.name) !in w.counts
    ensures Inv(WriterStep(w, pid))
  {
    hide Consistent, KeyPath, GoodDigest, FullName;
    var p := w.processes[pid];
    var p' := p.(writing := Leaving);
    var processes' := w.processes[pid := p'];
    SharedExcludes(w.processes, pid);
    assert WriterOk(w.store.versions, p);
    LockKept(w.processes, pid, p');
    CountsKept(w.counts, w.registry, w.processes, pid, p');
    QueuesKept(w.digest, w.table, w.registry, w.processes, pid, p');
    WritersKept(w.store.versions, w.processes, pid, p');
    FlightEndsOk(w.store.versions, w.processes, pid, p');
    forall q | q in processes' && processes'[q].Subscriber?
      ensures StreamOk(w.store.versions, Flights(processes'), processes'[q].queue in w.registry,
                       Contents(w.streams, processes'[q].queue), processes'[q])
    {
      var sub := w.processes[q];
      assert SubscriberOk(w.digest, w.table, w.registry, sub);
      if sub.queue in w.registry && sub.name == p.op.name {
        RegisteredIsCounted(w.counts, w.registry, w.processes, sub.queue);
      }
      StreamAfterSkip(w.store.versions, Flights(w.processes), sub.queue in w.registry, Contents(w.streams, sub.queue),
          sub, VersionOf(p.op));
    }
  }

  /** Every queue after a message has been published. */
  lemma PublishedStreamsOk<V>(w: World<V>, op: Operation<V>)
    requires GoodDigest(w.digest) && VersionsOk(w.store.versions) && ':' !in op.name.user && NoneExclusive(w.processes)
    requires QueuesOk(w.digest, w.table, w.registry, w.processes)
    requires StreamsOk(w.store.versions, Flights(w.processes), w.registry, w.streams, w.processes)
    requires !op.Delete? ==>
               var v := VersionOf(op);
               v in w.store.versions && w.store.versions[v] == op.value && v in Flights(w.processes)
    ensures var streams' := Delivered(w.streams, BoundTo(w.table, RoutingKey(w.digest, FullName(op.name))),
            MessageOf(op));
            var flights' := if op.Delete? then Flights(w.processes) else Flights(w.processes) - {VersionOf(op)};
            StreamsOk(w.store.versions, flights', w.registry, streams', w.processes)
  {
    hide GoodDigest, KeyPath, FullName, RoutingKey, Delivered, MessageOf, VersionsOk;
    forall q | q in w.processes && w.processes[q].Subscriber?
      ensures var streams' := Delivered(w.streams, BoundTo(w.table, RoutingKey(w.digest, FullName(op.name))),
              MessageOf(op));
              var flights' := if op.Delete? then Flights(w.processes) else Flights(w.processes) - {VersionOf(op)};
              StreamOk(w.store.versions, flights', w.processes[q].queue in w.registry,
                       Contents(streams', w.processes[q].queue), w.processes[q])
    {
      var sub := w.processes[q];
      assert SubscriberOk(w.digest, w.table, w.registry, sub);
      PublishReaches(w, op, sub);
      assert Contents(w.streams, sub.queue) + [] == Contents(w.streams, sub.queue);
      StreamAfterPublish(w.store.versions, Flights(w.processes), sub.queue in w.registry,
          Contents(w.streams, sub.queue), sub, op);
    }
  }

  lemma PublishingOk<V>(w: World<V>, pid: nat)
    requires Inv(w) && pid in w.processes && w.processes[pid].Writer? && w.processes[pid].writing.Matched?
    ensures Inv(WriterStep(w, pid))
  {
    hide Consistent, KeyPath, GoodDigest, FullName, RoutingKey, Delivered, MessageOf, StreamsOk, QueuesOk, CountsOk;
    var p := w.processes[pid];
    var p' := p.(writing := Leaving);
    var w' := WriterStep(w, pid);
    ConsistentVersions(w.store);
    SharedExcludes(w.processes, pid);
    assert WriterOk(w.store.versions, p);
    assert FlightOf(p).Some? ==> FlightOf(p).value in Flights(w.processes);
    PublishedStreamsOk(w, p.op);
    StreamsKept(w.store.versions, if p.op.Delete? then Flights(w.processes)
        else Flights(w.processes) - {VersionOf(p.op)},
                w.registry, w'.streams, w.processes, pid, p');
    LockKept(w.processes, pid, p');
    CountsKept(w.counts, w.registry, w.processes, pid, p');
    QueuesKept(w.digest, w.table, w.registry, w.processes, pid, p');
    WritersKept(w.store.versions, w.processes, pid, p');
    FlightEndsOk(w.store.versions, w.processes, pid, p');
  }

  /** Publishing under a name's route appends one message to the bound queues of that name, and none elsewhere. */
  lemma PublishReaches<V>(w: World<V>, op: Operation<V>, sub: Process<V>)
    requires GoodDigest(w.digest) && sub.Subscriber? && SubscriberOk(w.digest, w.table, w.registry, sub)
             && ':' !in op.name.user
    ensures var streams' := Delivered(w.streams, BoundTo(w.table, RoutingKey(w.digest, FullName(op.name))),
            MessageOf(op));
            Contents(streams', sub.queue) ==
            Contents(w.streams, sub.queue) + if IsRouted(sub.subscribing) && op.name == sub.name then [MessageOf(op)]
                else []
  {
    var key := RoutingKey(w.digest, FullName(op.name));
    DeliveredContents(w.streams, BoundTo(w.table, key), MessageOf(op), sub.queue);
    assert Times(BoundTo(w.table, key), sub.queue) == Bindings(w.digest, sub, key);
    if key == RoutingKey(w.digest, FullName(sub.name)) { RoutingKeyInjective(w.digest, op.name, sub.name); }
    assert Repeat(MessageOf(op), 1) == [MessageOf(op)] by { assert Repeat(MessageOf(op), 0) == []; }
  }

  lemma WriterStepOk<V>(w: World<V>, pid: nat)
    requires Inv(w) && pid in w.processes && w.processes[pid].Writer?
    ensures Inv(WriterStep(w, pid))
  {
    var p := w.processes[pid];
    assert WriterOk(w.store.versions, p);
    hide Inv, WritersOk;
    match p.writing
    case Starting => if NoneExclusive(w.processes) { WriterMovesOk(w, pid, p.(writing := Locked)); }
    case Locked => StoreOk(w, pid);
    case Stored(m) =>
      if FullName(p.op.name) in w.counts { WriterMovesOk(w, pid, p.(writing := Matched(m))); } else {
        SkippingOk(w, pid);
      }
    case Matched(m) => PublishingOk(w, pid);
    case Leaving => WriterMovesOk(w, pid, p.(writing := Returned));
    case Returned =>
  }
}
