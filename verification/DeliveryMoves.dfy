/**
 A handler that moves a task writes up to seven times.  All of its writes are of the kind that the
 delivery allows, and made by writers of the subscribing storage they are a run of the processes.
 */
module DeliveryMoves {
  import opened KeyPaths
  import opened VersionedStore
  import opened Tasks
  import opened TaskKeys
  import opened TaskLists
  import opened Routing
  import opened Subscription
  import opened SubscriptionInvariant
  import opened SubscriptionHistory
  import opened SubscriptionRuns
  import opened Delivery

  // ---------------------------------------------------------------- a move is a sequence of such writes

  ghost predicate AreHandlerWrites(s: TaskStore, userId: UserId, ops: seq<Operation<Payload>>)
    decreases |ops|
  {
    ops != [] ==>
      && Allowed(s, ops[0]) && IsHandlerWrite(s, userId, ops[0])
      && AreHandlerWrites(Apply(s, ops[0]).0, userId, ops[1..])
  }

  lemma {:induction false} OneMoreWrite(s: TaskStore, userId: UserId, ops: seq<Operation<Payload>>,
                                        op: Operation<Payload>)
    requires AreHandlerWrites(s, userId, ops)
    requires Allowed(ApplyAll(s, ops), op) && IsHandlerWrite(ApplyAll(s, ops), userId, op)
    ensures AreHandlerWrites(s, userId, ops + [op])
    ensures ApplyAll(s, ops + [op]) == Apply(ApplyAll(s, ops), op).0
    decreases |ops|
  {
    hide Allowed, IsHandlerWrite, Apply;
    if ops == [] {
      assert ops + [op] == [op] && [op][1..] == [];
    } else {
      assert (ops + [op])[1..] == ops[1..] + [op];
      OneMoreWrite(Apply(s, ops[0]).0, userId, ops[1..], op);
    }
  }

  /** So far the handler has made these writes, and this is what it has left to read of the clock. */
  ghost predicate Wrote(s: TaskStore, userId: UserId, ops: seq<Operation<Payload>>, now: TaskStore, ts: seq<Nanos>) {
    AreHandlerWrites(s, userId, ops) && ApplyAll(s, ops) == now && Sound(now, userId) && Clock(now, ts)
  }

  lemma WritesOn(s: TaskStore, userId: UserId, ops: seq<Operation<Payload>>, now: TaskStore, ts: seq<Nanos>,
                 op: Operation<Payload>)
    requires Wrote(s, userId, ops, now, ts) && ts != []
    requires op.Update? && op.now == ts[0] && op.name.user == userId && IsHandlerWrite(now, userId, op)
    ensures Wrote(s, userId, ops + [op], Apply(now, op).0, ts[1..])
  {
    assert ':' !in userId;
    hide Sound, Clock, IsHandlerWrite, AreHandlerWrites, ApplyAll, CoveredFrom, KeyPath;
    ClockTicks(now, ts, op.name, op.value);
    WriteKeepsCover(now, userId, StatusList(Waiting), 0, op);
    OneMoreWrite(s, userId, ops, op);
  }

  /** Taking the task out of a list, if it is there. */
  lemma UnlistingWrites(s: TaskStore, userId: UserId, ops: seq<Operation<Payload>>, now: TaskStore, ts: seq<Nanos>,
                        k: ListKey, taskId: string)
    returns (ops': seq<Operation<Payload>>)
    requires Wrote(s, userId, ops, now, ts) && ts != [] && Unlisted(now, userId, k, taskId, ts[0]).Success?
    ensures Wrote(s, userId, ops', Unlisted(now, userId, k, taskId, ts[0]).value, ts[1..])
  {
    hide Wrote, Sound, Clock, IsHandlerWrite, Apply, Unlisted, ListName;
    var op := RemovingIsHandlerWrite(now, userId, k, taskId, ts[0]);
    WritesOn(s, userId, ops, now, ts, op);
    ops' := ops + [op];
  }

  lemma AddingWrites(s: TaskStore, userId: UserId, ops: seq<Operation<Payload>>, now: TaskStore, ts: seq<Nanos>,
                     k: ListKey, taskId: string)
    returns (ops': seq<Operation<Payload>>)
    requires Wrote(s, userId, ops, now, ts) && |ts| >= 2 && ':' !in taskId
    ensures Wrote(s, userId, ops', AddedToList(now, userId, k, taskId, ts[0], ts[1]), ts[2..])
  {
    hide AreHandlerWrites, ApplyAll, Apply, Sound, Clock, IsHandlerWrite, AddedToList, LatestName, ListName;
    var first, second := AddingIsHandlerWrites(now, userId, k, taskId, ts);
    WritesOn(s, userId, ops, now, ts, first);
    WritesOn(s, userId, ops + [first], Apply(now, first).0, ts[1..], second);
    assert ts[1..][1..] == ts[2..];
    ops' := ops + [first] + [second];
  }

  lemma StoringWrites(s: TaskStore, userId: UserId, ops: seq<Operation<Payload>>, now: TaskStore, ts: seq<Nanos>,
                      t: Task)
    returns (ops': seq<Operation<Payload>>)
    requires Wrote(s, userId, ops, now, ts) && ts != [] && TaskOk(t, t.body.taskId) && ':' !in t.body.taskId
    ensures Wrote(s, userId, ops', TaskStored(now, userId, t, ts[0]), ts[1..])
  {
    hide Wrote, Sound, Clock, IsHandlerWrite, Apply, TaskStored, TaskKey;
    StoringIsHandlerWrite(now, userId, t, ts[0]);
    var op := Update(TaskName(userId, t.body.taskId), TaskPayload(t), ts[0]);
    WritesOn(s, userId, ops, now, ts, op);
    ops' := ops + [op];
  }

  lemma RehomingWrites(s: TaskStore, userId: UserId, ops: seq<Operation<Payload>>, now: TaskStore, ts: seq<Nanos>,
                       t': Task)
    returns (ops': seq<Operation<Payload>>)
    requires Wrote(s, userId, ops, now, ts) && |ts| >= 5 && TaskOk(t', t'.body.taskId) && ':' !in t'.body.taskId
    ensures Wrote(s, userId, ops', NewStatusAdded(TaskStored(now, userId, t', ts[0]), userId, t', ts[1..]), ts[5..])
  {
    hide Wrote, AddedToList, TaskStored, ProtocolHome;
    var id := t'.body.taskId;
    ops' := StoringWrites(s, userId, ops, now, ts, t');
    var stored := TaskStored(now, userId, t', ts[0]);
    ops' := AddingWrites(s, userId, ops', stored, ts[1..], ProtocolHome(userId, t'), id);
    assert ts[1..][2..] == ts[3..];
    var s1 := AddedToList(stored, userId, ProtocolHome(userId, t'), id, ts[1], ts[2]);
    ops' := AddingWrites(s, userId, ops', s1, ts[3..], StatusList(t'.status), id);
    assert ts[3..][2..] == ts[5..];
  }

  lemma MovingWrites(s: TaskStore, userId: UserId, t: Task, t': Task, ts: seq<Nanos>)
    returns (ops: seq<Operation<Payload>>)
    requires Wrote(s, userId, [], s, ts) && |ts| >= 7 && ':' !in t.body.taskId
    requires t'.body.taskId == t.body.taskId && TaskOk(t', t.body.taskId)
    ensures AreHandlerWrites(s, userId, ops) && ApplyAll(s, ops) == Moved(s, userId, t, t', ts).0
  {
    hide Wrote, AreHandlerWrites, ApplyAll, Unlisted, NewStatusAdded, TaskStored, ProtocolHome;
    ops := [];
    WroteThat(s, userId, ops, s, ts);
    var id := t.body.taskId;
    var r1 := Unlisted(s, userId, ProtocolHome(userId, t), id, ts[0]);
    if r1.Success? {
      ops := UnlistingWrites(s, userId, ops, s, ts, ProtocolHome(userId, t), id);
      WroteThat(s, userId, ops, r1.value, ts[1..]);
      var r2 := Unlisted(r1.value, userId, StatusList(t.status), id, ts[1]);
      if r2.Success? {
        ops := UnlistingWrites(s, userId, ops, r1.value, ts[1..], StatusList(t.status), id);
        assert ts[1..][1..] == ts[2..] && ts[2..][1..] == ts[3..];
        ops := RehomingWrites(s, userId, ops, r2.value, ts[2..], t');
        WroteThat(s, userId, ops, NewStatusAdded(TaskStored(r2.value, userId, t', ts[2]), userId, t', ts[3..]),
            ts[2..][5..]);
      }
    }
  }

  lemma WroteThat(s: TaskStore, userId: UserId, ops: seq<Operation<Payload>>, now: TaskStore, ts: seq<Nanos>)
    requires Wrote(s, userId, ops, now, ts)
    ensures AreHandlerWrites(s, userId, ops) && ApplyAll(s, ops) == now
  {}

  /**
   Whatever a move of a task does to the storage, complete or cut short by an error, is a sequence of
   the writes that the delivery allows.
   */
  lemma MoveIsHandlerWrites(s: TaskStore, userId: UserId, t: Task, t': Task, ts: seq<Nanos>)
    returns (ops: seq<Operation<Payload>>)
    requires Sound(s, userId) && |ts| >= 7 && Clock(s, ts) && ':' !in t.body.taskId
    requires t'.body.taskId == t.body.taskId && TaskOk(t', t.body.taskId)
    ensures AreHandlerWrites(s, userId, ops) && ApplyAll(s, ops) == Moved(s, userId, t, t', ts).0
  {
    hide Sound, Clock, Moved, IsHandlerWrite;
    ops := MovingWrites(s, userId, t, t', ts);
  }

  // ---------------------------------------------------------------- made by writers, a move is a run

  lemma {:induction false} OneMoreStep(w: World<Payload>, userId: UserId, steps: seq<Step<Payload>>,
                                       step: Step<Payload>)
    requires WritesAreHandlers(w, userId, steps)
    requires var now := Execute(w, steps);
             Performs(now, step).Some? ==> IsHandlerWrite(now.store, userId, Performs(now, step).value)
    ensures WritesAreHandlers(w, userId, steps + [step])
    decreases |steps|
  {
    hide Performs, IsHandlerWrite, Next;
    if steps == [] {
      assert steps + [step] == [step] && [step][1..] == [];
    } else {
      assert (steps + [step])[1..] == steps[1..] + [step];
      OneMoreStep(Next(w, steps[0]), userId, steps[1..], step);
    }
  }

  /** These steps lead from one world to the other, and all that they write is the handlers'. */
  ghost predicate LeadsTo(w: World<Payload>, userId: UserId, steps: seq<Step<Payload>>, now: World<Payload>) {
    Execute(w, steps) == now && WritesAreHandlers(w, userId, steps)
  }

  lemma LeadsOn(w: World<Payload>, userId: UserId, steps: seq<Step<Payload>>, now: World<Payload>,
                step: Step<Payload>, now': World<Payload>)
    requires LeadsTo(w, userId, steps, now) && Next(now, step) == now'
    requires Performs(now, step).Some? ==> IsHandlerWrite(now.store, userId, Performs(now, step).value)
    ensures LeadsTo(w, userId, steps + [step], now')
  {
    hide Execute, WritesAreHandlers, Performs, IsHandlerWrite, Next;
    ExecuteThen(w, steps, step);
    OneMoreStep(w, userId, steps, step);
  }

  /** A writer's next step, if nobody is exclusive: it performs its operation only when it has the lock. */
  lemma WriterLeadsOn(w: World<Payload>, userId: UserId, steps: seq<Step<Payload>>, now: World<Payload>, pid: nat,
                      op: Operation<Payload>, phase: WriterPhase<Payload>)
    requires LeadsTo(w, userId, steps, WithWriter(now, pid, op, phase)) && NoneExclusive(now.processes)
    requires phase.Locked? ==> Allowed(now.store, op) && IsHandlerWrite(now.store, userId, op)
    ensures LeadsTo(w, userId, steps + [Write(pid)], AfterPhase(now, pid, op, phase))
  {
    hide LeadsTo, Next, NoneExclusive, AfterPhase, Allowed, IsHandlerWrite;
    WriterGoesOn(now, pid, op, phase);
    LeadsOn(w, userId, steps, WithWriter(now, pid, op, phase), Write(pid), AfterPhase(now, pid, op, phase));
  }

  /** From storing on, a writer publishes or not, and returns. */
  lemma WriterReturns(w: World<Payload>, userId: UserId, steps: seq<Step<Payload>>, now: World<Payload>, pid: nat,
                      op: Operation<Payload>, phase: WriterPhase<Payload>)
    returns (steps': seq<Step<Payload>>, now': World<Payload>)
    requires LeadsTo(w, userId, steps, WithWriter(now, pid, op, phase)) && NoneExclusive(now.processes)
    requires !phase.Starting? && !phase.Locked?
    ensures LeadsTo(w, userId, steps', WithWriter(now', pid, op, Returned))
    ensures now'.store == now.store && now'.processes == now.processes
    decreases if phase.Stored? then 2 else if phase.Matched? then 1 else 0
  {
    hide LeadsTo, NoneExclusive, WithWriter, Delivered, FullName, RoutingKey;
    WriterLeadsOn(w, userId, steps, now, pid, op, phase);
    steps', now' := steps + [Write(pid)], now;
    match phase
    case Stored(m) =>
      var next := if FullName(op.name) in now.counts then Matched(m) else Leaving;
      steps', now' := WriterReturns(w, userId, steps', now, pid, op, next);
    case Matched(m) =>
      now' := now.(streams := Delivered(now.streams, BoundTo(now.table, RoutingKey(now.digest, FullName(op.name))), m));
      steps', now' := WriterReturns(w, userId, steps', now', pid, op, Leaving);
    case Leaving =>
    case Returned =>
  }

  /** One write by a writer of its own, with nothing beside it. */
  lemma WriteIsARun(w: World<Payload>, userId: UserId, steps: seq<Step<Payload>>, now: World<Payload>, pid: nat,
                    op: Operation<Payload>)
    returns (steps': seq<Step<Payload>>, now': World<Payload>)
    requires LeadsTo(w, userId, steps, now) && NoneExclusive(now.processes) && pid !in now.processes
    requires Allowed(now.store, op) && IsHandlerWrite(now.store, userId, op)
    ensures LeadsTo(w, userId, steps', now')
    ensures now'.store == Apply(now.store, op).0 && now'.processes == now.processes[pid := Writer(op, Returned)]
  {
    hide LeadsTo, NoneExclusive, IsHandlerWrite, Apply, MessageOf;
    LeadsOn(w, userId, steps, now, StartWriter(pid, op), WithWriter(now, pid, op, Starting));
    WriterLeadsOn(w, userId, steps + [StartWriter(pid, op)], now, pid, op, Starting);
    steps' := steps + [StartWriter(pid, op)] + [Write(pid)];
    WriterLeadsOn(w, userId, steps', now, pid, op, Locked);
    var (store, r) := Apply(now.store, op);
    var phase := if r.Success? then Stored(MessageOf(op)) else Leaving;
    steps', now' := WriterReturns(w, userId, steps' + [Write(pid)], now.(store := store), pid, op, phase);
    now' := WithWriter(now', pid, op, Returned);
  }

  lemma {:induction false} WritesAreARun(w: World<Payload>, userId: UserId, steps: seq<Step<Payload>>,
                                         now: World<Payload>, pid: nat, ops: seq<Operation<Payload>>)
    returns (steps': seq<Step<Payload>>, now': World<Payload>)
    requires LeadsTo(w, userId, steps, now) && NoneExclusive(now.processes)
    requires forall q: nat | q >= pid :: q !in now.processes
    requires AreHandlerWrites(now.store, userId, ops)
    ensures LeadsTo(w, userId, steps', now') && now'.store == ApplyAll(now.store, ops)
    decreases |ops|
  {
    hide LeadsTo, Allowed, IsHandlerWrite, Apply;
    steps', now' := steps, now;
    if ops != [] {
      steps', now' := WriteIsARun(w, userId, steps, now, pid, ops[0]);
      steps', now' := WritesAreARun(w, userId, steps', now', pid + 1, ops[1..]);
    }
  }

  /**
   So a whole move of a task, complete or cut short, is a run of the processes in which every write is
   one that the delivery allows.
   */
  lemma MoveIsARun(w: World<Payload>, pid: nat, userId: UserId, t: Task, t': Task, ts: seq<Nanos>)
    returns (steps: seq<Step<Payload>>)
    requires NoneExclusive(w.processes) && forall q: nat | q >= pid :: q !in w.processes
    requires Sound(w.store, userId) && |ts| >= 7 && Clock(w.store, ts) && ':' !in t.body.taskId
    requires t'.body.taskId == t.body.taskId && TaskOk(t', t.body.taskId)
    ensures WritesAreHandlers(w, userId, steps)
    ensures Execute(w, steps).store == Moved(w.store, userId, t, t', ts).0
  {
    assert LeadsTo(w, userId, [], w);
    hide Sound, Clock, Moved, AreHandlerWrites, ApplyAll, NoneExclusive;
    var ops := MoveIsHandlerWrites(w.store, userId, t, t', ts);
    var now;
    steps, now := WritesAreARun(w, userId, [], w, pid, ops);
  }
}
