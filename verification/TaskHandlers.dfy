/**
 The task handlers over the storage, one method for each critical section: they read the stored
 copy, change it, write it back and move it between the lists.

 A first copy is stored without the mutex, so that those methods ask less of the storage.

 The storage is the in-memory one; `ts` are the readings of the clock that the writes take.  A
 handler's sends are its results.
 */
module TaskHandlers {
  import opened Wrappers
  import opened KeyPaths
  import opened VersionedStore
  import opened BasicStorage
  import opened Tasks
  import opened TaskKeys
  import opened TaskLists
  import opened TaskListNames

  datatype Vote = Vote(isApproved: bool, isRejected: bool, reason: string)

  /** A synchronising message; a vote names the task only and carries no body. */
  datatype Sync = Sync(to: UserId, taskId: string, body: Option<TaskBody>, decisions: seq<Decision>)

  class TaskService {
    const storage: BasicStorage<Payload>

    constructor ()
      ensures fresh(storage) && storage.Valid() && storage.store == Empty<Payload>()
    {
      storage := new BasicStorage<Payload>();
    }

    // -------------------------------------------------------------- storage

    method InternalUpdate(userId: UserId, key: string, payload: Payload, now: Nanos) returns (path: string)
      requires storage.Valid() && ':' !in userId && LaterThanAll(storage.store, now)
      modifies storage
      ensures storage.Valid()
      ensures storage.store == Written(old(storage.store), Name(userId, key), payload, now)
      ensures path == KeyPath(Name(userId, key), now)
      ensures OnlyUser(old(storage.store), storage.store, userId)
    {
      hide KeyPath, Written, Consistent, OnlyUser;
      OnlyUserWrites(storage.store, Name(userId, key), payload, now);
      var r := storage.Update(userId, key, payload, now);
      path := r.value;
    }

    method InternalRead(userId: UserId, key: string) returns (r: Result<Payload, StorageError>)
      requires storage.Valid() && ':' !in userId
      ensures match ValueAt(storage.store, Name(userId, key))
              case Some(value) => r == Success(value)
              case None => r == Failure(NameError(storage.store.cells, Name(userId, key)))
      ensures r.Failure? ==> r.error == if Name(userId, key) !in storage.store.cells then KeyNameNotFound(key)
                             else EntryDeleted(KeyPath(Name(userId, key),
                                      storage.store.cells[Name(userId, key)].timestamp))
    {
      hide View, ValueAt, KeyPath, FullName, Consistent, ValuesOk, TimestampsOk, IndexOk;
      var name := Name(userId, key);
      ViewIsValue(storage.store, name);
      var entries := storage.ReadFromKeyNames(userId, [key]);
      match entries {
        case Failure(error) => r := Failure(error);
        case Success(values) =>
          assert Name(userId, [key][0]) in View(storage.store);
          var path :| path in values;
          r := Success(values[path]);
      }
    }

    // -------------------------------------------------------------- lists

    method RemoveTaskFromList(userId: UserId, taskId: string, list: ListKey, now: Nanos)
      returns (r: Result<(), ServiceError>)
      requires storage.Valid() && Sound(storage.store, userId) && LaterThanAll(storage.store, now)
      modifies storage
      ensures storage.Valid()
      ensures match Unlisted(old(storage.store), userId, list, taskId, now)
              case Success(s') => r == Success(()) && storage.store == s'
              case Failure(error) => r == Failure(error) && storage.store == old(storage.store)
      ensures OnlyUser(old(storage.store), storage.store, userId)
    {
      hide ListName, LatestName, Written, Consistent, Sound, ValueAt, ValuesOk, TimestampsOk, IndexOk, EntriesAt,
          LaterThanAll, NameError;
      SoundIsUserOk(storage.store, userId);
      ListIsList(storage.store, userId, list);
      var payload := InternalRead(userId, ListName(list));
      if payload.Failure? { return Failure(StorageFailed(payload.error)); }
      var entries := payload.value.entries;
      var index := |entries|;
      var i := 0;
      while i < |entries|
        invariant 0 <= i <= |entries| && index == |entries|
        invariant forall j | 0 <= j < i :: entries[j].taskId != taskId
      {
        if entries[i].taskId == taskId {
          index := i;
          break;
        }
        i := i + 1;
      }
      FirstIndexIs(entries, taskId, index);
      if index == |entries| { return Failure(TaskFailed(TaskNotListed)); }
      entries := entries[..index] + entries[index + 1..];
      var _ := InternalUpdate(userId, ListName(list), ListPayload(entries), now);
      r := Success(());
    }

    method AddTaskToList(userId: UserId, taskId: string, list: ListKey, ts: seq<Nanos>)
      requires storage.Valid() && Sound(storage.store, userId) && ':' !in taskId && |ts| >= 2
               && Clock(storage.store, ts)
      modifies storage
      ensures storage.Valid()
      ensures storage.store == AddedToList(old(storage.store), userId, list, taskId, ts[0], ts[1])
      ensures OnlyUser(old(storage.store), storage.store, userId)
    {
      hide ListName, LatestName, Written, Consistent, OnlyUser;
      ClockTicks(storage.store, ts, LatestAt(userId, list), IdPayload(taskId));
      LatestWritten(storage.store, userId, list, taskId, ts[0]);
      var keyPath := InternalUpdate(userId, LatestName(list), IdPayload(taskId), ts[0]);
      var payload := InternalRead(userId, ListName(list));
      var entries := if payload.Success? then payload.value.entries else [];
      entries := entries + [Entry(keyPath, taskId)];
      ClockFirst(storage.store, ts[1..]);
      ghost var before := storage.store;
      var _ := InternalUpdate(userId, ListName(list), ListPayload(entries), ts[1]);
      OnlyUserTwice(old(storage.store), before, storage.store, userId);
    }

    method RoleIn(participants: seq<Participant>, userId: UserId) returns (role: string)
      ensures role == RoleOf(participants, userId)
    {
      role := "";
      for i := 0 to |participants|
        invariant role == RoleOf(participants[..i], userId)
      {
        assert participants[..i + 1][..i] == participants[..i];
        if participants[i].userId == userId {
          role := participants[i].role;
        }
      }
      assert participants[..|participants|] == participants;
    }

    method RemoveTaskOldStatus(userId: UserId, task: Task, ts: seq<Nanos>) returns (r: Result<(), ServiceError>)
      requires storage.Valid() && Sound(storage.store, userId) && |ts| >= 2 && Clock(storage.store, ts)
      modifies storage
      ensures storage.Valid()
      ensures (storage.store, r) == OldStatusRemoved(old(storage.store), userId, task, ts)
      ensures r.Success? ==> RemovedByName(old(storage.store), storage.store, userId, task)
      ensures OnlyUser(old(storage.store), storage.store, userId)
    {
      hide RemovedByName, OnlyUser, Unlisted, Sound, Clock, LaterThanAll, RoleOf, Consistent, ValuesOk, TimestampsOk,
          IndexOk,
          SameStored, CountsMove, Written;
      var protocolKey := task.body.protocolName;
      if task.status == Started {
        var role := RoleIn(task.body.participants, userId);
        protocolKey := task.body.protocolName + ":" + role;
      }
      var list := ProtocolList(protocolKey, task.status);
      ClockFirst(storage.store, ts);
      UnlistedOk(storage.store, userId, list, task.body.taskId, ts[0]);
      r := RemoveTaskFromList(userId, task.body.taskId, list, ts[0]);
      if r.Success? {
        UnlistedTicks(old(storage.store), userId, list, task.body.taskId, ts);
        ghost var before := storage.store;
        ClockFirst(before, ts[1..]);
        r := RemoveTaskFromList(userId, task.body.taskId, StatusList(task.status), ts[1]);
        OnlyUserTwice(old(storage.store), before, storage.store, userId);
        if r.Success? { OldStatusByName(old(storage.store), userId, task, ts); }
      }
    }

    method AddTaskNewStatus(userId: UserId, task: Task, ts: seq<Nanos>)
      requires storage.Valid() && Sound(storage.store, userId) && ':' !in task.body.taskId && |ts| >= 4
               && Clock(storage.store, ts)
      modifies storage
      ensures storage.Valid()
      ensures storage.store == NewStatusAdded(old(storage.store), userId, task, ts)
      ensures AddedByName(old(storage.store), storage.store, userId, task, ts)
      ensures OnlyUser(old(storage.store), storage.store, userId)
    {
      hide AddedByName, OnlyUser, AddedToList, Sound, Clock, LaterThanAll, RoleOf;
      var protocolKey := task.body.protocolName;
      if task.status == Started {
        var role := RoleIn(task.body.participants, userId);
        protocolKey := task.body.protocolName + ":" + role;
      }
      var list := ProtocolList(protocolKey, task.status);
      AddedOk(storage.store, userId, list, task.body.taskId, ts);
      AddTaskToList(userId, task.body.taskId, list, ts);
      ghost var before := storage.store;
      AddTaskToList(userId, task.body.taskId, StatusList(task.status), ts[2..]);
      OnlyUserTwice(old(storage.store), before, storage.store, userId);
      NewStatusByName(old(storage.store), userId, task, ts);
    }

    /** The rewritten copy, and then its entries in the lists of its new status. */
    method StoreAndList(userId: UserId, task: Task, ts: seq<Nanos>)
      requires storage.Valid() && ':' !in userId && |ts| >= 5 && LaterThanAll(storage.store, ts[0])
               && ':' !in task.body.taskId
      requires var stored := TaskStored(storage.store, userId, task, ts[0]);
                 Sound(stored, userId) && Clock(stored, ts[1..])
      modifies storage
      ensures storage.Valid()
      ensures storage.store
              == NewStatusAdded(TaskStored(old(storage.store), userId, task, ts[0]), userId, task, ts[1..])
      ensures OnlyUser(old(storage.store), storage.store, userId)
    {
      hide Sound, Clock, LaterThanAll, Written, Consistent, ValuesOk, TimestampsOk, IndexOk, TaskKey, OnlyUser,
          NewStatusAdded;
      var _ := InternalUpdate(userId, TaskKey(task.body.taskId), TaskPayload(task), ts[0]);
      ghost var stored := storage.store;
      AddTaskNewStatus(userId, task, ts[1..]);
      OnlyUserTwice(old(storage.store), stored, storage.store, userId);
    }

    /** Writes a decision into every slot of the user. */
    method WriteDecision(task: Task, userId: UserId, d: Decision) returns (decisions: seq<Decision>)
      requires |task.decisions| == |task.body.participants|
      ensures decisions == WithDecision(task, userId, d) && |decisions| == |task.decisions|
    {
      decisions := task.decisions;
      for i := 0 to |task.body.participants|
        invariant |decisions| == |task.decisions|
        invariant forall j | 0 <= j < i :: decisions[j] == WithDecision(task, userId, d)[j]
        invariant forall j | i <= j < |decisions| :: decisions[j] == task.decisions[j]
      {
        if task.body.participants[i].userId == userId {
          decisions := decisions[i := d];
        }
      }
    }

    // -------------------------------------------------------------- handlers

    /** The participant's vote; a vote that counts is sent to the initiator. */
    method ConfirmTask(userId: UserId, taskId: string, vote: Option<Vote>, clock: int, ts: seq<Nanos>)
      returns (r: Result<Option<Sync>, ServiceError>)
      requires storage.Valid() && Tidy(storage.store, userId) && ':' !in taskId && |ts| >= 7 && Clock(storage.store, ts)
      modifies storage
      ensures storage.Valid() && Tidy(storage.store, userId)
      ensures ConfirmDone(old(storage.store), storage.store, userId, taskId, vote, clock, r)
      ensures OnlyUser(old(storage.store), storage.store, userId)
      ensures r.Success? ==>
                vote.Some? && VoteStored(old(storage.store), storage.store, userId, taskId, vote.value, r.value)
      ensures r.Failure? ==> r.error == ConfirmError(old(storage.store), userId, taskId, vote, clock, ts)
    {
      hide Sound, Partitioned, Clock, LaterThanAll, Written, Consistent, ValuesOk, TimestampsOk, IndexOk, TaskKey,
          OnlyUser, RoleOf,
           OldStatusRemoved, NewStatusAdded, RemovedByName, AddedByName, IsListed, OthersSame, NameError, ValueAt,
           WithDecision;
      SoundIsUserOk(storage.store, userId);
      OnlyUserStays(storage.store, userId);
      if vote.None? { return Failure(TaskFailed(MissingDecision)); }
      var Vote(isApproved, isRejected, reason) := vote.value;
      if isApproved && isRejected { return Failure(TaskFailed(InvalidDecision)); }
      var own := if isApproved then Approved else if isRejected then Rejected else Ignored;
      TaskIsTask(storage.store, userId, taskId);
      var payload := InternalRead(userId, TaskKey(taskId));
      if payload.Failure? { return Failure(StorageFailed(payload.error)); }
      var task := payload.value.task;
      if task.status != Waiting { return Failure(TaskFailed(AlreadyConfirmed)); }
      if clock > task.body.expirationTime { return Failure(TaskFailed(Expired)); }
      var decisions := WriteDecision(task, userId, SignedDecision(isApproved, isRejected, reason));
      var start :=
        || (task.body.requireAgreement && Count(Approvals, decisions) == |task.body.participants|)
        || (!task.body.requireAgreement && own == Approved);
      var task' := Task(task.body, decisions, if start then Started else own);
      assert task' == Confirmed(task, userId, isApproved, isRejected, reason);
      ConfirmedWritesVote(task, userId, isApproved, isRejected, reason);
      MovedOk(storage.store, userId, task, task', ts);
      var removed := RemoveTaskOldStatus(userId, task, ts);
      if removed.Failure? { return Failure(removed.error); }
      ghost var unlisted := storage.store;
      HalfwaySound(old(storage.store), userId, task, task', ts);
      assert ts[2..][1..] == ts[3..];
      StoreAndList(userId, task', ts[2..]);
      OnlyUserTwice(old(storage.store), unlisted, storage.store, userId);
      r := Success(if task.body.requireAgreement && own != Ignored
          then Some(Sync(task.body.participants[0].userId, taskId, None, decisions)) else None);
    }

    method FinishTask(userId: UserId, taskId: string, ts: seq<Nanos>) returns (r: Result<(), ServiceError>)
      requires storage.Valid() && Tidy(storage.store, userId) && ':' !in taskId && |ts| >= 7 && Clock(storage.store, ts)
      modifies storage
      ensures storage.Valid() && Tidy(storage.store, userId)
      ensures FinishDone(old(storage.store), storage.store, userId, taskId, r)
      ensures OnlyUser(old(storage.store), storage.store, userId)
    {
      hide Sound, Partitioned, Clock, LaterThanAll, Written, Consistent, ValuesOk, TimestampsOk, IndexOk, TaskKey,
          OnlyUser, RoleOf,
           OldStatusRemoved, NewStatusAdded, IsListed, OthersSame, NameError, ValueAt;
      SoundIsUserOk(storage.store, userId);
      OnlyUserStays(storage.store, userId);
      TaskIsTask(storage.store, userId, taskId);
      var payload := InternalRead(userId, TaskKey(taskId));
      if payload.Failure? { return Failure(StorageFailed(payload.error)); }
      var task := payload.value.task;
      if task.status != Started { return Failure(TaskFailed(NotStarted)); }
      var task' := task.(status := Finished);
      MovedOk(storage.store, userId, task, task', ts);
      r := RemoveTaskOldStatus(userId, task, ts);
      if r.Failure? { return; }
      ghost var unlisted := storage.store;
      HalfwaySound(old(storage.store), userId, task, task', ts);
      assert ts[2..][1..] == ts[3..];
      StoreAndList(userId, task', ts[2..]);
      OnlyUserTwice(old(storage.store), unlisted, storage.store, userId);
    }

    /** The first half of creating a task: the initiator's copy is stored and sent to all others, and listed later. */
    method StoreNewTask(userId: UserId, body: TaskBody, now: Nanos) returns (outbox: seq<Sync>)
      requires storage.Valid() && Sound(storage.store, userId) && LaterThanAll(storage.store, now)
      requires ':' !in body.taskId && |body.participants| > 0 && StoredTask(storage.store, userId, body.taskId) == None
      modifies storage
      ensures storage.Valid() && Sound(storage.store, userId)
      ensures storage.store == TaskStored(old(storage.store), userId, NewTask(body), now)
      ensures Inserted(old(storage.store), storage.store, userId, NewTask(body))
      ensures IsRequest(body, NewTask(body)) && outbox == ToOthers(body, NewTask(body).decisions)
      ensures OnlyUser(old(storage.store), storage.store, userId)
    {
      hide Sound, Partitioned, Clock, LaterThanAll, Written, Consistent, ValuesOk, TimestampsOk, IndexOk, TaskKey,
          OnlyUser, RoleOf,
           OldStatusRemoved, NewStatusAdded, IsListed, OthersSame, NameError, ValueAt;
      SoundIsUserOk(storage.store, userId);
      var task := NewTask(body);
      LaterIsFresh(storage.store, TaskName(userId, body.taskId), now);
      NewTaskIsRequest(body);
      TaskWritten(storage.store, userId, task, now);
      var _ := InternalUpdate(userId, TaskKey(body.taskId), TaskPayload(task), now);
      outbox := SendToOthers(body, task.decisions);
    }

    /** The task goes into the lists of its status; whatever was merged into the copy meanwhile does not matter. */
    method ListTask(userId: UserId, task: Task, ts: seq<Nanos>)
      requires storage.Valid() && Tidy(storage.store, userId) && ':' !in task.body.taskId && |ts| >= 4
               && Clock(storage.store, ts)
      requires StoredTask(storage.store, userId, task.body.taskId).Some?
               && !IsListed(storage.store, userId, task.body.taskId)
      requires var stored := StoredTask(storage.store, userId, task.body.taskId).value;
                 stored.body == task.body && stored.status == task.status
      modifies storage
      ensures storage.Valid() && Tidy(storage.store, userId)
      ensures Changed(old(storage.store), storage.store, userId,
              StoredTask(old(storage.store), userId, task.body.taskId).value)
      ensures OnlyUser(old(storage.store), storage.store, userId)
    {
      var stored := StoredTask(storage.store, userId, task.body.taskId).value;
      assert NewStatusAdded(storage.store, userId, task, ts) == NewStatusAdded(storage.store, userId, stored, ts);
      hide Sound, Partitioned, Clock, LaterThanAll, Written, Consistent, ValuesOk, TimestampsOk, IndexOk, TaskKey,
          OnlyUser, RoleOf,
           OldStatusRemoved, NewStatusAdded, IsListed, OthersSame, NameError, ValueAt;
      ListedOk(storage.store, userId, stored, ts);
      AddTaskNewStatus(userId, task, ts);
    }

    /** A first message about a task is stored as waiting; a later one is left to be merged. */
    method StoreFirstCopy(userId: UserId, body: TaskBody, decisions: seq<Decision>, facts: set<Fact>, now: Nanos)
      returns (r: Result<bool, ServiceError>)
      requires storage.Valid() && Sound(storage.store, userId) && LaterThanAll(storage.store, now)
      requires ':' !in body.taskId && |decisions| == |body.participants| > 0
      modifies storage
      ensures storage.Valid() && Sound(storage.store, userId)
      ensures r == Success(true)
              ==> storage.store == TaskStored(old(storage.store), userId, Task(body, decisions, Waiting), now)
      ensures FirstCopyDone(old(storage.store), storage.store, userId, body, decisions, facts, r)
      ensures OnlyUser(old(storage.store), storage.store, userId)
    {
      hide Sound, Partitioned, Clock, LaterThanAll, Written, Consistent, ValuesOk, TimestampsOk, IndexOk, TaskKey,
          OnlyUser, RoleOf,
           OldStatusRemoved, NewStatusAdded, IsListed, OthersSame, NameError, ValueAt;
      SoundIsUserOk(storage.store, userId);
      OnlyUserStays(storage.store, userId);
      TaskIsTask(storage.store, userId, body.taskId);
      var payload := InternalRead(userId, TaskKey(body.taskId));
      if payload.Success? { return Success(false); }
      var checked := CheckDecision(facts, decisions[0], body.participants[0].userId, body);
      CheckMeans(facts, decisions[0], body.participants[0].userId, body);
      if checked.Failure? { return Failure(TaskFailed(checked.error)); }
      if !decisions[0].isApproved { return Failure(TaskFailed(InitiatorDidNotApprove)); }
      var task := Task(body, decisions, Waiting);
      LaterIsFresh(storage.store, TaskName(userId, body.taskId), now);
      TaskWritten(storage.store, userId, task, now);
      var _ := InternalUpdate(userId, TaskKey(body.taskId), TaskPayload(task), now);
      r := Success(true);
    }

    /**
     First critical section of a later message: the decisions are merged, and the outcome they
     settle, if any, is computed.
     */
    method MergeDecisions(userId: UserId, taskId: string, incoming: seq<Decision>, facts: set<Fact>, clock: int,
                          now: Nanos)
      returns (r: Result<Option<bool>, ServiceError>)
      requires storage.Valid() && Tidy(storage.store, userId) && LaterThanAll(storage.store, now) && ':' !in taskId
      requires StoredTask(storage.store, userId, taskId).Some? ==>
                 |StoredTask(storage.store, userId, taskId).value.body.participants| == |incoming|
      modifies storage
      ensures storage.Valid() && Tidy(storage.store, userId)
      ensures MergeDone(old(storage.store), storage.store, userId, taskId, incoming, facts, clock, r)
      ensures OnlyUser(old(storage.store), storage.store, userId)
    {
      hide Sound, Partitioned, Clock, LaterThanAll, Written, Consistent, ValuesOk, TimestampsOk, IndexOk, TaskKey,
          OnlyUser, RoleOf,
           OldStatusRemoved, NewStatusAdded, IsListed, OthersSame, NameError, ValueAt, Merged, SlotSigned, Decided;
      SoundIsUserOk(storage.store, userId);
      OnlyUserStays(storage.store, userId);
      TaskIsTask(storage.store, userId, taskId);
      var payload := InternalRead(userId, TaskKey(taskId));
      if payload.Failure? { return Failure(StorageFailed(payload.error)); }
      var task := payload.value.task;
      if !task.body.requireAgreement { return Failure(TaskFailed(AgreementNotNeeded)); }
      if clock > task.body.expirationTime { return Failure(TaskFailed(Expired)); }
      var merged := MergeInto(task, userId, incoming, facts);
      if merged.Failure? { return Failure(TaskFailed(merged.error)); }
      var decisions := merged.value;
      var task' := task.(decisions := decisions);
      LaterIsFresh(storage.store, TaskName(userId, taskId), now);
      StoredOk(storage.store, userId, task', now);
      var _ := InternalUpdate(userId, TaskKey(taskId), TaskPayload(task'), now);
      if task.status == Started || task.status == Rejected { return Success(None); }
      var anyoneRejected := Count(Rejections, decisions) > 0;
      DecidedIs(decisions);
      if Count(DecidedOnes, decisions) == |task.body.participants| || anyoneRejected {
        r := Success(Some(anyoneRejected));
      } else {
        r := Success(None);
      }
    }

    /** Every slot but the user's own; the first decision that does not verify ends it. */
    method MergeInto(task: Task, userId: UserId, incoming: seq<Decision>, facts: set<Fact>)
      returns (r: Result<seq<Decision>, TaskError>)
      requires |task.decisions| == |task.body.participants| == |incoming|
      ensures r.Success? <==> ForeignSigned(facts, task.body, userId, incoming)
      ensures r.Success? ==> TakesForeign(task, userId, incoming, r.value) && r.value == Merged(task, userId, incoming)
      ensures r.Failure? ==>
                exists i: nat :: IsFirstRefusal(facts, task.body, userId, incoming, i, r.error)
    {
      var decisions := task.decisions;
      for i := 0 to |task.body.participants|
        invariant |decisions| == |task.decisions|
        invariant forall j | 0 <= j < i :: SlotSigned(facts, task.body, userId, incoming[j], j)
        invariant forall j | 0 <= j < i :: decisions[j] == Merged(task, userId, incoming)[j]
        invariant forall j | i <= j < |decisions| :: decisions[j] == task.decisions[j]
      {
        if task.body.participants[i].userId != userId && incoming[i] != NO_DECISION {
          var checked := CheckDecision(facts, incoming[i], task.body.participants[i].userId, task.body);
          CheckMeans(facts, incoming[i], task.body.participants[i].userId, task.body);
          if checked.Failure? {
            assert IsFirstRefusal(facts, task.body, userId, incoming, i, checked.error);
            return Failure(checked.error);
          }
          decisions := decisions[i := incoming[i]];
        }
      }
      MergedMeans(task, userId, incoming);
      r := Success(decisions);
    }

    /** Second critical section: the outcome computed in the first is put on the copy that is stored now. */
    method SettleOutcome(userId: UserId, taskId: string, rejected: bool, ts: seq<Nanos>)
      returns (r: Result<seq<Sync>, ServiceError>)
      requires storage.Valid() && Tidy(storage.store, userId) && ':' !in taskId && |ts| >= 7 && Clock(storage.store, ts)
      modifies storage
      ensures storage.Valid() && Tidy(storage.store, userId)
      ensures SettleDone(old(storage.store), storage.store, userId, taskId, rejected, r)
      ensures OnlyUser(old(storage.store), storage.store, userId)
    {
      hide Sound, Partitioned, Clock, LaterThanAll, Written, Consistent, ValuesOk, TimestampsOk, IndexOk, TaskKey,
          OnlyUser, RoleOf,
           OldStatusRemoved, NewStatusAdded, IsListed, OthersSame, NameError, ValueAt;
      SoundIsUserOk(storage.store, userId);
      OnlyUserStays(storage.store, userId);
      TaskIsTask(storage.store, userId, taskId);
      var payload := InternalRead(userId, TaskKey(taskId));
      if payload.Failure? { return Failure(StorageFailed(payload.error)); }
      var task := payload.value.task;
      var task' := task.(status := if rejected then Rejected else Started);
      MovedOk(storage.store, userId, task, task', ts);
      var removed := RemoveTaskOldStatus(userId, task, ts);
      if removed.Failure? { return Failure(removed.error); }
      ghost var unlisted := storage.store;
      HalfwaySound(old(storage.store), userId, task, task', ts);
      assert ts[2..][1..] == ts[3..];
      StoreAndList(userId, task', ts[2..]);
      OnlyUserTwice(old(storage.store), unlisted, storage.store, userId);
      var outbox := [];
      if task.body.participants[0].userId == userId && |task.body.participants| > 2 {
        outbox := SendToOthers(task.body, task.decisions);
      }
      r := Success(outbox);
    }

    method SendToOthers(body: TaskBody, decisions: seq<Decision>) returns (outbox: seq<Sync>)
      requires |body.participants| > 0
      ensures outbox == ToOthers(body, decisions)
    {
      outbox := [];
      for i := 1 to |body.participants|
        invariant outbox == ToOthers(body, decisions)[..i - 1]
      {
        outbox := outbox + [Sync(body.participants[i].userId, body.taskId, Some(body), decisions)];
      }
    }
  }

  predicate Confirmable(s: TaskStore, userId: UserId, taskId: string, vote: Option<Vote>, clock: int) {
    && vote.Some? && VoteStatus(vote.value.isApproved, vote.value.isRejected).Some?
    && StoredTask(s, userId, taskId).Some?
    && StoredTask(s, userId, taskId).value.status == Waiting
    && clock <= StoredTask(s, userId, taskId).value.body.expirationTime
    && IsListed(s, userId, taskId)
  }

  /** One task changed to a new copy and stays listed; every other task is as it was. */
  ghost predicate Changed(s: TaskStore, s': TaskStore, userId: UserId, t': Task) {
    && StoredTask(s', userId, t'.body.taskId) == Some(t') && IsListed(s', userId, t'.body.taskId)
    && OthersSame(s, s', userId, t'.body.taskId)
  }

  ghost predicate ConfirmDone(s: TaskStore, s': TaskStore, userId: UserId, taskId: string, vote: Option<Vote>,
                              clock: int,
                              r: Result<Option<Sync>, ServiceError>)
    requires Sound(s, userId) && ':' !in taskId
  {
    if !Confirmable(s, userId, taskId, vote, clock) then r.Failure? && s' == s
    else
      StoredIsOk(s, userId, taskId);
      var t := StoredTask(s, userId, taskId).value;
      var Vote(isApproved, isRejected, reason) := vote.value;
      var t' := Confirmed(t, userId, isApproved, isRejected, reason);
      var votes := t.body.requireAgreement && VoteStatus(isApproved, isRejected) != Some(Ignored);
      && Changed(s, s', userId, t')
      && r == Success(if votes then Some(Sync(t.body.participants[0].userId, taskId, None, t'.decisions)) else None)
  }

  /** The stored copy carries the vote as the user gave it, and so does what is sent, to the initiator. */
  predicate VoteStored(s: TaskStore, s': TaskStore, userId: UserId, taskId: string, vote: Vote, sent: Option<Sync>) {
    && StoredTask(s, userId, taskId).Some? && StoredTask(s', userId, taskId).Some?
    && var t, t' := StoredTask(s, userId, taskId).value, StoredTask(s', userId, taskId).value;
    && |t.decisions| == |t.body.participants| > 0
    && VoteWritten(t, t', userId, vote.isApproved, vote.isRejected, vote.reason)
    && (sent.Some? <==> t.body.requireAgreement && (vote.isApproved || vote.isRejected))
    && (sent.Some? ==> sent.value == Sync(t.body.participants[0].userId, taskId, None, t'.decisions))
  }

  /** A user votes once: whatever is voted after a vote that succeeded, it fails for that reason. */
  lemma SecondVoteFails(s: TaskStore, s': TaskStore, userId: UserId, taskId: string, vote: Vote, clock: int,
                        r: Result<Option<Sync>, ServiceError>, again: Vote, clock': int, ts: seq<Nanos>)
    requires Sound(s, userId) && ':' !in taskId && |ts| >= 2 && r.Success?
    requires ConfirmDone(s, s', userId, taskId, Some(vote), clock, r)
    requires !(again.isApproved && again.isRejected)
    ensures !Confirmable(s', userId, taskId, Some(again), clock')
    ensures ConfirmError(s', userId, taskId, Some(again), clock', ts) == TaskFailed(AlreadyConfirmed)
  {
    StoredIsOk(s, userId, taskId);
    hide Sound, StoredTask, IsListed, OthersSame, OldStatusRemoved, NameError;
  }

  function ConfirmError(s: TaskStore, userId: UserId, taskId: string, vote: Option<Vote>, clock: int,
                        ts: seq<Nanos>): ServiceError
    requires |ts| >= 2
  {
    if vote.None? then TaskFailed(MissingDecision)
    else if VoteStatus(vote.value.isApproved, vote.value.isRejected).None? then TaskFailed(InvalidDecision)
    else match StoredTask(s, userId, taskId)
      case None => StorageFailed(NameError(s.cells, TaskName(userId, taskId)))
      case Some(t) =>
        if t.status != Waiting then TaskFailed(AlreadyConfirmed)
        else if clock > t.body.expirationTime then TaskFailed(Expired)
        else match OldStatusRemoved(s, userId, t, ts).1
          case Failure(error) => error
          case Success(_) => TaskFailed(TaskNotListed)
  }

  ghost predicate FinishDone(s: TaskStore, s': TaskStore, userId: UserId, taskId: string, r: Result<(), ServiceError>)
    requires Sound(s, userId) && ':' !in taskId
  {
    match StoredTask(s, userId, taskId)
    case None => r == Failure(StorageFailed(NameError(s.cells, TaskName(userId, taskId)))) && s' == s
    case Some(t) =>
      StoredIsOk(s, userId, taskId);
      if t.status != Started then r == Failure(TaskFailed(NotStarted)) && s' == s
      else if !IsListed(s, userId, taskId) then r.Failure? && s' == s
      else r.Success? && Changed(s, s', userId, t.(status := Finished))
  }

  /** A task was stored and is where it was in the lists, or in none; every other task is as it was. */
  ghost predicate StoredOnly(s: TaskStore, s': TaskStore, userId: UserId, t': Task) {
    && StoredTask(s', userId, t'.body.taskId) == Some(t')
    && (IsListed(s', userId, t'.body.taskId) <==> IsListed(s, userId, t'.body.taskId))
    && OthersSame(s, s', userId, t'.body.taskId)
  }

  /** Between moves, an insertion keeps the lists a partition; the new task is in none of them. */
  lemma InsertedIsTidy(s: TaskStore, s': TaskStore, userId: UserId, t: Task)
    requires Tidy(s, userId) && Sound(s', userId) && ':' !in t.body.taskId
    requires StoredTask(s, userId, t.body.taskId) == None && Inserted(s, s', userId, t)
    ensures Tidy(s', userId) && StoredOnly(s, s', userId, t) && !IsListed(s', userId, t.body.taskId)
  {
    SameEntries(s, s', userId);
    NoTaskNotListed(s, userId, t.body.taskId);
    hide Sound, CountIn, StoredTask, ProtocolHome, Partitioned, EntriesAt;
    StoredStaysListed(s, s', userId, t);
    forall x | ':' !in x && x != t.body.taskId ensures IsListed(s', userId, x) <==> IsListed(s, userId, x) {}
  }

  ghost predicate FirstCopyDone(s: TaskStore, s': TaskStore, userId: UserId, body: TaskBody, decisions: seq<Decision>,
                                facts: set<Fact>,
                                r: Result<bool, ServiceError>)
    requires |decisions| == |body.participants| > 0
  {
    if StoredTask(s, userId, body.taskId).Some? then r == Success(false) && s' == s
    else
      var d := decisions[0];
      var fact := Fact(body.participants[0].userId, body, d.isApproved, d.isRejected, d.reason);
      if !d.signed then r == Failure(TaskFailed(EmptySignature)) && s' == s
      else if fact !in facts then r == Failure(TaskFailed(InvalidSignature)) && s' == s
      else if d.isApproved && d.isRejected then r == Failure(TaskFailed(ApprovedAndRejected)) && s' == s
      else if !d.isApproved then r == Failure(TaskFailed(InitiatorDidNotApprove)) && s' == s
      else r == Success(true) && Inserted(s, s', userId, Task(body, decisions, Waiting))
  }

  ghost predicate MergeDone(s: TaskStore, s': TaskStore, userId: UserId, taskId: string, incoming: seq<Decision>,
                            facts: set<Fact>, clock: int,
                            r: Result<Option<bool>, ServiceError>)
    requires Sound(s, userId) && ':' !in taskId
    requires StoredTask(s, userId, taskId).Some?
             ==> |StoredTask(s, userId, taskId).value.body.participants| == |incoming|
  {
    match StoredTask(s, userId, taskId)
    case None => r == Failure(StorageFailed(NameError(s.cells, TaskName(userId, taskId)))) && s' == s
    case Some(t) =>
      StoredIsOk(s, userId, taskId);
      if !t.body.requireAgreement then r == Failure(TaskFailed(AgreementNotNeeded)) && s' == s
      else if clock > t.body.expirationTime then r == Failure(TaskFailed(Expired)) && s' == s
      else if !ForeignSigned(facts, t.body, userId, incoming) then
        && r.Failure? && r.error.TaskFailed? && s' == s
        && exists i: nat :: IsFirstRefusal(facts, t.body, userId, incoming, i, r.error.task)
      else
        var ds := Merged(t, userId, incoming);
        && StoredOnly(s, s', userId, t.(decisions := ds))
        && r == Success(if t.status != Started && t.status != Rejected && Decided(ds)
           then Some(Count(Rejections, ds) > 0) else None)
  }

  /** Whatever message arrives and whatever becomes of it, every foreign slot stays empty or signed. */
  lemma AnyMergeKeepsForeignSigned(s: TaskStore, s': TaskStore, userId: UserId, taskId: string,
                                   incoming: seq<Decision>, facts: set<Fact>, clock: int,
                                   r: Result<Option<bool>, ServiceError>)
    requires Sound(s, userId) && ':' !in taskId && StoredTask(s, userId, taskId).Some?
    requires var t := StoredTask(s, userId, taskId).value;
             |t.body.participants| == |incoming| && ForeignSigned(facts, t.body, userId, t.decisions)
    requires MergeDone(s, s', userId, taskId, incoming, facts, clock, r)
    ensures StoredTask(s', userId, taskId).Some?
    ensures var t' := StoredTask(s', userId, taskId).value; ForeignSigned(facts, t'.body, userId, t'.decisions)
  {
    StoredIsOk(s, userId, taskId);
    hide Sound, StoredTask, IsListed, OthersSame, ForeignSigned, Merged, Mergeable, Decided;
    var t := StoredTask(s, userId, taskId).value;
    MergeableMeans(facts, t.body, userId, incoming);
    if Mergeable(facts, t.body, userId, incoming) { MergingKeepsForeignSigned(facts, t, userId, incoming); }
  }

  ghost predicate SettleDone(s: TaskStore, s': TaskStore, userId: UserId, taskId: string, rejected: bool,
                             r: Result<seq<Sync>, ServiceError>)
    requires Sound(s, userId) && ':' !in taskId
  {
    match StoredTask(s, userId, taskId)
    case None => r == Failure(StorageFailed(NameError(s.cells, TaskName(userId, taskId)))) && s' == s
    case Some(t) =>
      StoredIsOk(s, userId, taskId);
      if !IsListed(s, userId, taskId) then r.Failure? && s' == s
      else
        && Changed(s, s', userId, t.(status := if rejected then Rejected else Started))
        && r == Success(if t.body.participants[0].userId == userId && |t.body.participants| > 2
           then ToOthers(t.body, t.decisions) else [])
  }

  /** One message to every participant but the initiator. */
  function ToOthers(body: TaskBody, decisions: seq<Decision>): (outbox: seq<Sync>)
    requires |body.participants| > 0
  {
    seq(|body.participants| - 1, i requires 0 <= i < |body.participants| - 1 =>
      Sync(body.participants[i + 1].userId, body.taskId, Some(body), decisions))
  }

  lemma NoTaskNotListed(s: TaskStore, userId: UserId, taskId: string)
    requires StoredTask(s, userId, taskId) == None
    ensures !IsListed(s, userId, taskId)
  {}

  lemma DecidedIs(ds: seq<Decision>)
    ensures Decided(ds) <==> Count(DecidedOnes, ds) == |ds| || Count(Rejections, ds) > 0
  {}

  /** Under a task's name there is a task or nothing. */
  lemma TaskIsTask(s: TaskStore, userId: UserId, taskId: string)
    requires Sound(s, userId) && ':' !in taskId
    ensures match ValueAt(s, TaskName(userId, taskId))
            case Some(value) =>
                value.TaskPayload? && StoredTask(s, userId, taskId) == Some(value.task) && TaskOk(value.task, taskId)
            case None => StoredTask(s, userId, taskId) == None
  {}

  lemma ViewIsValue(s: TaskStore, name: Name)
    requires Consistent(s)
    ensures name in View(s) <==> ValueAt(s, name).Some?
    ensures name in View(s) ==>
              ValueAt(s, name) == Some(View(s)[name])
                  && CurrentPath(s.cells, name, KeyPath(name, s.cells[name].timestamp))
  {}

  lemma SoundIsUserOk(s: TaskStore, userId: UserId)
    requires Sound(s, userId)
    ensures ':' !in userId
  {}

  lemma ListIsList(s: TaskStore, userId: UserId, list: ListKey)
    requires Sound(s, userId)
    ensures ValueAt(s, ListAt(userId, list)).Some?
            ==> ValueAt(s, ListAt(userId, list)) == Some(ListPayload(EntriesAt(s, userId, list)))
    ensures ValueAt(s, ListAt(userId, list)).None? ==> EntriesAt(s, userId, list) == []
  {}

  lemma FirstIndexIs(entries: seq<Entry>, taskId: string, index: nat)
    requires index <= |entries|
    requires index < |entries| ==> entries[index].taskId == taskId
    requires forall j | 0 <= j < index :: entries[j].taskId != taskId
    ensures FirstIndex(entries, taskId) == index
  {}
}
