/**
 The task lists by name: under which key of the storage, spelled out, the tasks of each status are found,
 and what a status change does there.
 */
module TaskListNames {
  import opened Wrappers
  import opened Strings
  import opened KeyPaths
  import opened VersionedStore
  import opened Tasks
  import opened TaskKeys
  import opened TaskLists

  function EntriesUnder(s: TaskStore, userId: UserId, key: string): (r: seq<Entry>) {
    match ValueAt(s, Name(userId, key))
    case Some(ListPayload(entries)) => entries
    case _ => []
  }

  function CountUnder(s: TaskStore, userId: UserId, key: string, taskId: string): nat {
    CountId(EntriesUnder(s, userId, key), taskId)
  }

  lemma StatusListsLookLike()
    ensures ListName(StatusList(Waiting)) == "_internal:tasks:status:waiting"
    ensures ListName(StatusList(Approved)) == "_internal:tasks:status:approved"
    ensures ListName(StatusList(Rejected)) == "_internal:tasks:status:rejected"
    ensures ListName(StatusList(Ignored)) == "_internal:tasks:status:ignored"
    ensures ListName(StatusList(Started)) == "_internal:tasks:status:started"
    ensures ListName(StatusList(Finished)) == "_internal:tasks:status:finished"
  {}

  lemma ProtocolListsLookLike(protocol: string)
    ensures ListName(ProtocolList(protocol, Waiting)) == "_internal:protocols:" + protocol + ":waiting"
    ensures ListName(ProtocolList(protocol, Approved)) == "_internal:protocols:" + protocol + ":approved"
    ensures ListName(ProtocolList(protocol, Rejected)) == "_internal:protocols:" + protocol + ":rejected"
    ensures ListName(ProtocolList(protocol, Ignored)) == "_internal:protocols:" + protocol + ":ignored"
    ensures ListName(ProtocolList(protocol, Started)) == "_internal:protocols:" + protocol + ":started"
    ensures ListName(ProtocolList(protocol, Finished)) == "_internal:protocols:" + protocol + ":finished"
  {
    assert ":" + "waiting" == ":waiting" && ":" + "approved" == ":approved" && ":" + "rejected" == ":rejected";
    assert ":" + "ignored" == ":ignored" && ":" + "started" == ":started" && ":" + "finished" == ":finished";
    ColonFirst("_internal:protocols:" + protocol, "waiting");
    ColonFirst("_internal:protocols:" + protocol, "approved");
    ColonFirst("_internal:protocols:" + protocol, "rejected");
    ColonFirst("_internal:protocols:" + protocol, "ignored");
    ColonFirst("_internal:protocols:" + protocol, "started");
    ColonFirst("_internal:protocols:" + protocol, "finished");
  }

  lemma ColonFirst(a: string, b: string)
    ensures a + ":" + b == a + (":" + b)
  {}

  lemma LatestLooksLike(list: ListKey)
    ensures LatestName(list) == ListName(list) + ":latest"
  {}

  lemma TaskLooksLike(taskId: string)
    ensures TaskKey(taskId) == "_internal:tasks:" + taskId
  {}

  predicate IsListedAs(s: TaskStore, userId: UserId, taskId: string, status: Status) {
    && ValueAt(s, Name(userId, "_internal:tasks:" + taskId)).Some?
    && ValueAt(s, Name(userId, "_internal:tasks:" + taskId)).value.TaskPayload?
    && ValueAt(s, Name(userId, "_internal:tasks:" + taskId)).value.task.status == status
    && IsListed(s, userId, taskId)
  }

  lemma ListedAsStored(s: TaskStore, userId: UserId, taskId: string, status: Status)
    ensures IsListedAs(s, userId, taskId, status) <==>
              && IsListed(s, userId, taskId) && StoredTask(s, userId, taskId).value.status == status
  {
    TaskLooksLike(taskId);
  }

  /** Whoever reads the list of a status finds the listed tasks of that status, each once, and no others. */
  lemma StatusListsByName(s: TaskStore, userId: UserId, taskId: string)
    requires Tidy(s, userId) && ':' !in taskId
    ensures CountUnder(s, userId, "_internal:tasks:status:waiting", taskId) ==
              if IsListedAs(s, userId, taskId, Waiting) then 1 else 0
    ensures CountUnder(s, userId, "_internal:tasks:status:approved", taskId) ==
              if IsListedAs(s, userId, taskId, Approved) then 1 else 0
    ensures CountUnder(s, userId, "_internal:tasks:status:rejected", taskId) ==
              if IsListedAs(s, userId, taskId, Rejected) then 1 else 0
    ensures CountUnder(s, userId, "_internal:tasks:status:ignored", taskId) ==
              if IsListedAs(s, userId, taskId, Ignored) then 1 else 0
    ensures CountUnder(s, userId, "_internal:tasks:status:started", taskId) ==
              if IsListedAs(s, userId, taskId, Started) then 1 else 0
    ensures CountUnder(s, userId, "_internal:tasks:status:finished", taskId) ==
              if IsListedAs(s, userId, taskId, Finished) then 1 else 0
  {
    hide Tidy, IsListed, IsListedAs, StoredTask, ValueAt, CountId, ListName, IsHome;
    StatusListsLookLike();
    forall status
      ensures CountIn(s, userId, StatusList(status), taskId) ==
                if IsListedAs(s, userId, taskId, status) then 1 else 0
    {
      ListedAsStored(s, userId, taskId, status);
      ListsPartitionTasks(s, userId, taskId, StatusList(status));
      HomeByStatus(s, userId, taskId, status);
    }
  }

  lemma HomeByStatus(s: TaskStore, userId: UserId, taskId: string, status: Status)
    ensures IsListed(s, userId, taskId) ==>
              (IsHome(userId, StoredTask(s, userId, taskId).value, StatusList(status)) <==>
                StoredTask(s, userId, taskId).value.status == status)
  {}

  /**
   The same for the lists of the protocols: before and after it runs, a task is under its protocol's name,
   and while it runs under the user's role in it.
   */
  lemma ProtocolListsByName(s: TaskStore, userId: UserId, taskId: string, k: nat, protocol: string)
    requires Tidy(s, userId) && ':' !in taskId && IsListed(s, userId, taskId)
    requires var ps := StoredTask(s, userId, taskId).value.body.participants;
             k < |ps| && ps[k].userId == userId && forall i | 0 <= i < |ps| && i != k :: ps[i].userId != userId
    ensures var t := StoredTask(s, userId, taskId).value;
            var here, role := protocol == t.body.protocolName, t.body.participants[k].role;
            && CountUnder(s, userId, "_internal:protocols:" + protocol + ":waiting", taskId) ==
               (if here && t.status == Waiting then 1 else 0)
            && CountUnder(s, userId, "_internal:protocols:" + protocol + ":approved", taskId) ==
               (if here && t.status == Approved then 1 else 0)
            && CountUnder(s, userId, "_internal:protocols:" + protocol + ":rejected", taskId) ==
               (if here && t.status == Rejected then 1 else 0)
            && CountUnder(s, userId, "_internal:protocols:" + protocol + ":ignored", taskId) ==
               (if here && t.status == Ignored then 1 else 0)
            && CountUnder(s, userId, "_internal:protocols:" + protocol + ":finished", taskId) ==
               (if here && t.status == Finished then 1 else 0)
            && CountUnder(s, userId, "_internal:protocols:" + protocol + ":started", taskId) ==
               (if protocol == t.body.protocolName + ":" + role && t.status == Started then 1 else 0)
  {
    assert StoredTask(s, userId, taskId).Some?;
    hide Tidy, IsListed, StoredTask, ValueAt, CountUnder, ListName;
    ProtocolListsLookLike(protocol);
    forall status { ProtocolListByName(s, userId, taskId, k, protocol, status); }
  }

  lemma ProtocolListByName(s: TaskStore, userId: UserId, taskId: string, k: nat, protocol: string, status: Status)
    requires Tidy(s, userId) && ':' !in taskId && IsListed(s, userId, taskId) && StoredTask(s, userId, taskId).Some?
    requires var ps := StoredTask(s, userId, taskId).value.body.participants;
             k < |ps| && ps[k].userId == userId && forall i | 0 <= i < |ps| && i != k :: ps[i].userId != userId
    ensures var t := StoredTask(s, userId, taskId).value;
            var name, role := t.body.protocolName, t.body.participants[k].role;
            CountUnder(s, userId, ListName(ProtocolList(protocol, status)), taskId) ==
              if status == t.status && protocol == (if status == Started then name + ":" + role else name) then 1 else 0
  {
    hide Tidy, IsListed, StoredTask, CountId, ListName, EntriesUnder, EntriesAt;
    var t := StoredTask(s, userId, taskId).value;
    var name, role := t.body.protocolName, t.body.participants[k].role;
    assert name + "" == name && name + (":" + role) == name + ":" + role;
    ProtocolListsAreByRole(s, userId, taskId, k, protocol, status);
    UnderIsAt(s, userId, ProtocolList(protocol, status));
  }

  /** An entry's path is that of the list's name with `:latest`, and reads the id of the task. */
  lemma EntriesByName(s: TaskStore, userId: UserId, list: ListKey, key: string, i: nat)
    requires Sound(s, userId) && key == ListName(list) && i < |EntriesUnder(s, userId, key)|
    ensures var e := EntriesUnder(s, userId, key)[i];
            && e.keyPath == userId + "::" + key + ":latest@" + PrintInt(TimeOf(e))
            && ReadsAs(s, e.keyPath, IdPayload(e.taskId))
  {
    hide KeyPath, TimestampOfPath, EntriesAt, LatestName, ListName, ValueAt;
    assert EntriesUnder(s, userId, key) == EntriesAt(s, userId, list) by { UnderIsAt(s, userId, list); }
    SoundLists(s, userId, list);
    var e := EntriesAt(s, userId, list)[i];
    assert EntryOk(s.versions, LatestAt(userId, list), e);
    LatestPath(userId, list, TimeOf(e));
  }

  lemma UnderIsAt(s: TaskStore, userId: UserId, list: ListKey)
    ensures EntriesUnder(s, userId, ListName(list)) == EntriesAt(s, userId, list)
  {
    hide ListName;
  }

  lemma LatestPath(userId: UserId, list: ListKey, now: int)
    ensures KeyPath(LatestAt(userId, list), now) == userId + "::" + ListName(list) + ":latest@" + PrintInt(now)
  {
    hide KeyPath, ListName, PrintInt;
    PathLooksLike(LatestAt(userId, list), now);
    LatestLooksLike(list);
    var a, b := userId + "::" + ListName(list), PrintInt(now);
    assert userId + "::" + (ListName(list) + ":latest") == a + ":latest";
    assert a + ":latest" + "@" + b == a + ":latest@" + b;
  }

  // ---------------------------------------------------------------- what a status change does, by name

  /** The entry is at the end of the list, and its path is the one that the list's latest name was just given. */
  predicate AppendedUnder(s: TaskStore, s': TaskStore, userId: UserId, key: string, taskId: string, now: int) {
    && EntriesUnder(s', userId, key) == EntriesUnder(s, userId, key)
       + [Entry(userId + "::" + key + ":latest@" + PrintInt(now), taskId)]
    && ValueAt(s', Name(userId, key + ":latest")) == Some(IdPayload(taskId))
  }

  /** The task's first entry is gone from the list. */
  predicate RemovedUnder(s: TaskStore, s': TaskStore, userId: UserId, key: string, taskId: string) {
    var before := EntriesUnder(s, userId, key);
    var index := FirstIndex(before, taskId);
    index < |before| && EntriesUnder(s', userId, key) == before[..index] + before[index + 1..]
  }

  /** In both lists of a status, each under its text. */
  predicate AddedAs(s: TaskStore, s': TaskStore, userId: UserId, protocol: string, text: string, taskId: string,
                    ts: seq<Nanos>)
    requires |ts| >= 4
  {
    && AppendedUnder(s, s', userId, "_internal:protocols:" + protocol + ":" + text, taskId, ts[0])
    && AppendedUnder(s, s', userId, "_internal:tasks:status:" + text, taskId, ts[2])
  }

  predicate RemovedAs(s: TaskStore, s': TaskStore, userId: UserId, protocol: string, text: string, taskId: string) {
    && RemovedUnder(s, s', userId, "_internal:protocols:" + protocol + ":" + text, taskId)
    && RemovedUnder(s, s', userId, "_internal:tasks:status:" + text, taskId)
  }

  /** A task is added to the two lists of its status, which are called by these names. */
  predicate AddedByName(s: TaskStore, s': TaskStore, userId: UserId, t: Task, ts: seq<Nanos>)
    requires |ts| >= 4
  {
    var protocol, id := t.body.protocolName, t.body.taskId;
    match t.status
    case Waiting => AddedAs(s, s', userId, protocol, "waiting", id, ts)
    case Approved => AddedAs(s, s', userId, protocol, "approved", id, ts)
    case Rejected => AddedAs(s, s', userId, protocol, "rejected", id, ts)
    case Ignored => AddedAs(s, s', userId, protocol, "ignored", id, ts)
    case Started =>
      AddedAs(s, s', userId, protocol + ":" + RoleOf(t.body.participants, userId), "started", id, ts)
    case Finished => AddedAs(s, s', userId, protocol, "finished", id, ts)
  }

  /** A task is taken out of the two lists of its status. */
  predicate RemovedByName(s: TaskStore, s': TaskStore, userId: UserId, t: Task) {
    var protocol, id := t.body.protocolName, t.body.taskId;
    match t.status
    case Waiting => RemovedAs(s, s', userId, protocol, "waiting", id)
    case Approved => RemovedAs(s, s', userId, protocol, "approved", id)
    case Rejected => RemovedAs(s, s', userId, protocol, "rejected", id)
    case Ignored => RemovedAs(s, s', userId, protocol, "ignored", id)
    case Started => RemovedAs(s, s', userId, protocol + ":" + RoleOf(t.body.participants, userId), "started", id)
    case Finished => RemovedAs(s, s', userId, protocol, "finished", id)
  }

  /** Adding to one list leaves the other lists, and what their latest names hold, as they were. */
  lemma AddedElsewhere(s: TaskStore, userId: UserId, list: ListKey, taskId: string, first: int, second: int, k: ListKey)
    requires k != list
    ensures var s' := AddedToList(s, userId, list, taskId, first, second);
            && EntriesAt(s', userId, k) == EntriesAt(s, userId, k)
            && ValueAt(s', LatestAt(userId, k)) == ValueAt(s, LatestAt(userId, k))
  {
    hide ListName, LatestName, ValueAt, Written, KeyPath;
    if ListName(k) == ListName(list) { ListNamesDiffer(k, list); }
    if LatestName(k) == LatestName(list) { LatestNamesDiffer(k, list); }
    ListIsNotLatest(k, list);
    ListIsNotLatest(list, k);
    var s1 := Written(s, LatestAt(userId, list), IdPayload(taskId), first);
    var entries := EntriesAt(s1, userId, list) + [Entry(KeyPath(LatestAt(userId, list), first), taskId)];
    ValueAfter(s, LatestAt(userId, list), IdPayload(taskId), first, ListAt(userId, k));
    ValueAfter(s, LatestAt(userId, list), IdPayload(taskId), first, LatestAt(userId, k));
    ValueAfter(s1, ListAt(userId, list), ListPayload(entries), second, ListAt(userId, k));
    ValueAfter(s1, ListAt(userId, list), ListPayload(entries), second, LatestAt(userId, k));
  }

  lemma LatestNamesDiffer(a: ListKey, b: ListKey)
    requires LatestName(a) == LatestName(b)
    ensures a == b
  {
    hide ListName;
    assert LatestName(a)[..|ListName(a)|] == ListName(a) && LatestName(b)[..|ListName(b)|] == ListName(b);
    ListNamesDiffer(a, b);
  }

  lemma AddedHere(s: TaskStore, userId: UserId, list: ListKey, taskId: string, first: int, second: int)
    ensures AppendedUnder(s, AddedToList(s, userId, list, taskId, first, second), userId, ListName(list), taskId, first)
  {
    hide ListName, LatestName, ValueAt, Written, KeyPath, EntriesUnder;
    ListIsNotLatest(list, list);
    LatestLooksLike(list);
    LatestPath(userId, list, first);
    var s' := AddedToList(s, userId, list, taskId, first, second);
    var s1 := Written(s, LatestAt(userId, list), IdPayload(taskId), first);
    var entries := EntriesAt(s1, userId, list) + [Entry(KeyPath(LatestAt(userId, list), first), taskId)];
    ValueAfter(s, LatestAt(userId, list), IdPayload(taskId), first, ListAt(userId, list));
    ValueAfter(s, LatestAt(userId, list), IdPayload(taskId), first, LatestAt(userId, list));
    ValueAfter(s1, ListAt(userId, list), ListPayload(entries), second, ListAt(userId, list));
    ValueAfter(s1, ListAt(userId, list), ListPayload(entries), second, LatestAt(userId, list));
    UnderIsAt(s, userId, list);
    UnderIsAt(s', userId, list);
  }

  /** The names of a task's two lists, for each status. */
  predicate AreNames(userId: UserId, t: Task, protocol: string, text: string) {
    && ListName(ProtocolHome(userId, t)) == "_internal:protocols:" + protocol + ":" + text
    && ListName(StatusList(t.status)) == "_internal:tasks:status:" + text
  }

  lemma NamesByStatus(userId: UserId, t: Task)
    ensures var protocol := t.body.protocolName;
            match t.status
            case Waiting => AreNames(userId, t, protocol, "waiting")
            case Approved => AreNames(userId, t, protocol, "approved")
            case Rejected => AreNames(userId, t, protocol, "rejected")
            case Ignored => AreNames(userId, t, protocol, "ignored")
            case Started => AreNames(userId, t, protocol + ":" + RoleOf(t.body.participants, userId), "started")
            case Finished => AreNames(userId, t, protocol, "finished")
  {
    hide RoleOf;
  }

  lemma NewStatusAppends(s: TaskStore, userId: UserId, t: Task, ts: seq<Nanos>)
    requires |ts| >= 4
    ensures var s', id := NewStatusAdded(s, userId, t, ts), t.body.taskId;
            && AppendedUnder(s, s', userId, ListName(ProtocolHome(userId, t)), id, ts[0])
            && AppendedUnder(s, s', userId, ListName(StatusList(t.status)), id, ts[2])
  {
    var p, q, id := ProtocolHome(userId, t), StatusList(t.status), t.body.taskId;
    assert p != q;
    hide ListName, LatestName, ValueAt, EntriesUnder, EntriesAt, AddedToList, ProtocolHome, PrintInt;
    var s1 := AddedToList(s, userId, p, id, ts[0], ts[1]);
    var s2 := AddedToList(s1, userId, q, id, ts[2], ts[3]);
    AddedHere(s, userId, p, id, ts[0], ts[1]);
    AddedElsewhere(s1, userId, q, id, ts[2], ts[3], p);
    AddedElsewhere(s, userId, p, id, ts[0], ts[1], q);
    AddedHere(s1, userId, q, id, ts[2], ts[3]);
    UnderIsAt(s, userId, q);
    UnderIsAt(s1, userId, q);
    UnderIsAt(s1, userId, p);
    UnderIsAt(s2, userId, p);
    LatestLooksLike(p);
  }

  /** What is written for a new status is found under the names of that status, and of no other. */
  lemma NewStatusByName(s: TaskStore, userId: UserId, t: Task, ts: seq<Nanos>)
    requires |ts| >= 4
    ensures AddedByName(s, NewStatusAdded(s, userId, t, ts), userId, t, ts)
  {
    hide ListName, AppendedUnder, NewStatusAdded, ProtocolHome, RoleOf;
    NewStatusAppends(s, userId, t, ts);
    NamesByStatus(userId, t);
  }

  lemma UnlistedHere(s: TaskStore, userId: UserId, list: ListKey, taskId: string, now: int)
    requires Unlisted(s, userId, list, taskId, now).Success?
    ensures var s' := Unlisted(s, userId, list, taskId, now).value;
            && RemovedUnder(s, s', userId, ListName(list), taskId)
            && forall k | k != list :: EntriesAt(s', userId, k) == EntriesAt(s, userId, k)
  {
    hide ListName, Written, FirstIndex;
    var entries := EntriesAt(s, userId, list);
    var index := FirstIndex(entries, taskId);
    var fewer := entries[..index] + entries[index + 1..];
    forall k
      ensures ValueAt(Written(s, ListAt(userId, list), ListPayload(fewer), now), ListAt(userId, k)) ==
                if k == list then Some(ListPayload(fewer)) else ValueAt(s, ListAt(userId, k))
    {
      if ListName(k) == ListName(list) { ListNamesDiffer(k, list); }
      ValueAfter(s, ListAt(userId, list), ListPayload(fewer), now, ListAt(userId, k));
    }
  }

  lemma OldStatusRemoves(s: TaskStore, userId: UserId, t: Task, ts: seq<Nanos>)
    requires |ts| >= 2 && OldStatusRemoved(s, userId, t, ts).1.Success?
    ensures var s', id := OldStatusRemoved(s, userId, t, ts).0, t.body.taskId;
            && RemovedUnder(s, s', userId, ListName(ProtocolHome(userId, t)), id)
            && RemovedUnder(s, s', userId, ListName(StatusList(t.status)), id)
  {
    var p, q, id := ProtocolHome(userId, t), StatusList(t.status), t.body.taskId;
    assert p != q;
    hide ListName, EntriesUnder, EntriesAt, Unlisted, ProtocolHome, FirstIndex;
    UnlistedHere(s, userId, p, id, ts[0]);
    var s1 := Unlisted(s, userId, p, id, ts[0]).value;
    UnlistedHere(s1, userId, q, id, ts[1]);
    var s2 := Unlisted(s1, userId, q, id, ts[1]).value;
    UnderIsAt(s, userId, q);
    UnderIsAt(s1, userId, q);
    UnderIsAt(s1, userId, p);
    UnderIsAt(s2, userId, p);
  }

  lemma OldStatusByName(s: TaskStore, userId: UserId, t: Task, ts: seq<Nanos>)
    requires |ts| >= 2 && OldStatusRemoved(s, userId, t, ts).1.Success?
    ensures RemovedByName(s, OldStatusRemoved(s, userId, t, ts).0, userId, t)
  {
    hide ListName, RemovedUnder, OldStatusRemoved, ProtocolHome, RoleOf;
    OldStatusRemoves(s, userId, t, ts);
    NamesByStatus(userId, t);
  }
}
