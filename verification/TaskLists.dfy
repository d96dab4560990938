/**
 Tasks and task lists as they lie in the storage, and what every move of a task keeps.

 A task moves by being taken out of the two lists of its old status, rewritten, and added to
 the two lists of its new status.  In between it is in neither, so the invariant speaks of the
 times at which nobody is moving a task, which are those at which the task mutex is free.
 */
module TaskLists {
  import opened Wrappers
  import opened KeyPaths
  import opened VersionedStore
  import opened BasicStorage
  import opened Tasks
  import opened TaskKeys

  datatype Entry = Entry(keyPath: string, taskId: string)

  /** What the core stores under its internal names. */
  datatype Payload =
    | TaskPayload(task: Task)
    | ListPayload(entries: seq<Entry>)
    | IdPayload(taskId: string)
    | Bytes(bytes: seq<bv8>)

  type TaskStore = Store<Payload>

  datatype ServiceError = StorageFailed(storage: StorageError) | TaskFailed(task: TaskError)

  function ValueAt(s: TaskStore, name: Name): (r: Option<Payload>) {
    if IsLive(s, name) && Version(name, s.cells[name].timestamp) in s.versions
    then Some(s.versions[Version(name, s.cells[name].timestamp)])
    else None
  }

  function TaskName(userId: UserId, taskId: string): Name {
    Name(userId, TaskKey(taskId))
  }

  function ListAt(userId: UserId, list: ListKey): Name {
    Name(userId, ListName(list))
  }

  function LatestAt(userId: UserId, list: ListKey): Name {
    Name(userId, LatestName(list))
  }

  function StoredTask(s: TaskStore, userId: UserId, taskId: string): (r: Option<Task>) {
    match ValueAt(s, TaskName(userId, taskId))
    case Some(TaskPayload(t)) => Some(t)
    case _ => None
  }

  /** A list that was never written is empty. */
  function EntriesAt(s: TaskStore, userId: UserId, list: ListKey): (r: seq<Entry>) {
    match ValueAt(s, ListAt(userId, list))
    case Some(ListPayload(entries)) => entries
    case _ => []
  }

  function CountId(entries: seq<Entry>, taskId: string): (n: nat) {
    if entries == [] then 0
    else CountId(entries[..|entries| - 1], taskId) + if entries[|entries| - 1].taskId == taskId then 1 else 0
  }

  function CountIn(s: TaskStore, userId: UserId, list: ListKey, taskId: string): nat {
    CountId(EntriesAt(s, userId, list), taskId)
  }

  /** A stored task that has been added to the list of its status. */
  predicate IsListed(s: TaskStore, userId: UserId, taskId: string) {
    match StoredTask(s, userId, taskId)
    case Some(t) => CountIn(s, userId, StatusList(t.status), taskId) > 0
    case None => false
  }

  // ---------------------------------------------------------------- the invariant

  predicate TaskOk(t: Task, taskId: string) {
    t.body.taskId == taskId && |t.decisions| == |t.body.participants| > 0
  }

  ghost predicate TasksTyped(s: TaskStore, userId: UserId) {
    forall taskId | ':' !in taskId :: ValueAt(s, TaskName(userId, taskId)).Some? ==>
      StoredTask(s, userId, taskId).Some? && TaskOk(StoredTask(s, userId, taskId).value, taskId)
  }

  ghost predicate ListsTyped(s: TaskStore, userId: UserId) {
    forall list :: ValueAt(s, ListAt(userId, list)).Some? ==> ValueAt(s, ListAt(userId, list)).value.ListPayload?
  }

  /** The entry's key path is that of a version of the list's latest name, whose value is the task id. */
  ghost predicate EntryOk(versions: map<Version, Payload>, latest: Name, e: Entry) {
    && ':' !in e.taskId
    && TimestampOfPath(e.keyPath).Some?
    && var v := Version(latest, TimestampOfPath(e.keyPath).value);
       v in versions && versions[v] == IdPayload(e.taskId) && PathOf(v) == e.keyPath
  }

  function TimeOf(e: Entry): int {
    if TimestampOfPath(e.keyPath).Some? then TimestampOfPath(e.keyPath).value else 0
  }

  ghost predicate ListOk(versions: map<Version, Payload>, latest: Name, entries: seq<Entry>) {
    && (forall e | e in entries :: EntryOk(versions, latest, e))
    && (forall i, j | 0 <= i < j < |entries| :: TimeOf(entries[i]) < TimeOf(entries[j]))
  }

  ghost predicate ListsOk(s: TaskStore, userId: UserId) {
    forall list :: ListOk(s.versions, LatestAt(userId, list), EntriesAt(s, userId, list))
  }

  /** A listed task is once in each of its two lists and in no other; any other id is in none. */
  ghost predicate ListedRight(s: TaskStore, userId: UserId, taskId: string) {
    forall list :: CountIn(s, userId, list, taskId) ==
      if IsListed(s, userId, taskId) && IsHome(userId, StoredTask(s, userId, taskId).value, list) then 1 else 0
  }

  ghost predicate Partitioned(s: TaskStore, userId: UserId) {
    forall taskId | ':' !in taskId :: ListedRight(s, userId, taskId)
  }

  /** What holds all the time, even while a task is being moved. */
  ghost predicate Sound(s: TaskStore, userId: UserId) {
    && Consistent(s) && ':' !in userId
    && TasksTyped(s, userId) && ListsTyped(s, userId) && ListsOk(s, userId)
  }

  ghost predicate Tidy(s: TaskStore, userId: UserId) {
    Sound(s, userId) && Partitioned(s, userId)
  }

  // ---------------------------------------------------------------- the clock

  ghost predicate LaterThanAll(s: TaskStore, t: int) {
    forall v | v in s.versions :: v.timestamp < t
  }

  /** The readings that a handler will take: strictly increasing, and later than everything stored. */
  ghost predicate Clock(s: TaskStore, ts: seq<Nanos>) {
    && (forall i, j | 0 <= i < j < |ts| :: ts[i] < ts[j])
    && (ts != [] ==> LaterThanAll(s, ts[0]))
  }

  lemma ClockTicks(s: TaskStore, ts: seq<Nanos>, name: Name, value: Payload)
    requires Clock(s, ts) && ts != []
    ensures Fresh(s, name, ts[0])
    ensures Clock(Written(s, name, value, ts[0]), ts[1..])
  {}

  lemma LaterIsFresh(s: TaskStore, name: Name, now: int)
    requires LaterThanAll(s, now)
    ensures Fresh(s, name, now)
  {}

  /** A write changes the value of its name and of no other. */
  lemma ValueAfter(s: TaskStore, name: Name, value: Payload, now: int, other: Name)
    ensures ValueAt(Written(s, name, value, now), other) == if other == name then Some(value) else ValueAt(s, other)
  {}

  // ---------------------------------------------------------------- writing one list, its latest name, or a task


  lemma VersionsGrow(versions: map<Version, Payload>, v: Version, value: Payload, latest: Name, entries: seq<Entry>)
    requires v !in versions && ListOk(versions, latest, entries)
    ensures ListOk(versions[v := value], latest, entries)
  {}

  /** Rewriting one list leaves every task and every other list as it was. */
  lemma ListWritten(s: TaskStore, userId: UserId, list: ListKey, entries: seq<Entry>, now: Nanos)
    requires Sound(s, userId) && Fresh(s, ListAt(userId, list), now)
             && ListOk(s.versions, LatestAt(userId, list), entries)
    ensures var s' := Written(s, ListAt(userId, list), ListPayload(entries), now);
            && Sound(s', userId)
            && (forall taskId | ':' !in taskId :: StoredTask(s', userId, taskId) == StoredTask(s, userId, taskId))
            && (forall k :: EntriesAt(s', userId, k) == if k == list then entries else EntriesAt(s, userId, k))
  {
    hide TaskKey, ListName, LatestName, Consistent, Written, ValueAt, ListOk;
    var name := ListAt(userId, list);
    var s' := Written(s, name, ListPayload(entries), now);
    assert Version(name, now) !in s.versions;
    WrittenOk(s, name, ListPayload(entries), now);
    forall taskId | ':' !in taskId ensures ValueAt(s', TaskName(userId, taskId))
        == ValueAt(s, TaskName(userId, taskId)) {
      TaskIsNoList(taskId, list);
      ValueAfter(s, name, ListPayload(entries), now, TaskName(userId, taskId));
    }
    forall k
      ensures ValueAt(s', ListAt(userId, k)) == if k == list then Some(ListPayload(entries))
              else ValueAt(s, ListAt(userId, k))
    {
      if ListName(k) == ListName(list) { ListNamesDiffer(k, list); }
      ValueAfter(s, name, ListPayload(entries), now, ListAt(userId, k));
    }
    WrittenVersions(s, name, ListPayload(entries), now);
    forall k ensures ListOk(s'.versions, LatestAt(userId, k), EntriesAt(s', userId, k)) {
      VersionsGrow(s.versions, Version(name, now), ListPayload(entries), LatestAt(userId, k), if k == list then entries
          else EntriesAt(s, userId, k));
    }
  }

  lemma WrittenVersions(s: TaskStore, name: Name, value: Payload, now: int)
    ensures Written(s, name, value, now).versions == s.versions[Version(name, now) := value]
  {}

  /** Writing the latest name of a list changes neither tasks nor lists. */
  lemma LatestWritten(s: TaskStore, userId: UserId, list: ListKey, taskId: string, now: Nanos)
    requires Sound(s, userId) && Fresh(s, LatestAt(userId, list), now)
    ensures var s' := Written(s, LatestAt(userId, list), IdPayload(taskId), now);
            && Sound(s', userId)
            && (forall x | ':' !in x :: StoredTask(s', userId, x) == StoredTask(s, userId, x))
            && (forall k :: ValueAt(s', ListAt(userId, k)) == ValueAt(s, ListAt(userId, k)))
            && (forall k :: EntriesAt(s', userId, k) == EntriesAt(s, userId, k))
  {
    hide TaskKey, ListName, LatestName, Consistent, Written, ValueAt, ListOk;
    var name := LatestAt(userId, list);
    var s' := Written(s, name, IdPayload(taskId), now);
    assert Version(name, now) !in s.versions;
    WrittenOk(s, name, IdPayload(taskId), now);
    forall x | ':' !in x ensures ValueAt(s', TaskName(userId, x)) == ValueAt(s, TaskName(userId, x)) {
      TaskIsNoList(x, list);
      ValueAfter(s, name, IdPayload(taskId), now, TaskName(userId, x));
    }
    forall k ensures ValueAt(s', ListAt(userId, k)) == ValueAt(s, ListAt(userId, k)) {
      ListIsNotLatest(k, list);
      ValueAfter(s, name, IdPayload(taskId), now, ListAt(userId, k));
    }
    WrittenVersions(s, name, IdPayload(taskId), now);
    forall k ensures ListOk(s'.versions, LatestAt(userId, k), EntriesAt(s', userId, k)) {
      VersionsGrow(s.versions, Version(name, now), IdPayload(taskId), LatestAt(userId, k), EntriesAt(s, userId, k));
    }
  }

  /** Storing a task changes no list and no other task. */
  lemma TaskWritten(s: TaskStore, userId: UserId, t: Task, now: Nanos)
    requires Sound(s, userId) && Fresh(s, TaskName(userId, t.body.taskId), now) && TaskOk(t, t.body.taskId)
             && ':' !in t.body.taskId
    ensures var s' := Written(s, TaskName(userId, t.body.taskId), TaskPayload(t), now);
            && Sound(s', userId)
            && (forall x | ':' !in x :: StoredTask(s', userId, x) == if x == t.body.taskId then Some(t)
               else StoredTask(s, userId, x))
            && (forall k :: EntriesAt(s', userId, k) == EntriesAt(s, userId, k))
  {
    hide TaskKey, ListName, LatestName, Consistent, Written, ValueAt, ListOk;
    var name := TaskName(userId, t.body.taskId);
    var s' := Written(s, name, TaskPayload(t), now);
    assert Version(name, now) !in s.versions;
    WrittenOk(s, name, TaskPayload(t), now);
    forall x | ':' !in x
      ensures ValueAt(s', TaskName(userId, x)) == if x == t.body.taskId then Some(TaskPayload(t))
              else ValueAt(s, TaskName(userId, x))
    {
      if TaskKey(x) == TaskKey(t.body.taskId) { TaskKeysDiffer(x, t.body.taskId); }
      ValueAfter(s, name, TaskPayload(t), now, TaskName(userId, x));
    }
    forall k ensures ValueAt(s', ListAt(userId, k)) == ValueAt(s, ListAt(userId, k)) {
      TaskIsNoList(t.body.taskId, k);
      ValueAfter(s, name, TaskPayload(t), now, ListAt(userId, k));
    }
    WrittenVersions(s, name, TaskPayload(t), now);
    forall k ensures ListOk(s'.versions, LatestAt(userId, k), EntriesAt(s', userId, k)) {
      VersionsGrow(s.versions, Version(name, now), TaskPayload(t), LatestAt(userId, k), EntriesAt(s, userId, k));
    }
  }

  // ---------------------------------------------------------------- taking a task out of a list, and adding it

  function FirstIndex(entries: seq<Entry>, taskId: string): (r: nat)
    ensures r <= |entries|
    ensures r < |entries| ==> entries[r].taskId == taskId
    ensures forall j | 0 <= j < r :: entries[j].taskId != taskId
  {
    if entries == [] then 0
    else
      var before := FirstIndex(entries[..|entries| - 1], taskId);
      if before < |entries| - 1 then before
      else if entries[|entries| - 1].taskId == taskId then |entries| - 1
      else |entries|
  }

  /** The first entry of the task goes; a list that was never written, or has no such entry, is an error. */
  function Unlisted(s: TaskStore, userId: UserId, list: ListKey, taskId: string, now: int)
    : (r: Result<TaskStore, ServiceError>) {
    var entries := EntriesAt(s, userId, list);
    var index := FirstIndex(entries, taskId);
    if ValueAt(s, ListAt(userId, list)).None? then Failure(StorageFailed(NameError(s.cells, ListAt(userId, list))))
    else if index == |entries| then Failure(TaskFailed(TaskNotListed))
    else Success(Written(s, ListAt(userId, list), ListPayload(entries[..index] + entries[index + 1..]), now))
  }

  /** A new version of the list's latest name, and then an entry with its path at the end of the list. */
  function AddedToList(s: TaskStore, userId: UserId, list: ListKey, taskId: string, first: int,
                       second: int): (s': TaskStore) {
    var s1 := Written(s, LatestAt(userId, list), IdPayload(taskId), first);
    var entry := Entry(KeyPath(LatestAt(userId, list), first), taskId);
    Written(s1, ListAt(userId, list), ListPayload(EntriesAt(s1, userId, list) + [entry]), second)
  }

  lemma {:induction false} CountAppend(a: seq<Entry>, b: seq<Entry>, taskId: string)
    ensures CountId(a + b, taskId) == CountId(a, taskId) + CountId(b, taskId)
  {
    if b == [] {
      assert a + b == a;
    } else {
      assert (a + b)[..|a + b| - 1] == a + b[..|b| - 1];
      CountAppend(a, b[..|b| - 1], taskId);
    }
  }

  lemma CountSingle(e: Entry, taskId: string)
    ensures CountId([e], taskId) == if e.taskId == taskId then 1 else 0
  {}

  lemma CountWithout(entries: seq<Entry>, index: nat, taskId: string)
    requires index < |entries|
    ensures CountId(entries[..index] + entries[index + 1..], taskId) ==
            CountId(entries, taskId) - if entries[index].taskId == taskId then 1 else 0
  {
    var before, after := entries[..index], entries[index + 1..];
    assert entries == (before + [entries[index]]) + after;
    CountAppend(before, after, taskId);
    CountAppend(before + [entries[index]], after, taskId);
    CountAppend(before, [entries[index]], taskId);
    CountSingle(entries[index], taskId);
  }

  lemma {:induction false} CountPositive(entries: seq<Entry>, taskId: string)
    ensures CountId(entries, taskId) > 0 <==> FirstIndex(entries, taskId) < |entries|
  {
    if entries != [] { CountPositive(entries[..|entries| - 1], taskId); }
  }

  ghost predicate SameStored(s: TaskStore, s': TaskStore, userId: UserId) {
    forall taskId | ':' !in taskId :: StoredTask(s', userId, taskId) == StoredTask(s, userId, taskId)
  }

  /** The counts after `taskId` went into (or, with `delta` negative, out of) one list. */
  ghost predicate CountsMove(s: TaskStore, s': TaskStore, userId: UserId, list: ListKey, taskId: string, delta: int) {
    forall k, x :: CountIn(s', userId, k, x) == CountIn(s, userId, k, x) + if k == list && x == taskId then delta else 0
  }

  lemma WithoutOk(versions: map<Version, Payload>, latest: Name, entries: seq<Entry>, index: nat)
    requires ListOk(versions, latest, entries) && index < |entries|
    ensures ListOk(versions, latest, entries[..index] + entries[index + 1..])
  {}

  /** Taking a task out succeeds exactly when it is there; it changes one count of one list. */
  lemma UnlistedOk(s: TaskStore, userId: UserId, list: ListKey, taskId: string, now: Nanos)
    requires Sound(s, userId) && LaterThanAll(s, now)
    ensures Unlisted(s, userId, list, taskId, now).Success? <==> CountIn(s, userId, list, taskId) > 0
    ensures match Unlisted(s, userId, list, taskId, now)
            case Failure(_) => true
            case Success(s') =>
                Sound(s', userId) && SameStored(s, s', userId) && CountsMove(s, s', userId, list, taskId, -1)
  {
    hide Written, Sound, CountId, FirstIndex, ValueAt, ListOk;
    var entries := EntriesAt(s, userId, list);
    CountPositive(entries, taskId);
    assert ValueAt(s, ListAt(userId, list)).None? ==> entries == [];
    assert CountId([], taskId) == 0 by { CountPositive([], taskId); }
    if ValueAt(s, ListAt(userId, list)).Some? && FirstIndex(entries, taskId) < |entries| {
      var index := FirstIndex(entries, taskId);
      SoundLists(s, userId, list);
      WithoutOk(s.versions, LatestAt(userId, list), entries, index);
      ListWritten(s, userId, list, entries[..index] + entries[index + 1..], now);
      forall x { CountWithout(entries, index, x); }
    }
  }

  lemma SoundLists(s: TaskStore, userId: UserId, list: ListKey)
    requires Sound(s, userId)
    ensures ListOk(s.versions, LatestAt(userId, list), EntriesAt(s, userId, list))
  {}

  /** The new entry is right and later than all the others. */
  lemma EntryAdded(s: TaskStore, userId: UserId, list: ListKey, entries: seq<Entry>, taskId: string, now: Nanos)
    requires ListOk(s.versions, LatestAt(userId, list), entries) && Fresh(s, LatestAt(userId, list), now)
             && ':' !in taskId
    ensures var latest := LatestAt(userId, list);
            ListOk(s.versions[Version(latest, now) := IdPayload(taskId)], latest, entries
                + [Entry(KeyPath(latest, now), taskId)])
  {
    hide KeyPath, TimestampOfPath;
    var latest := LatestAt(userId, list);
    var e := Entry(KeyPath(latest, now), taskId);
    PathGivesTimestamp(latest, now);
    VersionsGrow(s.versions, Version(latest, now), IdPayload(taskId), latest, entries);
    forall i | 0 <= i < |entries| ensures TimeOf(entries[i]) < now { assert EntryOk(s.versions, latest, entries[i]); }
  }

  /** Adding a task changes one count of one list. */
  lemma AddedOk(s: TaskStore, userId: UserId, list: ListKey, taskId: string, ts: seq<Nanos>)
    requires Sound(s, userId) && |ts| >= 2 && Clock(s, ts) && ':' !in taskId
    ensures var s' := AddedToList(s, userId, list, taskId, ts[0], ts[1]);
            Sound(s', userId) && SameStored(s, s', userId) && CountsMove(s, s', userId, list, taskId, 1)
                && Clock(s', ts[2..])
  {
    hide Written, Sound, CountId, ValueAt, ListOk, KeyPath, Clock;
    var latest := LatestAt(userId, list);
    var s1 := Written(s, latest, IdPayload(taskId), ts[0]);
    var entries := EntriesAt(s, userId, list);
    var e := Entry(KeyPath(latest, ts[0]), taskId);
    ClockFirst(s, ts);
    ClockTicks(s, ts, latest, IdPayload(taskId));
    ClockFirst(s1, ts[1..]);
    LatestWritten(s, userId, list, taskId, ts[0]);
    SoundLists(s, userId, list);
    WrittenVersions(s, latest, IdPayload(taskId), ts[0]);
    EntryAdded(s, userId, list, entries, taskId, ts[0]);
    ListWritten(s1, userId, list, entries + [e], ts[1]);
    ClockTicks(s1, ts[1..], ListAt(userId, list), ListPayload(entries + [e]));
    assert ts[1..][1..] == ts[2..];
    forall x ensures CountId(entries + [e], x) == CountId(entries, x) + if x == taskId then 1 else 0 {
      CountAppend(entries, [e], x);
      CountSingle(e, x);
    }
  }

  lemma ClockFirst(s: TaskStore, ts: seq<Nanos>)
    requires Clock(s, ts) && ts != []
    ensures LaterThanAll(s, ts[0])
  {}

  // ---------------------------------------------------------------- moving a task from one status to another

  /** Out of the protocol list first, then out of the status list; the first failure ends it. */
  function OldStatusRemoved(s: TaskStore, userId: UserId, t: Task, ts: seq<Nanos>)
    : (r: (TaskStore, Result<(), ServiceError>))
    requires |ts| >= 2
  {
    match Unlisted(s, userId, ProtocolHome(userId, t), t.body.taskId, ts[0])
    case Failure(error) => (s, Failure(error))
    case Success(s1) =>
      match Unlisted(s1, userId, StatusList(t.status), t.body.taskId, ts[1])
      case Failure(error) => (s1, Failure(error))
      case Success(s2) => (s2, Success(()))
  }

  function NewStatusAdded(s: TaskStore, userId: UserId, t: Task, ts: seq<Nanos>): (s': TaskStore)
    requires |ts| >= 4
  {
    AddedToList(AddedToList(s, userId, ProtocolHome(userId, t), t.body.taskId, ts[0], ts[1]),
                userId, StatusList(t.status), t.body.taskId, ts[2], ts[3])
  }

  function TaskStored(s: TaskStore, userId: UserId, t: Task, now: int): (s': TaskStore) {
    Written(s, TaskName(userId, t.body.taskId), TaskPayload(t), now)
  }

  /** What every handler that changes a status does to the storage. */
  function Moved(s: TaskStore, userId: UserId, t: Task, t': Task, ts: seq<Nanos>)
    : (r: (TaskStore, Result<(), ServiceError>))
    requires |ts| >= 7
  {
    var (removed, r) := OldStatusRemoved(s, userId, t, ts);
    if r.Failure? then (removed, r)
    else (NewStatusAdded(TaskStored(removed, userId, t', ts[2]), userId, t', ts[3..]), r)
  }

  /** No list holds this id, and every other id is where it was. */
  ghost predicate Homeless(s: TaskStore, s': TaskStore, userId: UserId, taskId: string) {
    forall k, x :: CountIn(s', userId, k, x) == if x == taskId then 0 else CountIn(s, userId, k, x)
  }

  /** The id is once in each of the task's two lists and in no other, and every other id is where it was. */
  ghost predicate Housed(s: TaskStore, s': TaskStore, userId: UserId, t: Task) {
    forall k, x :: CountIn(s', userId, k, x) ==
      if x != t.body.taskId then CountIn(s, userId, k, x) else if IsHome(userId, t, k) then 1 else 0
  }

  /** A task that is stored but not listed is not found in its first list, so nothing is written at all. */
  lemma UnlistedStays(s: TaskStore, userId: UserId, t: Task, ts: seq<Nanos>)
    requires Tidy(s, userId) && ':' !in t.body.taskId && StoredTask(s, userId, t.body.taskId) == Some(t)
    requires !IsListed(s, userId, t.body.taskId) && |ts| >= 2 && Clock(s, ts)
    ensures OldStatusRemoved(s, userId, t, ts).1.Failure? && OldStatusRemoved(s, userId, t, ts).0 == s
  {
    assert ListedRight(s, userId, t.body.taskId);
    assert CountIn(s, userId, ProtocolHome(userId, t), t.body.taskId) == 0;
    hide Sound, CountIn, Clock, ProtocolHome, IsListed, StoredTask, Unlisted, Partitioned, ListedRight;
    ClockFirst(s, ts);
    UnlistedOk(s, userId, ProtocolHome(userId, t), t.body.taskId, ts[0]);
  }

  /** A listed task is taken out of both its lists, and ends up in none. */
  lemma ListedLeaves(s: TaskStore, userId: UserId, t: Task, ts: seq<Nanos>)
    requires Tidy(s, userId) && ':' !in t.body.taskId && StoredTask(s, userId, t.body.taskId) == Some(t)
    requires IsListed(s, userId, t.body.taskId) && |ts| >= 2 && Clock(s, ts)
    ensures var (s', r) := OldStatusRemoved(s, userId, t, ts);
            r.Success? && Sound(s', userId) && SameStored(s, s', userId) && Homeless(s, s', userId, t.body.taskId)
                && Clock(s', ts[2..])
  {
    var id, home, list := t.body.taskId, ProtocolHome(userId, t), StatusList(t.status);
    assert ListedRight(s, userId, id);
    assert CountIn(s, userId, home, id) == 1;
    hide Sound, CountIn, Clock, ProtocolHome, IsListed, StoredTask, CountsMove, Unlisted, Partitioned, ListedRight,
        SameStored, Homeless;
    ClockFirst(s, ts);
    UnlistedOk(s, userId, home, id, ts[0]);
    var s1 := Unlisted(s, userId, home, id, ts[0]).value;
    UnlistedTicks(s, userId, home, id, ts);
    ClockFirst(s1, ts[1..]);
    CountMoves(s, s1, userId, home, id, -1, list);
    UnlistedOk(s1, userId, list, id, ts[1]);
    var s2 := Unlisted(s1, userId, list, id, ts[1]).value;
    UnlistedTicks(s1, userId, list, id, ts[1..]);
    assert ts[1..][1..] == ts[2..];
    SameStoredTwice(s, s1, s2, userId);
    TakenOutTwice(s, s1, s2, userId, t);
  }

  lemma SameStoredTwice(s: TaskStore, s1: TaskStore, s2: TaskStore, userId: UserId)
    requires SameStored(s, s1, userId) && SameStored(s1, s2, userId)
    ensures SameStored(s, s2, userId)
  {}

  lemma CountMoves(s: TaskStore, s': TaskStore, userId: UserId, list: ListKey, taskId: string, delta: int, k: ListKey)
    requires CountsMove(s, s', userId, list, taskId, delta)
    ensures CountIn(s', userId, k, taskId) == CountIn(s, userId, k, taskId) + if k == list then delta else 0
  {}

  lemma TakenOutTwice(s: TaskStore, s1: TaskStore, s2: TaskStore, userId: UserId, t: Task)
    requires StoredTask(s, userId, t.body.taskId) == Some(t) && IsListed(s, userId, t.body.taskId)
             && ListedRight(s, userId, t.body.taskId)
    requires CountsMove(s, s1, userId, ProtocolHome(userId, t), t.body.taskId, -1)
    requires CountsMove(s1, s2, userId, StatusList(t.status), t.body.taskId, -1)
    ensures Homeless(s, s2, userId, t.body.taskId)
  {}

  lemma UnlistedTicks(s: TaskStore, userId: UserId, list: ListKey, taskId: string, ts: seq<Nanos>)
    requires ts != [] && Clock(s, ts) && Unlisted(s, userId, list, taskId, ts[0]).Success?
    ensures Clock(Unlisted(s, userId, list, taskId, ts[0]).value, ts[1..])
  {}

  /** A task that is in no list is put into its two. */
  lemma NewStatusAddedOk(s: TaskStore, userId: UserId, t: Task, ts: seq<Nanos>)
    requires Sound(s, userId) && ':' !in t.body.taskId
    requires forall k :: CountIn(s, userId, k, t.body.taskId) == 0
    requires |ts| >= 4 && Clock(s, ts)
    ensures var s' := NewStatusAdded(s, userId, t, ts);
            Sound(s', userId) && SameStored(s, s', userId) && Housed(s, s', userId, t) && Clock(s', ts[4..])
  {
    hide Written, Sound, CountId, Clock, EntriesAt, RoleOf, AddedToList;
    AddedOk(s, userId, ProtocolHome(userId, t), t.body.taskId, ts);
    AddedOk(AddedToList(s, userId, ProtocolHome(userId, t), t.body.taskId, ts[0], ts[1]), userId, StatusList(t.status),
        t.body.taskId, ts[2..]);
    assert ts[2..][2..] == ts[4..];
  }

  /** The other tasks keep their copies and stay listed or unlisted. */
  ghost predicate OthersSame(s: TaskStore, s': TaskStore, userId: UserId, taskId: string) {
    forall x | ':' !in x && x != taskId ::
      StoredTask(s', userId, x) == StoredTask(s, userId, x) && (IsListed(s', userId, x) <==> IsListed(s, userId, x))
  }

  /** The lists are a partition again once the one task that moved is in its two lists. */
  lemma HousedIsTidy(s: TaskStore, s': TaskStore, userId: UserId, t: Task)
    requires Partitioned(s, userId) && Sound(s', userId) && Housed(s, s', userId, t)
    requires StoredTask(s', userId, t.body.taskId) == Some(t)
    requires forall x | ':' !in x && x != t.body.taskId :: StoredTask(s', userId, x) == StoredTask(s, userId, x)
    ensures Tidy(s', userId) && IsListed(s', userId, t.body.taskId) && OthersSame(s, s', userId, t.body.taskId)
  {
    hide Sound, CountIn, StoredTask, ProtocolHome;
    assert CountIn(s', userId, StatusList(t.status), t.body.taskId) == 1;
    forall x | ':' !in x ensures ListedRight(s', userId, x) { assert ListedRight(s, userId, x); }
  }

  /**
   A status change is all or nothing.  A listed task ends up stored with its new status and listed in
   exactly its two new lists; a task that is stored but not listed yet stays as it is, and nothing is
   written.
   */
  lemma MovedOk(s: TaskStore, userId: UserId, t: Task, t': Task, ts: seq<Nanos>)
    requires Tidy(s, userId) && ':' !in t.body.taskId && StoredTask(s, userId, t.body.taskId) == Some(t)
    requires t'.body == t.body && |t'.decisions| == |t.decisions| && |ts| >= 7 && Clock(s, ts)
    ensures var (s', r) := Moved(s, userId, t, t', ts);
            if IsListed(s, userId, t.body.taskId)
            then r.Success? && Tidy(s', userId) && StoredTask(s', userId, t.body.taskId) == Some(t')
                 && IsListed(s', userId, t.body.taskId) && OthersSame(s, s', userId, t.body.taskId)
            else r.Failure? && s' == s
  {
    StoredIsOk(s, userId, t.body.taskId);
    hide Written, Sound, IsListed, StoredTask, CountIn, Clock, NewStatusAdded, OldStatusRemoved, Partitioned,
        OthersSame, SameStored, Homeless;
    if !IsListed(s, userId, t.body.taskId) {
      UnlistedStays(s, userId, t, ts);
    } else {
      ListedLeaves(s, userId, t, ts);
      var removed := OldStatusRemoved(s, userId, t, ts).0;
      RehomedOk(s, removed, userId, t', ts[2..]);
      assert ts[2..][1..] == ts[3..];
    }
  }

  lemma RehomedOk(s: TaskStore, removed: TaskStore, userId: UserId, t': Task, ts: seq<Nanos>)
    requires Tidy(s, userId) && Sound(removed, userId) && SameStored(s, removed, userId)
             && Homeless(s, removed, userId, t'.body.taskId)
    requires ':' !in t'.body.taskId && TaskOk(t', t'.body.taskId) && |ts| >= 5 && Clock(removed, ts)
    ensures var s' := NewStatusAdded(TaskStored(removed, userId, t', ts[0]), userId, t', ts[1..]);
            Tidy(s', userId) && StoredTask(s', userId, t'.body.taskId) == Some(t')
            && IsListed(s', userId, t'.body.taskId) && OthersSame(s, s', userId, t'.body.taskId)
  {
    hide Written, Sound, IsListed, StoredTask, CountIn, Clock, NewStatusAdded, Partitioned, OthersSame;
    var stored := TaskStored(removed, userId, t', ts[0]);
    ClockFirst(removed, ts);
    TaskWritten(removed, userId, t', ts[0]);
    ClockTicks(removed, ts, TaskName(userId, t'.body.taskId), TaskPayload(t'));
    SameEntries(removed, stored, userId);
    NewStatusAddedOk(stored, userId, t', ts[1..]);
    HousedIsTidy(s, NewStatusAdded(stored, userId, t', ts[1..]), userId, t');
  }

  /** Between the two halves of a move, the storage can take the copy and then the entries. */
  lemma HalfwaySound(s: TaskStore, userId: UserId, t: Task, t': Task, ts: seq<Nanos>)
    requires Tidy(s, userId) && ':' !in t.body.taskId && StoredTask(s, userId, t.body.taskId) == Some(t)
             && IsListed(s, userId, t.body.taskId)
    requires t'.body == t.body && |t'.decisions| == |t.decisions| && |ts| >= 7 && Clock(s, ts)
    ensures var removed := OldStatusRemoved(s, userId, t, ts).0;
            var stored := TaskStored(removed, userId, t', ts[2]);
            && LaterThanAll(removed, ts[2]) && Sound(stored, userId) && Clock(stored, ts[3..])
  {
    StoredIsOk(s, userId, t.body.taskId);
    hide Written, Sound, IsListed, StoredTask, Clock, OldStatusRemoved, Partitioned, Homeless, SameStored;
    ListedLeaves(s, userId, t, ts);
    var removed := OldStatusRemoved(s, userId, t, ts).0;
    ClockFirst(removed, ts[2..]);
    TaskWritten(removed, userId, t', ts[2]);
    ClockTicks(removed, ts[2..], TaskName(userId, t.body.taskId), TaskPayload(t'));
    assert ts[2..][1..] == ts[3..];
  }

  lemma SameEntries(s: TaskStore, s': TaskStore, userId: UserId)
    requires forall k :: EntriesAt(s', userId, k) == EntriesAt(s, userId, k)
    ensures forall k, x :: CountIn(s', userId, k, x) == CountIn(s, userId, k, x)
  {}

  lemma StoredIsOk(s: TaskStore, userId: UserId, taskId: string)
    requires Sound(s, userId) && ':' !in taskId
    ensures ValueAt(s, TaskName(userId, taskId)).Some? <==> StoredTask(s, userId, taskId).Some?
    ensures StoredTask(s, userId, taskId).Some? ==> TaskOk(StoredTask(s, userId, taskId).value, taskId)
  {}

  /** Storing a new task, or one whose status and body are as before, moves nothing. */
  lemma StoredOk(s: TaskStore, userId: UserId, t: Task, now: Nanos)
    requires Tidy(s, userId) && Fresh(s, TaskName(userId, t.body.taskId), now) && ':' !in t.body.taskId
             && TaskOk(t, t.body.taskId)
    requires match StoredTask(s, userId, t.body.taskId)
             case Some(before) => before.status == t.status && before.body == t.body
             case None => true
    ensures var s' := TaskStored(s, userId, t, now);
            && Tidy(s', userId) && StoredTask(s', userId, t.body.taskId) == Some(t)
            && (IsListed(s', userId, t.body.taskId) <==> IsListed(s, userId, t.body.taskId))
            && OthersSame(s, s', userId, t.body.taskId)
  {
    var s' := TaskStored(s, userId, t, now);
    TaskWritten(s, userId, t, now);
    SameEntries(s, s', userId);
    var before := StoredTask(s, userId, t.body.taskId);
    assert before.Some? ==> ProtocolHome(userId, before.value) == ProtocolHome(userId, t);
    hide Sound, CountIn, StoredTask, TaskStored, ProtocolHome, Partitioned, ListedRight;
    StoredStaysListed(s, s', userId, t);
    forall x | ':' !in x && x != t.body.taskId ensures IsListed(s', userId, x) <==> IsListed(s, userId, x) {}
  }

  /** One task's copy is new; the lists and the other copies are as they were. */
  ghost predicate Inserted(s: TaskStore, s': TaskStore, userId: UserId, t: Task) {
    && StoredTask(s', userId, t.body.taskId) == Some(t)
    && (forall x | ':' !in x && x != t.body.taskId :: StoredTask(s', userId, x) == StoredTask(s, userId, x))
    && (forall k :: EntriesAt(s', userId, k) == EntriesAt(s, userId, k))
  }

  lemma StoredStaysListed(s: TaskStore, s': TaskStore, userId: UserId, t: Task)
    requires Partitioned(s, userId) && ':' !in t.body.taskId
    requires forall k, x :: CountIn(s', userId, k, x) == CountIn(s, userId, k, x)
    requires forall x | ':' !in x :: StoredTask(s', userId, x) == if x == t.body.taskId then Some(t)
             else StoredTask(s, userId, x)
    requires var before := StoredTask(s, userId, t.body.taskId);
             before.Some? ==>
                 before.value.status == t.status && ProtocolHome(userId, before.value) == ProtocolHome(userId, t)
    ensures Partitioned(s', userId)
    ensures IsListed(s', userId, t.body.taskId) <==> IsListed(s, userId, t.body.taskId)
  {
    hide CountIn, StoredTask, ProtocolHome;
    assert ListedRight(s, userId, t.body.taskId);
    forall x | ':' !in x ensures ListedRight(s', userId, x) { assert ListedRight(s, userId, x); }
  }

  /** A stored task that is in no list is listed under its status. */
  lemma ListedOk(s: TaskStore, userId: UserId, t: Task, ts: seq<Nanos>)
    requires Tidy(s, userId) && ':' !in t.body.taskId && StoredTask(s, userId, t.body.taskId) == Some(t)
    requires !IsListed(s, userId, t.body.taskId) && |ts| >= 4 && Clock(s, ts)
    ensures var s' := NewStatusAdded(s, userId, t, ts);
            && Tidy(s', userId) && StoredTask(s', userId, t.body.taskId) == Some(t)
            && IsListed(s', userId, t.body.taskId) && OthersSame(s, s', userId, t.body.taskId)
  {
    assert ListedRight(s, userId, t.body.taskId);
    hide Sound, CountIn, StoredTask, Written, NewStatusAdded, Clock, OthersSame, IsHome;
    NewStatusAddedOk(s, userId, t, ts);
    HousedIsTidy(s, NewStatusAdded(s, userId, t, ts), userId, t);
  }

  // ---------------------------------------------------------------- what the invariant means

  /** The index is a partition: an id is in a list exactly when its task is listed and the list is one of its two. */
  lemma ListsPartitionTasks(s: TaskStore, userId: UserId, taskId: string, list: ListKey)
    requires Tidy(s, userId) && ':' !in taskId
    ensures CountIn(s, userId, list, taskId) <= 1
    ensures CountIn(s, userId, list, taskId) == 1 <==>
              IsListed(s, userId, taskId) && IsHome(userId, StoredTask(s, userId, taskId).value, list)
    ensures IsListed(s, userId, taskId) ==>
              forall status :: CountIn(s, userId, StatusList(status), taskId) ==
                if status == StoredTask(s, userId, taskId).value.status then 1 else 0
  {
    assert ListedRight(s, userId, taskId);
  }

  /**
   Of the protocol lists, a listed task is in exactly one: under its participant's role once it has
   started, under none before and after.
   */
  lemma ProtocolListsAreByRole(s: TaskStore, userId: UserId, taskId: string, k: nat, protocol: string, status: Status)
    requires Tidy(s, userId) && ':' !in taskId && IsListed(s, userId, taskId)
    requires var ps := StoredTask(s, userId, taskId).value.body.participants;
             k < |ps| && ps[k].userId == userId && forall i | 0 <= i < |ps| && i != k :: ps[i].userId != userId
    ensures var t := StoredTask(s, userId, taskId).value;
            CountIn(s, userId, ProtocolList(protocol, status), taskId) ==
              if status == t.status && protocol == t.body.protocolName
                  + (if status == Started then ":" + t.body.participants[k].role else "")
              then 1 else 0
  {
    hide Sound, CountIn, StoredTask, RoleOf;
    assert ListedRight(s, userId, taskId);
    var t := StoredTask(s, userId, taskId).value;
    RoleOfParticipant(t.body.participants, k);
    var name, role := t.body.protocolName, t.body.participants[k].role;
    assert name + "" == name && name + (":" + role) == name + ":" + role;
  }

  /**
   Every entry's key path reads back the task id and nothing else, and the entries are in the order
   of their timestamps.
   */
  lemma EntriesReadBack(s: TaskStore, userId: UserId, list: ListKey, i: nat, payload: Payload)
    requires Sound(s, userId) && i < |EntriesAt(s, userId, list)|
    ensures var e := EntriesAt(s, userId, list)[i];
            && (ReadsAs(s, e.keyPath, payload) <==> payload == IdPayload(e.taskId))
            && (forall j | 0 <= j < i :: TimeOf(EntriesAt(s, userId, list)[j]) < TimeOf(e))
  {
    hide KeyPath, TimestampOfPath, EntriesAt, LatestName;
    SoundLists(s, userId, list);
    var e := EntriesAt(s, userId, list)[i];
    assert EntryOk(s.versions, LatestAt(userId, list), e);
    var v := Version(LatestAt(userId, list), TimestampOfPath(e.keyPath).value);
    forall w | w in s.versions && PathOf(w) == PathOf(v) ensures w == v {
      assert VersionOk(s, w);
      KeyPathInjective(w.name, w.timestamp, v.name, v.timestamp);
    }
  }

  // ---------------------------------------------------------------- other users of the same core

  /** Everything that changed belongs to one user, and no version is lost. */
  ghost predicate OnlyUser(s: TaskStore, s': TaskStore, userId: UserId) {
    && (forall v | v in s.versions :: v in s'.versions && s'.versions[v] == s.versions[v])
    && (forall name: Name | name.user != userId :: ValueAt(s', name) == ValueAt(s, name))
  }

  lemma OnlyUserWrites(s: TaskStore, name: Name, value: Payload, now: int)
    requires Fresh(s, name, now)
    ensures OnlyUser(s, Written(s, name, value, now), name.user)
  {}

  lemma OnlyUserStays(s: TaskStore, userId: UserId)
    ensures OnlyUser(s, s, userId)
  {}

  lemma OnlyUserTwice(s: TaskStore, s1: TaskStore, s2: TaskStore, userId: UserId)
    requires OnlyUser(s, s1, userId) && OnlyUser(s1, s2, userId)
    ensures OnlyUser(s, s2, userId)
  {}

  /** The lists of every other user stay as tidy as they were. */
  lemma OtherUsersStayTidy(s: TaskStore, s': TaskStore, userId: UserId, other: UserId)
    requires Tidy(s, other) && Consistent(s') && OnlyUser(s, s', userId) && other != userId
    ensures Tidy(s', other)
    ensures forall taskId :: StoredTask(s', other, taskId) == StoredTask(s, other, taskId)
    ensures forall list :: EntriesAt(s', other, list) == EntriesAt(s, other, list)
  {
    hide Consistent, TaskKey, ListName, LatestName, ValueAt;
    assert forall list :: EntriesAt(s', other, list) == EntriesAt(s, other, list);
    forall list ensures ListOk(s'.versions, LatestAt(other, list), EntriesAt(s', other, list)) {
      var latest, entries := LatestAt(other, list), EntriesAt(s, other, list);
      assert ListOk(s.versions, latest, entries);
      forall e | e in entries ensures EntryOk(s'.versions, latest, e) { assert EntryOk(s.versions, latest, e); }
    }
    SameEntries(s, s', other);
    hide CountIn, StoredTask, EntriesAt;
    forall x | ':' !in x ensures ListedRight(s', other, x) { assert ListedRight(s, other, x); }
  }
}
