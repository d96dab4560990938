/**
 A new copy is stored without the task mutex, so it may fall into the middle of a move.  It commutes
 with every single write of the move: whenever it happens, the storage ends up as if it had come last.
 */
module TaskInsertion {
  import opened Wrappers
  import opened KeyPaths
  import opened VersionedStore
  import opened BasicStorage
  import opened Tasks
  import opened TaskKeys
  import opened TaskLists

  /** The single writes that a move of one task consists of. */
  datatype Change =
    | Removal(list: ListKey, now: Nanos)
    | Copy(task: Task, now: Nanos)
    | LatestVersion(list: ListKey, now: Nanos)
    | ListEntry(list: ListKey, keyPath: string, now: Nanos)

  function Perform(s: TaskStore, userId: UserId, taskId: string, c: Change): (s': TaskStore) {
    match c
    case Removal(list, now) =>
      (match Unlisted(s, userId, list, taskId, now)
       case Success(s') => s'
       case Failure(_) => s)
    case Copy(t, now) => TaskStored(s, userId, t, now)
    case LatestVersion(list, now) => Written(s, LatestAt(userId, list), IdPayload(taskId), now)
    case ListEntry(list, keyPath, now) =>
      Written(s, ListAt(userId, list), ListPayload(EntriesAt(s, userId, list) + [Entry(keyPath, taskId)]), now)
  }

  function PerformAll(s: TaskStore, userId: UserId, taskId: string, cs: seq<Change>): (s': TaskStore)
    decreases |cs|
  {
    if cs == [] then s else PerformAll(Perform(s, userId, taskId, cs[0]), userId, taskId, cs[1..])
  }

  function Adding(userId: UserId, list: ListKey, first: Nanos, second: Nanos): seq<Change> {
    [LatestVersion(list, first), ListEntry(list, KeyPath(LatestAt(userId, list), first), second)]
  }

  function MoveOf(userId: UserId, t: Task, t': Task, ts: seq<Nanos>): (cs: seq<Change>)
    requires |ts| >= 7
  {
    [Removal(ProtocolHome(userId, t), ts[0]), Removal(StatusList(t.status), ts[1]), Copy(t', ts[2])]
    + Adding(userId, ProtocolHome(userId, t'), ts[3], ts[4])
    + Adding(userId, StatusList(t'.status), ts[5], ts[6])
  }

  lemma {:induction false} PerformConcat(s: TaskStore, userId: UserId, taskId: string, a: seq<Change>, b: seq<Change>)
    ensures PerformAll(s, userId, taskId, a + b) == PerformAll(PerformAll(s, userId, taskId, a), userId, taskId, b)
    decreases |a|
  {
    hide Perform;
    if a == [] {
      assert a + b == b;
    } else {
      assert (a + b)[1..] == a[1..] + b;
      PerformConcat(Perform(s, userId, taskId, a[0]), userId, taskId, a[1..], b);
    }
  }

  lemma PerformTwo(s: TaskStore, userId: UserId, taskId: string, a: Change, b: Change)
    ensures PerformAll(s, userId, taskId, [a, b]) == Perform(Perform(s, userId, taskId, a), userId, taskId, b)
  {
    hide Perform;
    assert [a, b][1..] == [b] && [b][1..] == [];
    assert PerformAll(s, userId, taskId, [a, b]) == PerformAll(Perform(s, userId, taskId, a), userId, taskId, [b]);
    assert PerformAll(Perform(s, userId, taskId, a), userId, taskId, [b])
        == PerformAll(Perform(Perform(s, userId, taskId, a), userId, taskId, b), userId, taskId, []);
  }

  lemma AddingIsAdded(s: TaskStore, userId: UserId, list: ListKey, taskId: string, first: Nanos, second: Nanos)
    ensures PerformAll(s, userId, taskId, Adding(userId, list, first, second))
            == AddedToList(s, userId, list, taskId, first, second)
  {
    PerformTwo(s, userId, taskId, LatestVersion(list, first),
        ListEntry(list, KeyPath(LatestAt(userId, list), first), second));
  }

  /** A move that succeeds is these writes, one after the other. */
  lemma MoveIsItsChanges(s: TaskStore, userId: UserId, t: Task, t': Task, ts: seq<Nanos>)
    requires |ts| >= 7 && t'.body == t.body && Moved(s, userId, t, t', ts).1.Success?
    ensures PerformAll(s, userId, t.body.taskId, MoveOf(userId, t, t', ts)) == Moved(s, userId, t, t', ts).0
  {
    hide Unlisted, Written, AddedToList, ProtocolHome, Adding, TaskStored;
    var id := t.body.taskId;
    var a := Removal(ProtocolHome(userId, t), ts[0]);
    var b := Removal(StatusList(t.status), ts[1]);
    var removed := OldStatusRemoved(s, userId, t, ts).0;
    assert Perform(Perform(s, userId, id, a), userId, id, b) == removed;
    PerformTwo(s, userId, id, a, b);
    var c := Copy(t', ts[2]);
    PerformConcat(s, userId, id, [a, b], [c]);
    assert [a, b] + [c] == [a, b, c] && [c][1..] == [];
    assert PerformAll(s, userId, id, [a, b, c]) == TaskStored(removed, userId, t', ts[2]);
    var stored := TaskStored(removed, userId, t', ts[2]);
    var first := Adding(userId, ProtocolHome(userId, t'), ts[3], ts[4]);
    var second := Adding(userId, StatusList(t'.status), ts[5], ts[6]);
    PerformConcat(s, userId, id, [a, b, c], first);
    PerformConcat(s, userId, id, [a, b, c] + first, second);
    AddingIsAdded(stored, userId, ProtocolHome(userId, t'), id, ts[3], ts[4]);
    AddingIsAdded(AddedToList(stored, userId, ProtocolHome(userId, t'), id, ts[3], ts[4]), userId,
        StatusList(t'.status), id, ts[5], ts[6]);
  }

  lemma WritesCommute(s: TaskStore, a: Name, x: Payload, i: int, b: Name, y: Payload, j: int)
    requires a != b
    ensures Written(Written(s, a, x, i), b, y, j) == Written(Written(s, b, y, j), a, x, i)
  {}

  lemma FreshElsewhere(s: TaskStore, name: Name, other: Name, value: Payload, now: int, later: int)
    requires Fresh(s, name, later) && name != other
    ensures Fresh(Written(s, other, value, now), name, later)
  {}

  lemma RemovalCommutes(s: TaskStore, userId: UserId, taskId: string, list: ListKey, at: Nanos, t: Task, now: Nanos)
    requires ':' !in t.body.taskId
    ensures Perform(TaskStored(s, userId, t, now), userId, taskId, Removal(list, at)) ==
            TaskStored(Perform(s, userId, taskId, Removal(list, at)), userId, t, now)
    ensures var name := TaskName(userId, t.body.taskId);
            Fresh(s, name, now) ==> Fresh(Perform(s, userId, taskId, Removal(list, at)), name, now)
  {
    hide TaskKey, ListName, LatestName, Written, ValueAt, Fresh, NameError;
    var name, listName := TaskName(userId, t.body.taskId), ListAt(userId, list);
    TaskIsNoList(t.body.taskId, list);
    ValueAfter(s, name, TaskPayload(t), now, listName);
    var entries := EntriesAt(s, userId, list);
    var index := FirstIndex(entries, taskId);
    if index < |entries| {
      var payload := ListPayload(entries[..index] + entries[index + 1..]);
      WritesCommute(s, name, TaskPayload(t), now, listName, payload, at);
      if Fresh(s, name, now) { FreshElsewhere(s, name, listName, payload, at, now); }
    }
  }

  lemma AdditionCommutes(s: TaskStore, userId: UserId, taskId: string, c: Change, t: Task, now: Nanos)
    requires ':' !in t.body.taskId && (c.LatestVersion? || c.ListEntry?)
    ensures Perform(TaskStored(s, userId, t, now), userId, taskId, c)
            == TaskStored(Perform(s, userId, taskId, c), userId, t, now)
    ensures var name := TaskName(userId, t.body.taskId);
            Fresh(s, name, now) ==> Fresh(Perform(s, userId, taskId, c), name, now)
  {
    hide TaskKey, ListName, LatestName, Written, ValueAt, Fresh;
    var name := TaskName(userId, t.body.taskId);
    TaskIsNoList(t.body.taskId, c.list);
    ValueAfter(s, name, TaskPayload(t), now, ListAt(userId, c.list));
    var other := if c.LatestVersion? then LatestAt(userId, c.list) else ListAt(userId, c.list);
    var payload :=
      if c.LatestVersion? then IdPayload(taskId)
      else ListPayload(EntriesAt(s, userId, c.list) + [Entry(c.keyPath, taskId)]);
    WritesCommute(s, name, TaskPayload(t), now, other, payload, c.now);
    if Fresh(s, name, now) { FreshElsewhere(s, name, other, payload, c.now, now); }
  }

  /** A change of one task's place neither sees nor touches the copy of another. */
  lemma InsertionCommutes(s: TaskStore, userId: UserId, taskId: string, c: Change, t: Task, now: Nanos)
    requires ':' !in t.body.taskId && t.body.taskId != taskId && (c.Copy? ==> c.task.body.taskId == taskId)
    ensures Perform(TaskStored(s, userId, t, now), userId, taskId, c)
            == TaskStored(Perform(s, userId, taskId, c), userId, t, now)
    ensures var name := TaskName(userId, t.body.taskId);
            Fresh(s, name, now) ==> Fresh(Perform(s, userId, taskId, c), name, now)
  {
    hide TaskKey, Written, Fresh, Unlisted;
    match c
    case Removal(list, at) => RemovalCommutes(s, userId, taskId, list, at, t, now);
    case Copy(other, at) =>
      var name, otherName := TaskName(userId, t.body.taskId), TaskName(userId, taskId);
      if TaskKey(t.body.taskId) == TaskKey(taskId) { TaskKeysDiffer(t.body.taskId, taskId); }
      WritesCommute(s, name, TaskPayload(t), now, otherName, TaskPayload(other), at);
      if Fresh(s, name, now) { FreshElsewhere(s, name, otherName, TaskPayload(other), at, now); }
    case _ => AdditionCommutes(s, userId, taskId, c, t, now);
  }

  predicate CopiesAreOf(cs: seq<Change>, taskId: string) {
    forall i | 0 <= i < |cs| && cs[i].Copy? :: cs[i].task.body.taskId == taskId
  }

  lemma {:induction false} InsertionCommutesWithAll(s: TaskStore, userId: UserId, taskId: string, cs: seq<Change>,
                                                    t: Task, now: Nanos)
    requires ':' !in t.body.taskId && t.body.taskId != taskId && CopiesAreOf(cs, taskId)
    ensures PerformAll(TaskStored(s, userId, t, now), userId, taskId, cs)
            == TaskStored(PerformAll(s, userId, taskId, cs), userId, t, now)
    ensures var name := TaskName(userId, t.body.taskId);
            Fresh(s, name, now) ==> Fresh(PerformAll(s, userId, taskId, cs), name, now)
    decreases |cs|
  {
    hide TaskKey, Perform, Fresh, TaskStored;
    if cs != [] {
      InsertionCommutes(s, userId, taskId, cs[0], t, now);
      InsertionCommutesWithAll(Perform(s, userId, taskId, cs[0]), userId, taskId, cs[1..], t, now);
    }
  }

  lemma InsertionAnywhere(s: TaskStore, userId: UserId, taskId: string, cs: seq<Change>, i: nat, t: Task, now: Nanos)
    requires ':' !in t.body.taskId && t.body.taskId != taskId && CopiesAreOf(cs, taskId) && i <= |cs|
    ensures PerformAll(TaskStored(PerformAll(s, userId, taskId, cs[..i]), userId, t, now), userId, taskId, cs[i..]) ==
            TaskStored(PerformAll(s, userId, taskId, cs), userId, t, now)
  {
    hide TaskStored, Perform;
    assert cs == cs[..i] + cs[i..];
    PerformConcat(s, userId, taskId, cs[..i], cs[i..]);
    InsertionCommutesWithAll(PerformAll(s, userId, taskId, cs[..i]), userId, taskId, cs[i..], t, now);
  }

  lemma InsertionAfterMove(s: TaskStore, userId: UserId, t: Task, t': Task, ts: seq<Nanos>, inserted: Task, now: Nanos)
    requires Tidy(s, userId) && ':' !in t.body.taskId && StoredTask(s, userId, t.body.taskId) == Some(t)
             && IsListed(s, userId, t.body.taskId)
    requires t'.body == t.body && |t'.decisions| == |t.decisions| && |ts| >= 7 && Clock(s, ts)
    requires ':' !in inserted.body.taskId && TaskOk(inserted, inserted.body.taskId)
             && StoredTask(s, userId, inserted.body.taskId) == None
    requires Fresh(Moved(s, userId, t, t', ts).0, TaskName(userId, inserted.body.taskId), now)
    ensures var after := TaskStored(Moved(s, userId, t, t', ts).0, userId, inserted, now);
            && Tidy(after, userId)
            && StoredTask(after, userId, t.body.taskId) == Some(t') && IsListed(after, userId, t.body.taskId)
            && StoredTask(after, userId, inserted.body.taskId) == Some(inserted)
            && !IsListed(after, userId, inserted.body.taskId)
  {
    hide Tidy, Moved, Fresh, Clock, TaskStored, TaskKey, CountIn, StoredTask;
    MovedOk(s, userId, t, t', ts);
    StoredOk(Moved(s, userId, t, t', ts).0, userId, inserted, now);
  }

  /**
   An insertion at any point of a move: the storage ends up as after the whole move and then the
   insertion, so the lists are a partition again, the moved task is in its new lists, and the new
   task is stored and in none.
   */
  lemma InsertionDuringMove(s: TaskStore, userId: UserId, t: Task, t': Task, ts: seq<Nanos>, i: nat, inserted: Task,
                            now: Nanos)
    requires Tidy(s, userId) && ':' !in t.body.taskId && StoredTask(s, userId, t.body.taskId) == Some(t)
             && IsListed(s, userId, t.body.taskId)
    requires t'.body == t.body && |t'.decisions| == |t.decisions| && |ts| >= 7 && Clock(s, ts)
    requires ':' !in inserted.body.taskId && TaskOk(inserted, inserted.body.taskId)
             && StoredTask(s, userId, inserted.body.taskId) == None
    requires Fresh(s, TaskName(userId, inserted.body.taskId), now)
    requires i <= |MoveOf(userId, t, t', ts)|
    ensures var cs := MoveOf(userId, t, t', ts);
            var before := PerformAll(s, userId, t.body.taskId, cs[..i]);
            var after := PerformAll(TaskStored(before, userId, inserted, now), userId, t.body.taskId, cs[i..]);
            && after == TaskStored(Moved(s, userId, t, t', ts).0, userId, inserted, now)
            && Tidy(after, userId)
            && StoredTask(after, userId, t.body.taskId) == Some(t') && IsListed(after, userId, t.body.taskId)
            && StoredTask(after, userId, inserted.body.taskId) == Some(inserted)
            && !IsListed(after, userId, inserted.body.taskId)
  {
    hide Tidy, IsListed, StoredTask, Moved, Perform, Fresh, Clock, TaskStored, TaskKey, ProtocolHome;
    var id, cs := t.body.taskId, MoveOf(userId, t, t', ts);
    CopiesOfMove(userId, t, t', ts);
    MovedOk(s, userId, t, t', ts);
    MoveIsItsChanges(s, userId, t, t', ts);
    InsertionAnywhere(s, userId, id, cs, i, inserted, now);
    InsertionCommutesWithAll(s, userId, id, cs, inserted, now);
    InsertionAfterMove(s, userId, t, t', ts, inserted, now);
  }

  lemma CopiesOfMove(userId: UserId, t: Task, t': Task, ts: seq<Nanos>)
    requires |ts| >= 7 && t'.body == t.body
    ensures CopiesAreOf(MoveOf(userId, t, t', ts), t.body.taskId)
  {
    hide ProtocolHome;
  }
}
