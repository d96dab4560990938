/**
 Across the layers: a task list, the storage it lies in, and a subscription to the list's latest
 name.  Whoever subscribes from the first entry's timestamp on hears of every entry once, of those
 that are there then and of every one that is added later.

 The task handlers write through the subscribing storage, so in the world of the processes each of
 their writes is an update by some writer.  `IsHandlerWrite` says what those updates look like; that
 the handlers' writes are of this kind is shown at the end, and for whole moves in `DeliveryMoves`.
 */
module Delivery {
  import opened Wrappers
  import opened KeyPaths
  import opened VersionedStore
  import opened Tasks
  import opened TaskKeys
  import opened TaskLists
  import opened Subscription
  import opened SubscriptionInvariant
  import opened SubscriptionStreams
  import opened SubscriptionTheorems
  import opened SubscriptionHistory

  // ---------------------------------------------------------------- the writes of the task handlers

  /** A name under which the task handlers keep something for this user. */
  ghost predicate IsInternal(userId: UserId, name: Name) {
    || (exists taskId: string :: ':' !in taskId && name == TaskName(userId, taskId))
    || (exists list :: name == ListAt(userId, list))
    || (exists list :: name == LatestAt(userId, list))
  }

  /** An entry for the version that its list's latest name was given last, and that is not in the list yet. */
  ghost predicate IsNewest(s: TaskStore, userId: UserId, list: ListKey, e: Entry) {
    && EntryOk(s.versions, LatestAt(userId, list), e)
    && (forall v | v in s.versions && v.name == LatestAt(userId, list) :: v.timestamp <= TimeOf(e))
    && (forall x | x in EntriesAt(s, userId, list) :: TimeOf(x) < TimeOf(e))
  }

  /** One entry less, or the newest one more. */
  ghost predicate IsListMove(s: TaskStore, userId: UserId, list: ListKey, entries: seq<Entry>) {
    var before := EntriesAt(s, userId, list);
    || (exists i | 0 <= i < |before| :: entries == before[..i] + before[i + 1..])
    || (entries != [] && entries[..|entries| - 1] == before && IsNewest(s, userId, list, entries[|entries| - 1]))
  }

  /**
   A write under an internal name is an update that stores a task, moves a list, or gives a latest
   name a new version.
   */
  ghost predicate IsHandlerWrite(s: TaskStore, userId: UserId, op: Operation<Payload>) {
    IsInternal(userId, op.name) ==>
      && op.Update?
      && match op.value
         case TaskPayload(t) =>
             ':' !in t.body.taskId && TaskOk(t, t.body.taskId) && op.name == TaskName(userId, t.body.taskId)
         case ListPayload(entries) => exists list ::
             op.name == ListAt(userId, list) && IsListMove(s, userId, list, entries)
         case IdPayload(_) => exists list :: op.name == LatestAt(userId, list)
         case Bytes(_) => false
  }

  // ---------------------------------------------------------------- they keep a list covered

  /** The latest name was once given a version at the start, and the list has no older entry. */
  ghost predicate CoveredFrom(s: TaskStore, userId: UserId, list: ListKey, start: int) {
    && Version(LatestAt(userId, list), start) in s.versions
    && forall e | e in EntriesAt(s, userId, list) :: TimeOf(e) >= start
  }

  /** The first entry's timestamp covers the whole list, and is positive. */
  lemma FirstEntryCovers(s: TaskStore, userId: UserId, list: ListKey)
    requires Sound(s, userId) && EntriesAt(s, userId, list) != []
    ensures var start := TimeOf(EntriesAt(s, userId, list)[0]);
            start > 0 && CoveredFrom(s, userId, list, start)
  {
    hide KeyPath, TimestampOfPath, EntriesAt, LatestName;
    SoundLists(s, userId, list);
    var entries := EntriesAt(s, userId, list);
    assert EntryOk(s.versions, LatestAt(userId, list), entries[0]);
    assert VersionOk(s, Version(LatestAt(userId, list), TimeOf(entries[0])));
    forall e | e in entries ensures TimeOf(e) >= TimeOf(entries[0]) {
      var i :| 0 <= i < |entries| && entries[i] == e;
    }
  }

  lemma NewestOk(s: TaskStore, userId: UserId, list: ListKey, e: Entry)
    requires Sound(s, userId) && IsNewest(s, userId, list, e)
    ensures ListOk(s.versions, LatestAt(userId, list), EntriesAt(s, userId, list) + [e])
  {
    hide EntryOk, EntriesAt, LatestName, TimeOf;
    SoundLists(s, userId, list);
  }

  /** A moved list is a right one, and has no entry older than the start if it had none. */
  lemma ListMoveOk(s: TaskStore, userId: UserId, list: ListKey, entries: seq<Entry>, start: int)
    requires Sound(s, userId) && IsListMove(s, userId, list, entries)
    ensures ListOk(s.versions, LatestAt(userId, list), entries)
    ensures CoveredFrom(s, userId, list, start) ==> forall e | e in entries :: TimeOf(e) >= start
  {
    hide EntryOk, EntriesAt, LatestName, TimeOf, Sound, ListOk;
    var before := EntriesAt(s, userId, list);
    if i :| 0 <= i < |before| && entries == before[..i] + before[i + 1..] {
      SoundLists(s, userId, list);
      WithoutOk(s.versions, LatestAt(userId, list), before, i);
    } else {
      var e := entries[|entries| - 1];
      assert entries == before + [e];
      NewestOk(s, userId, list, e);
    }
  }

  /** What is written under another name leaves tasks and lists alone. */
  lemma OtherNameKeeps(s: TaskStore, userId: UserId, s': TaskStore, name: Name)
    requires Sound(s, userId) && Consistent(s') && !IsInternal(userId, name)
    requires forall other | other != name :: ValueAt(s', other) == ValueAt(s, other)
    requires forall v | v in s.versions :: v in s'.versions && s'.versions[v] == s.versions[v]
    ensures Sound(s', userId)
    ensures forall list :: EntriesAt(s', userId, list) == EntriesAt(s, userId, list)
  {
    hide Consistent, ValueAt, TaskKey, ListName, LatestName;
    forall taskId | ':' !in taskId
      ensures ValueAt(s', TaskName(userId, taskId)) == ValueAt(s, TaskName(userId, taskId))
    {}
    forall list ensures ValueAt(s', ListAt(userId, list)) == ValueAt(s, ListAt(userId, list)) {}
    forall list ensures ListOk(s'.versions, LatestAt(userId, list), EntriesAt(s', userId, list)) {
      var latest, entries := LatestAt(userId, list), EntriesAt(s, userId, list);
      assert ListOk(s.versions, latest, entries);
      forall e | e in entries ensures EntryOk(s'.versions, latest, e) { assert EntryOk(s.versions, latest, e); }
    }
  }

  lemma OnlyItsNameChanges(s: TaskStore, op: Operation<Payload>, other: Name)
    requires other != op.name
    ensures ValueAt(Apply(s, op).0, other) == ValueAt(s, other)
  {
    hide FullName, KeyPath;
  }

  lemma OtherOperationKeeps(s: TaskStore, userId: UserId, op: Operation<Payload>)
    requires Sound(s, userId) && Allowed(s, op) && !IsInternal(userId, op.name)
    ensures Sound(Apply(s, op).0, userId)
    ensures forall list :: EntriesAt(Apply(s, op).0, userId, list) == EntriesAt(s, userId, list)
  {
    hide Apply, Allowed, IsInternal, Consistent, ValueAt, TasksTyped, ListsTyped, ListsOk, EntriesAt;
    ApplyOk(s, op);
    ApplyExtends(s, op);
    forall other | other != op.name ensures ValueAt(Apply(s, op).0, other) == ValueAt(s, other) {
      OnlyItsNameChanges(s, op, other);
    }
    OtherNameKeeps(s, userId, Apply(s, op).0, op.name);
  }

  /** Every write of the world that respects the handlers' names keeps the tasks and lists sound, and a list covered. */
  lemma WriteKeepsCover(s: TaskStore, userId: UserId, list: ListKey, start: int, op: Operation<Payload>)
    requires Sound(s, userId) && Allowed(s, op) && IsHandlerWrite(s, userId, op)
    ensures Sound(Apply(s, op).0, userId)
    ensures CoveredFrom(s, userId, list, start) ==> CoveredFrom(Apply(s, op).0, userId, list, start)
  {
    hide Sound, ListName, LatestName, TaskKey, KeyPath, EntriesAt, ListOk, TimeOf, FullName;
    ApplyExtends(s, op);
    if !IsInternal(userId, op.name) {
      OtherOperationKeeps(s, userId, op);
    } else {
      match op.value
      case TaskPayload(t) => TaskWritten(s, userId, t, op.now);
      case IdPayload(taskId) =>
        var k :| op.name == LatestAt(userId, k);
        LatestWritten(s, userId, k, taskId, op.now);
      case ListPayload(entries) =>
        var k :| op.name == ListAt(userId, k) && IsListMove(s, userId, k, entries);
        ListMoveOk(s, userId, k, entries, start);
        ListWritten(s, userId, k, entries, op.now);
    }
  }

  /** In a run, every write of the processes under the user's internal names is one of the handlers'. */
  ghost predicate WritesAreHandlers(w: World<Payload>, userId: UserId, steps: seq<Step<Payload>>)
    decreases |steps|
  {
    steps != [] ==>
      && (Performs(w, steps[0]).Some? ==> IsHandlerWrite(w.store, userId, Performs(w, steps[0]).value))
      && WritesAreHandlers(Next(w, steps[0]), userId, steps[1..])
  }

  lemma {:induction false} RunKeepsCover(w: World<Payload>, userId: UserId, list: ListKey, start: int,
                                         steps: seq<Step<Payload>>)
    requires Sound(w.store, userId) && CoveredFrom(w.store, userId, list, start) && WritesAreHandlers(w, userId, steps)
    ensures Sound(Execute(w, steps).store, userId) && CoveredFrom(Execute(w, steps).store, userId, list, start)
    decreases |steps|
  {
    hide Sound, CoveredFrom, Next, Performs, IsHandlerWrite, Apply, Allowed;
    if steps != [] {
      NextKeeps(w, steps[0], 0);
      var op := Performs(w, steps[0]);
      if op.Some? {
        PerformedIsAllowed(w, steps[0]);
        WriteKeepsCover(w.store, userId, list, start, op.value);
      }
      RunKeepsCover(Next(w, steps[0]), userId, list, start, steps[1..]);
    }
  }

  // ---------------------------------------------------------------- what the subscriber hears

  lemma LatestIsNotMqUri(list: ListKey)
    ensures LatestName(list) != MQ_URI
  {}

  /** The version is in the subscriber's queue exactly once, or not yet while its writer is still to publish it. */
  ghost predicate IsHeardOnce(w: World<Payload>, pid: nat, v: Version)
    requires pid in w.processes && w.processes[pid].Subscriber? && v in w.store.versions
  {
    && Occurs(QueueOf(w, pid), PathOf(v)) == (if v in Flights(w.processes) then 0 else 1)
    && forall m | m in QueueOf(w, pid) && m.keyPath == PathOf(v) :: m.payload == Some(w.store.versions[v])
  }

  function VersionOfEntry(userId: UserId, list: ListKey, e: Entry): Version {
    Version(LatestAt(userId, list), TimeOf(e))
  }

  /** The world in which the subscription has begun, and then anything else has happened. */
  ghost function After(w0: World<Payload>, pid: nat, userId: UserId, list: ListKey, queue: string,
                       more: seq<Step<Payload>>)
    : (w: World<Payload>)
    requires EntriesAt(w0.store, userId, list) != []
  {
    var start := TimeOf(EntriesAt(w0.store, userId, list)[0]);
    Execute(Next(w0, StartSubscriber(pid, LatestAt(userId, list), start, queue)), more)
  }

  lemma SubscriptionBegins(w0: World<Payload>, pid: nat, userId: UserId, list: ListKey, queue: string)
    requires EntriesAt(w0.store, userId, list) != [] && ':' !in userId && pid !in w0.processes
             && IsFreshQueue(w0, queue)
    ensures var start := TimeOf(EntriesAt(w0.store, userId, list)[0]);
            var w1 := Next(w0, StartSubscriber(pid, LatestAt(userId, list), start, queue));
            && w1.store == w0.store && pid in w1.processes
            && w1.processes[pid] == Subscriber(LatestAt(userId, list), start, queue, QueueReady)
  {
    hide IsFreshQueue, EntriesAt, LatestName;
  }

  /** After any run, the subscriber has the subscription that it asked for, and the versions are still there. */
  lemma AfterIsLater(w0: World<Payload>, pid: nat, userId: UserId, list: ListKey, queue: string,
                     more: seq<Step<Payload>>)
    requires Reached(w0) && Sound(w0.store, userId) && EntriesAt(w0.store, userId, list) != []
    requires pid !in w0.processes && IsFreshQueue(w0, queue)
    ensures var w := After(w0, pid, userId, list, queue, more);
            && Reached(w) && Extends(w0.store, w.store)
            && pid in w.processes && w.processes[pid].Subscriber?
            && w.processes[pid].name == LatestAt(userId, list)
            && w.processes[pid].start == TimeOf(EntriesAt(w0.store, userId, list)[0])
  {
    hide Reached, Extends, Next, IsFreshQueue, EntriesAt, LatestName;
    var start := TimeOf(EntriesAt(w0.store, userId, list)[0]);
    var step := StartSubscriber(pid, LatestAt(userId, list), start, queue);
    SubscriptionBegins(w0, pid, userId, list, queue);
    ReachedFurther(w0, [step]);
    assert Execute(w0, [step]) == Next(w0, step) by { assert [step][1..] == []; }
    ReachedFurther(Next(w0, step), more);
    ExecuteKeeps(Next(w0, step), more, pid);
  }

  lemma HeardFromStart(w: World<Payload>, pid: nat, userId: UserId, list: ListKey, v: Version)
    requires Reached(w) && IsSubscribed(w, pid) && w.processes[pid].name == LatestAt(userId, list)
             && w.processes[pid].start > 0
    requires v in w.store.versions && v.name == LatestAt(userId, list) && v.timestamp >= w.processes[pid].start
    ensures IsHeardOnce(w, pid, v)
  {
    hide KeyPath, LatestName, Occurs;
    LatestIsNotMqUri(list);
    ExactlyOnceHandOff(w, pid, v);
  }

  /**
   Subscribing from the first entry's timestamp on: after any run, whatever was written, every entry
   that the list had, removed since or not, and every version that was added to the latest name since
   has been heard of exactly once.
   */
  lemma EveryAdditionIsHeardOnce(w0: World<Payload>, pid: nat, userId: UserId, list: ListKey, queue: string,
                                 more: seq<Step<Payload>>,
                                 v: Version)
    requires Reached(w0) && Sound(w0.store, userId) && EntriesAt(w0.store, userId, list) != []
    requires pid !in w0.processes && IsFreshQueue(w0, queue)
    requires var w := After(w0, pid, userId, list, queue, more);
             IsSubscribed(w, pid) && v in w.store.versions && v.name == LatestAt(userId, list)
    requires v in w0.store.versions ==> exists e ::
               e in EntriesAt(w0.store, userId, list) && v == VersionOfEntry(userId, list, e)
    ensures IsHeardOnce(After(w0, pid, userId, list, queue, more), pid, v)
  {
    FirstEntryCovers(w0.store, userId, list);
    hide KeyPath, TimestampOfPath, LatestName, EntriesAt, IsFreshQueue, Sound, Reached, TimeOf;
    var w := After(w0, pid, userId, list, queue, more);
    AfterIsLater(w0, pid, userId, list, queue, more);
    var start := w.processes[pid].start;
    if v !in w0.store.versions {
      assert Fresh(w0.store, v.name, v.timestamp);
      assert Version(LatestAt(userId, list), start) in w0.store.versions;
    }
    hide After;
    HeardFromStart(w, pid, userId, list, v);
  }

  /** In particular the entries that were there at the subscription, with their task ids. */
  lemma EntriesThenAreHeardOnce(w0: World<Payload>, pid: nat, userId: UserId, list: ListKey, queue: string,
                                more: seq<Step<Payload>>, e: Entry)
    requires Reached(w0) && Sound(w0.store, userId) && e in EntriesAt(w0.store, userId, list)
    requires pid !in w0.processes && IsFreshQueue(w0, queue)
    requires IsSubscribed(After(w0, pid, userId, list, queue, more), pid)
    ensures var w, v := After(w0, pid, userId, list, queue, more), VersionOfEntry(userId, list, e);
            && v in w.store.versions && w.store.versions[v] == IdPayload(e.taskId) && PathOf(v) == e.keyPath
            && IsHeardOnce(w, pid, v)
  {
    SoundLists(w0.store, userId, list);
    assert EntryOk(w0.store.versions, LatestAt(userId, list), e);
    AfterIsLater(w0, pid, userId, list, queue, more);
    hide KeyPath, TimestampOfPath, LatestName, EntriesAt, IsFreshQueue, Sound, Reached, After, IsHeardOnce;
    EveryAdditionIsHeardOnce(w0, pid, userId, list, queue, more, VersionOfEntry(userId, list, e));
  }

  /**
   And the entries that are there now, if the writes in between were the handlers': the list is sound
   again, and each of its entries has been heard of exactly once, with its task id.
   */
  lemma EveryEntryIsDeliveredOnce(w0: World<Payload>, pid: nat, userId: UserId, list: ListKey, queue: string,
                                  more: seq<Step<Payload>>)
    requires Reached(w0) && Sound(w0.store, userId) && EntriesAt(w0.store, userId, list) != []
    requires pid !in w0.processes && IsFreshQueue(w0, queue)
    requires IsSubscribed(After(w0, pid, userId, list, queue, more), pid)
    requires var start := TimeOf(EntriesAt(w0.store, userId, list)[0]);
             WritesAreHandlers(Next(w0, StartSubscriber(pid, LatestAt(userId, list), start, queue)), userId, more)
    ensures var w := After(w0, pid, userId, list, queue, more);
            && Sound(w.store, userId)
            && forall e | e in EntriesAt(w.store, userId, list) ::
                 var v := VersionOfEntry(userId, list, e);
                 && v in w.store.versions && w.store.versions[v] == IdPayload(e.taskId) && PathOf(v) == e.keyPath
                 && IsHeardOnce(w, pid, v)
  {
    FirstEntryCovers(w0.store, userId, list);
    SubscriptionBegins(w0, pid, userId, list, queue);
    AfterIsLater(w0, pid, userId, list, queue, more);
    hide KeyPath, TimestampOfPath, LatestName, EntriesAt, IsFreshQueue, Sound, Reached, IsHeardOnce, TimeOf,
        WritesAreHandlers, Next;
    var w := After(w0, pid, userId, list, queue, more);
    var start := TimeOf(EntriesAt(w0.store, userId, list)[0]);
    RunKeepsCover(Next(w0, StartSubscriber(pid, LatestAt(userId, list), start, queue)), userId, list, start, more);
    SoundLists(w.store, userId, list);
    forall e | e in EntriesAt(w.store, userId, list)
      ensures var v := VersionOfEntry(userId, list, e);
              && v in w.store.versions && w.store.versions[v] == IdPayload(e.taskId) && PathOf(v) == e.keyPath
              && IsHeardOnce(w, pid, v)
    {
      EntryIsVersion(w.store, userId, list, e);
      HeardFromStart(w, pid, userId, list, VersionOfEntry(userId, list, e));
    }
  }

  lemma EntryIsVersion(s: TaskStore, userId: UserId, list: ListKey, e: Entry)
    requires Sound(s, userId) && e in EntriesAt(s, userId, list)
    ensures var v := VersionOfEntry(userId, list, e);
            v in s.versions && s.versions[v] == IdPayload(e.taskId) && PathOf(v) == e.keyPath
  {
    hide KeyPath, TimestampOfPath, LatestName, EntriesAt;
    SoundLists(s, userId, list);
    assert EntryOk(s.versions, LatestAt(userId, list), e);
  }

  /** No two entries of a list share a path, so one message each is as many messages as entries. */
  lemma EntriesDiffer(s: TaskStore, userId: UserId, list: ListKey, i: nat, j: nat)
    requires Sound(s, userId) && i < j < |EntriesAt(s, userId, list)|
    ensures EntriesAt(s, userId, list)[i].keyPath != EntriesAt(s, userId, list)[j].keyPath
  {}

  // ---------------------------------------------------------------- the handlers' writes are of this kind

  /** Storing a copy is one such write. */
  lemma StoringIsHandlerWrite(s: TaskStore, userId: UserId, t: Task, now: Nanos)
    requires TaskOk(t, t.body.taskId) && ':' !in t.body.taskId
    ensures var op := Update(TaskName(userId, t.body.taskId), TaskPayload(t), now);
            IsHandlerWrite(s, userId, op) && Apply(s, op).0 == TaskStored(s, userId, t, now)
  {}

  /** Taking a task out of a list is one. */
  lemma RemovingIsHandlerWrite(s: TaskStore, userId: UserId, k: ListKey, taskId: string, now: Nanos)
    returns (op: Operation<Payload>)
    requires Unlisted(s, userId, k, taskId, now).Success?
    ensures op.Update? && op.now == now && op.name == ListAt(userId, k)
    ensures IsHandlerWrite(s, userId, op) && Apply(s, op).0 == Unlisted(s, userId, k, taskId, now).value
  {
    hide ListName, Written, KeyPath;
    var entries := EntriesAt(s, userId, k);
    var index := FirstIndex(entries, taskId);
    var fewer := entries[..index] + entries[index + 1..];
    assert IsListMove(s, userId, k, fewer);
    op := Update(ListAt(userId, k), ListPayload(fewer), now);
  }

  /** Adding a task to a list is two. */
  lemma AddingIsHandlerWrites(s: TaskStore, userId: UserId, k: ListKey, taskId: string, ts: seq<Nanos>)
    returns (first: Operation<Payload>, second: Operation<Payload>)
    requires Sound(s, userId) && |ts| >= 2 && Clock(s, ts) && ':' !in taskId
    ensures first.Update? && first.now == ts[0] && first.name == LatestAt(userId, k)
    ensures second.Update? && second.now == ts[1] && second.name == ListAt(userId, k)
    ensures IsHandlerWrite(s, userId, first) && IsHandlerWrite(Apply(s, first).0, userId, second)
    ensures Apply(Apply(s, first).0, second).0 == AddedToList(s, userId, k, taskId, ts[0], ts[1])
  {
    hide Sound, ListName, LatestName, KeyPath, ValueAt, Clock, ListOk, Written, EntriesAt;
    var latest, entries := LatestAt(userId, k), EntriesAt(s, userId, k);
    var s1 := Written(s, latest, IdPayload(taskId), ts[0]);
    var e := Entry(KeyPath(latest, ts[0]), taskId);
    ClockFirst(s, ts);
    LaterIsFresh(s, latest, ts[0]);
    LatestWritten(s, userId, k, taskId, ts[0]);
    NewEntryIsNewest(s, userId, k, taskId, ts[0]);
    assert (entries + [e])[..|entries + [e]| - 1] == entries;
    assert IsListMove(s1, userId, k, entries + [e]);
    first := Update(latest, IdPayload(taskId), ts[0]);
    second := Update(ListAt(userId, k), ListPayload(entries + [e]), ts[1]);
  }

  lemma NewEntryIsNewest(s: TaskStore, userId: UserId, k: ListKey, taskId: string, now: Nanos)
    requires Sound(s, userId) && Fresh(s, LatestAt(userId, k), now) && ':' !in taskId
    ensures var latest := LatestAt(userId, k);
            IsNewest(Written(s, latest, IdPayload(taskId), now), userId, k, Entry(KeyPath(latest, now), taskId))
  {
    hide Sound, ListName, LatestName, KeyPath, TimestampOfPath, ValueAt, Written, EntriesAt;
    var latest := LatestAt(userId, k);
    var e := Entry(KeyPath(latest, now), taskId);
    LatestWritten(s, userId, k, taskId, now);
    WrittenVersions(s, latest, IdPayload(taskId), now);
    PathGivesTimestamp(latest, now);
    SoundLists(s, userId, k);
    forall x | x in EntriesAt(s, userId, k) ensures TimeOf(x) < TimeOf(e) { assert EntryOk(s.versions, latest, x); }
  }
}
