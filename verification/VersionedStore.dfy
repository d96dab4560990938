/**
 What the storage means, without its indexes: for every name the cell it was last left in, and
 for every write the version it made.  Versions are only ever added.

 A listing is defined here by scanning all names and versions; the storage keeps it in an index.
 */
module VersionedStore {
  import opened Wrappers
  import opened Strings
  import opened KeyPaths

  // Deletions are stamped in seconds; the largest such stamp of a 64-bit nanosecond clock is this.
  const LAST_SECOND := 9223372036

  /** A nanosecond reading of the clock: an i64 beyond every second-resolution reading. */
  type Nanos = t: int | LAST_SECOND < t <= I64_MAX witness I64_MAX

  datatype Version = Version(name: Name, timestamp: int)

  datatype Cell = Live(timestamp: int) | Deleted(timestamp: int)

  datatype Store<V> = Store(versions: map<Version, V>, cells: map<Name, Cell>)

  datatype StorageError =
    | KeyNameAlreadyExists(fullName: string)
    | KeyPathNotFound(path: string)
    | KeyNameNotFound(key: string)
    | EntryDeleted(path: string)

  function Empty<V>(): Store<V> {
    Store(map[], map[])
  }

  predicate IsLive<V>(s: Store<V>, name: Name) {
    name in s.cells && s.cells[name].Live?
  }

  function PathOf(v: Version): string {
    KeyPath(v.name, v.timestamp)
  }

  function SecondsOf(nanos: int): int {
    nanos / 1_000_000_000
  }

  /** A write makes a new version and leaves the name live. */
  function Written<V>(s: Store<V>, name: Name, value: V, now: int): Store<V> {
    Store(s.versions[Version(name, now) := value], s.cells[name := Live(now)])
  }

  function Erased<V>(s: Store<V>, name: Name, seconds: int): Store<V> {
    s.(cells := s.cells[name := Deleted(seconds)])
  }

  // ---------------------------------------------------------------- the operations, as a caller sees them

  datatype Operation<V> =
    | Create(name: Name, value: V, now: Nanos)
    | Update(name: Name, value: V, now: Nanos)
    | Delete(name: Name, now: Nanos)

  /** The state after an operation, and the path it returns or the error. */
  function Apply<V>(s: Store<V>, op: Operation<V>): (r: (Store<V>, Result<string, StorageError>)) {
    match op
    case Create(name, value, now) =>
      if IsLive(s, name) then (s, Failure(KeyNameAlreadyExists(FullName(name))))
      else (Written(s, name, value, now), Success(KeyPath(name, now)))
    case Update(name, value, now) =>
      (Written(s, name, value, now), Success(KeyPath(name, now)))
    case Delete(name, now) =>
      if !IsLive(s, name) then (s, Failure(KeyNameNotFound(name.key)))
      else (Erased(s, name, SecondsOf(now)), Success(KeyPath(name, SecondsOf(now))))
  }

  /** The version a path stands for. */
  ghost predicate ReadsAs<V>(s: Store<V>, path: string, value: V) {
    exists v :: v in s.versions && PathOf(v) == path && s.versions[v] == value
  }

  ghost predicate Readable<V>(s: Store<V>, path: string) {
    exists v :: v in s.versions && PathOf(v) == path
  }

  /** The clock reading is later than every version of the name. */
  ghost predicate Fresh<V>(s: Store<V>, name: Name, now: int) {
    forall v | v in s.versions && v.name == name :: v.timestamp < now
  }

  ghost predicate HasVersion<V>(s: Store<V>, name: Name) {
    exists v :: v in s.versions && v.name == name
  }

  ghost predicate CellOk<V>(s: Store<V>, name: Name)
    requires name in s.cells
  {
    && ':' !in name.user
    && HasVersion(s, name)
    && match s.cells[name]
       case Live(t) =>
           Version(name, t) in s.versions && forall v | v in s.versions && v.name == name :: v.timestamp <= t
       case Deleted(t) => 0 <= t <= LAST_SECOND
  }

  ghost predicate VersionOk<V>(s: Store<V>, v: Version) {
    v.name in s.cells && ':' !in v.name.user && LAST_SECOND < v.timestamp <= I64_MAX
  }

  ghost predicate Consistent<V>(s: Store<V>) {
    && (forall name | name in s.cells :: CellOk(s, name))
    && (forall v | v in s.versions :: VersionOk(s, v))
  }

  lemma WrittenOk<V>(s: Store<V>, name: Name, value: V, now: Nanos)
    requires Consistent(s) && ':' !in name.user && Fresh(s, name, now)
    ensures Consistent(Written(s, name, value, now))
  {}

  lemma ErasedOk<V>(s: Store<V>, name: Name, seconds: int)
    requires Consistent(s) && name in s.cells && 0 <= seconds <= LAST_SECOND
    ensures Consistent(Erased(s, name, seconds))
  {}

  /** A deletion is stamped with the second that the reading falls in, which lies below every nanosecond reading. */
  lemma SecondsStayBelow(now: Nanos)
    ensures SecondsOf(now) * 1_000_000_000 <= now < (SecondsOf(now) + 1) * 1_000_000_000
    ensures 0 <= SecondsOf(now) <= 9223372036 < now
  {}

  /** Whoever was ever given a value has been deleted since if it has none now. */
  lemma WithoutValue<V>(s: Store<V>, name: Name)
    requires Consistent(s)
    ensures name in s.cells <==> exists v :: v in s.versions && v.name == name
    ensures name !in View(s) && name in s.cells ==> s.cells[name].Deleted?
  {
    if name in s.cells { assert CellOk(s, name); }
    if v :| v in s.versions && v.name == name { assert VersionOk(s, v); }
  }

  ghost predicate Allowed<V>(s: Store<V>, op: Operation<V>) {
    ':' !in op.name.user && (!op.Delete? ==> Fresh(s, op.name, op.now))
  }

  lemma ApplyOk<V>(s: Store<V>, op: Operation<V>)
    requires Consistent(s) && Allowed(s, op)
    ensures Consistent(Apply(s, op).0)
  {
    match op
    case Create(name, value, now) => if !IsLive(s, name) { WrittenOk(s, name, value, now); }
    case Update(name, value, now) => WrittenOk(s, name, value, now);
    case Delete(name, now) => if IsLive(s, name) { ErasedOk(s, name, SecondsOf(now)); }
  }

  // ---------------------------------------------------------------- a plain map

  /** What a caller can read by name: a value, or nothing. */
  ghost function View<V>(s: Store<V>): (view: map<Name, V>)
    requires Consistent(s)
  {
    map name | name in s.cells && s.cells[name].Live? ::
      assert CellOk(s, name);
      s.versions[Version(name, s.cells[name].timestamp)]
  }

  lemma ViewAt<V>(s: Store<V>, name: Name)
    requires Consistent(s)
    ensures name in View(s) <==> IsLive(s, name)
    ensures IsLive(s, name) ==> Version(name, s.cells[name].timestamp) in s.versions
    ensures IsLive(s, name) ==> View(s)[name] == s.versions[Version(name, s.cells[name].timestamp)]
  {}

  lemma WrittenView<V>(s: Store<V>, name: Name, value: V, now: Nanos)
    requires Consistent(s) && ':' !in name.user && Fresh(s, name, now)
    ensures Consistent(Written(s, name, value, now))
    ensures View(Written(s, name, value, now)) == View(s)[name := value]
  {
    hide Consistent, Fresh, View;
    WrittenOk(s, name, value, now);
    var s' := Written(s, name, value, now);
    forall n ensures n in View(s') <==> n in View(s)[name := value]
             ensures n in View(s') ==> View(s')[n] == View(s)[name := value][n] {
      ViewAt(s, n);
      ViewAt(s', n);
    }
  }

  lemma ErasedView<V>(s: Store<V>, name: Name, seconds: int)
    requires Consistent(s) && name in s.cells && 0 <= seconds <= LAST_SECOND
    ensures Consistent(Erased(s, name, seconds))
    ensures View(Erased(s, name, seconds)) == View(s) - {name}
  {
    ErasedOk(s, name, seconds);
  }

  /**
   The operations act on the readable values as on a plain map: creating fails on a name that has a
   value and succeeds on one that was deleted, updating always succeeds, deleting needs a value.
   */
  lemma ActsAsMap<V>(s: Store<V>, op: Operation<V>)
    requires Consistent(s) && Allowed(s, op)
    ensures Consistent(Apply(s, op).0)
    ensures Apply(s, op).1.Success? <==>
              match op
              case Create(name, _, _) => name !in View(s)
              case Update(_, _, _) => true
              case Delete(name, _) => name in View(s)
    ensures Apply(s, op).1.Failure? ==> Apply(s, op).0 == s
    ensures Apply(s, op).1.Success? ==>
              View(Apply(s, op).0) == if op.Delete? then View(s) - {op.name} else View(s)[op.name := op.value]
  {
    hide Written, Erased, Consistent, Fresh, KeyPath, FullName;
    assert op.name in View(s) <==> IsLive(s, op.name);
    match op
    case Create(name, value, now) => WrittenView(s, name, value, now);
    case Update(name, value, now) => WrittenView(s, name, value, now);
    case Delete(name, now) => if IsLive(s, name) { ErasedView(s, name, SecondsOf(now)); }
  }

  /** What a caller is answered: the path that was made, stamped with the clock, or the error. */
  lemma CreateAnswers<V>(s: Store<V>, user: string, key: string, value: V, now: Nanos)
    requires Consistent(s)
    ensures Apply(s, Create(Name(user, key), value, now)).1 ==
              if Name(user, key) in View(s) then Failure(KeyNameAlreadyExists(user + "::" + key))
              else Success(user + "::" + key + "@" + PrintInt(now))
  {
    PathLooksLike(Name(user, key), now);
  }

  lemma UpdateAnswers<V>(s: Store<V>, user: string, key: string, value: V, now: Nanos)
    ensures Apply(s, Update(Name(user, key), value, now)).1 == Success(user + "::" + key + "@" + PrintInt(now))
  {
    PathLooksLike(Name(user, key), now);
  }

  /** A deletion is stamped with the second of the clock, in the path that it returns and in the cell that it leaves. */
  ghost predicate DeletedAt<V>(s: Store<V>, s': Store<V>, user: string, key: string, now: Nanos, path: string, t: int) {
    && t * 1_000_000_000 <= now < (t + 1) * 1_000_000_000
    && path == user + "::" + key + "@" + PrintInt(t)
    && s' == Store(s.versions, s.cells[Name(user, key) := Deleted(t)])
  }

  lemma DeleteAnswers<V>(s: Store<V>, user: string, key: string, now: Nanos)
    requires Consistent(s)
    ensures var (s', r) := Apply(s, Delete(Name(user, key), now));
            if Name(user, key) !in View(s) then r == Failure(KeyNameNotFound(key)) && s' == s
            else r.Success? && exists t :: DeletedAt(s, s', user, key, now, r.value, t)
  {
    PathLooksLike(Name(user, key), SecondsOf(now));
    SecondsStayBelow(now);
    if Name(user, key) in View(s) {
      var (s', r) := Apply(s, Delete(Name(user, key), now));
      assert DeletedAt(s, s', user, key, now, r.value, SecondsOf(now));
    }
  }

  // ---------------------------------------------------------------- runs

  ghost predicate AllAllowed<V>(s: Store<V>, ops: seq<Operation<V>>)
    decreases |ops|
  {
    ops == [] || (Allowed(s, ops[0]) && AllAllowed(Apply(s, ops[0]).0, ops[1..]))
  }

  function ApplyAll<V>(s: Store<V>, ops: seq<Operation<V>>): Store<V>
    decreases |ops|
  {
    if ops == [] then s else ApplyAll(Apply(s, ops[0]).0, ops[1..])
  }

  lemma {:induction false} ApplyAllOk<V>(s: Store<V>, ops: seq<Operation<V>>)
    requires Consistent(s) && AllAllowed(s, ops)
    ensures Consistent(ApplyAll(s, ops))
    decreases |ops|
  {
    if ops != [] {
      ApplyOk(s, ops[0]);
      ApplyAllOk(Apply(s, ops[0]).0, ops[1..]);
    }
  }

  /** Versions are append-only. */
  lemma {:induction false} VersionsStay<V>(s: Store<V>, ops: seq<Operation<V>>)
    requires AllAllowed(s, ops)
    ensures forall v | v in s.versions ::
              v in ApplyAll(s, ops).versions && ApplyAll(s, ops).versions[v] == s.versions[v]
    decreases |ops|
  {
    if ops != [] {
      var s' := Apply(s, ops[0]).0;
      assert forall v | v in s.versions :: v in s'.versions && s'.versions[v] == s.versions[v];
      VersionsStay(s', ops[1..]);
    }
  }

  /** What a write returns reads back the same value in every later state, whatever is done to the name. */
  lemma HistoryIsImmutable<V>(s: Store<V>, op: Operation<V>, ops: seq<Operation<V>>, value: V)
    requires Consistent(s) && Allowed(s, op) && !op.Delete? && Apply(s, op).1.Success?
    requires AllAllowed(Apply(s, op).0, ops)
    ensures ReadsAs(ApplyAll(Apply(s, op).0, ops), Apply(s, op).1.value, value) <==> value == op.value
  {
    var s1 := Apply(s, op).0;
    var s2 := ApplyAll(s1, ops);
    var v := Version(op.name, op.now);
    VersionsStay(s1, ops);
    ApplyOk(s, op);
    ApplyAllOk(s1, ops);
    assert v in s2.versions && s2.versions[v] == op.value;
    forall w | w in s2.versions && PathOf(w) == PathOf(v) ensures w == v {
      assert VersionOk(s2, w);
      KeyPathInjective(w.name, w.timestamp, v.name, v.timestamp);
    }
  }

  /** What a deletion returns is never readable, then or later. */
  lemma DeletedPathIsNeverReadable<V>(s: Store<V>, op: Operation<V>, ops: seq<Operation<V>>)
    requires Consistent(s) && Allowed(s, op) && op.Delete? && Apply(s, op).1.Success?
    requires AllAllowed(Apply(s, op).0, ops)
    ensures !Readable(ApplyAll(Apply(s, op).0, ops), Apply(s, op).1.value)
  {
    var s2 := ApplyAll(Apply(s, op).0, ops);
    ApplyOk(s, op);
    ApplyAllOk(Apply(s, op).0, ops);
    SecondsStayBelow(op.now);
    forall w | w in s2.versions ensures PathOf(w) != Apply(s, op).1.value {
      assert VersionOk(s2, w);
      if PathOf(w) == Apply(s, op).1.value {
        KeyPathInjective(w.name, w.timestamp, op.name, SecondsOf(op.now));
      }
    }
  }

  // ---------------------------------------------------------------- listings, by scanning

  /** Position p of the key ends one of its directories. */
  predicate EndsDirectory(key: string, p: int) {
    0 <= p < |key| && key[p] == ':'
  }

  /** The directories of a name that end before a position, as markers in the set with this key. */
  function MarkersBefore(name: Name, limit: nat, setKey: string): (r: set<string>)
    requires limit <= |name.key|
  {
    set p | 0 <= p < limit && EndsDirectory(name.key, p) && SetKey(Name(name.user, name.key[..p])) == setKey ::
      KeyPath(Name(name.user, name.key[..p]), 0)
  }

  function MarkersOf(name: Name, setKey: string): (r: set<string>) {
    MarkersBefore(name, |name.key|, setKey)
  }

  /** The markers of every name ever created. */
  ghost function Markers(names: set<Name>, setKey: string): (r: set<string>) {
    set name, m | name in names && m in MarkersOf(name, setKey) :: m
  }

  ghost function Paths(versions: set<Version>, setKey: string): (r: set<string>) {
    set v | v in versions && SetKey(v.name) == setKey :: PathOf(v)
  }

  /** The markers, and every version ever written under the set key. */
  ghost function History<V>(s: Store<V>, setKey: string): (r: set<string>) {
    Markers(s.cells.Keys, setKey) + Paths(s.versions.Keys, setKey)
  }

  /** A version of a live name that no other version of it outdates. */
  ghost predicate IsGreatest<V>(s: Store<V>, v: Version) {
    v in s.versions && IsLive(s, v.name) && forall w | w in s.versions && w.name == v.name :: w.timestamp <= v.timestamp
  }

  /** The markers, and for every live name under the set key its one version of greatest timestamp. */
  ghost function Latest<V>(s: Store<V>, setKey: string): (r: set<string>) {
    Markers(s.cells.Keys, setKey) + set v | v in s.versions && IsGreatest(s, v) && SetKey(v.name) == setKey :: PathOf(v)
  }

  /** Listing the empty prefix finds nothing, and is no error: every listed set's key holds two colons. */
  lemma EmptyPrefixListsNothing<V>(s: Store<V>)
    ensures History(s, "" + ":") == {} && Latest(s, "" + ":") == {}
  {
    forall name: Name ensures SetKey(name) != ":" { assert |SetKey(name)| >= 2; }
    assert "" + ":" == ":";
  }

  lemma GreatestIsCurrent<V>(s: Store<V>, v: Version)
    requires Consistent(s)
    ensures IsGreatest(s, v) <==> IsLive(s, v.name) && v.timestamp == s.cells[v.name].timestamp
  {}

  lemma MarkerShape(name: Name, setKey: string, m: string)
    requires m in MarkersOf(name, setKey)
    ensures exists d: string :: m == KeyPath(Name(name.user, d), 0)
  {}

  /** A marker never looks like a version. */
  lemma MarkersAreNotVersions<V>(s: Store<V>, name: Name, timestamp: int, setKey: string)
    requires Consistent(s) && ':' !in name.user && timestamp != 0
    ensures KeyPath(name, timestamp) !in Markers(s.cells.Keys, setKey)
  {
    if KeyPath(name, timestamp) in Markers(s.cells.Keys, setKey) {
      var n :| n in s.cells && KeyPath(name, timestamp) in MarkersOf(n, setKey);
      MarkerShape(n, setKey, KeyPath(name, timestamp));
      var d: string :| KeyPath(name, timestamp) == KeyPath(Name(n.user, d), 0);
      assert CellOk(s, n);
      KeyPathInjective(name, timestamp, Name(n.user, d), 0);
    }
  }

  /** The entry of one cell in the set with this key, if it is live. */
  function EntryOf(cells: map<Name, Cell>, name: Name, setKey: string): (r: set<string>) {
    if name in cells && cells[name].Live? && SetKey(name) == setKey then {KeyPath(name, cells[name].timestamp)} else {}
  }

  /** The entries of a listing of latest versions, read off the cells. */
  ghost function Current(cells: map<Name, Cell>, setKey: string): (r: set<string>) {
    set name, x | name in cells && x in EntryOf(cells, name, setKey) :: x
  }

  /** The scan for greatest timestamps finds exactly the versions that the cells point to. */
  lemma LatestIsCurrent<V>(s: Store<V>, setKey: string)
    requires Consistent(s)
    ensures Latest(s, setKey) == Markers(s.cells.Keys, setKey) + Current(s.cells, setKey)
  {
    forall v | v in s.versions && IsGreatest(s, v) && SetKey(v.name) == setKey
      ensures PathOf(v) in Current(s.cells, setKey)
    {
      GreatestIsCurrent(s, v);
      assert PathOf(v) in EntryOf(s.cells, v.name, setKey);
    }
    forall name, x | name in s.cells && x in EntryOf(s.cells, name, setKey) ensures x in Latest(s, setKey) {
      var v := Version(name, s.cells[name].timestamp);
      assert CellOk(s, name);
      GreatestIsCurrent(s, v);
      assert PathOf(v) == x;
    }
  }

  ghost predicate UsersOk(names: set<Name>) {
    forall name | name in names :: ':' !in name.user
  }

  /** Changing the cell of one name changes that name's entry and no other. */
  lemma CurrentAfter(cells: map<Name, Cell>, name: Name, cell: Cell, setKey: string)
    requires UsersOk(cells.Keys) && ':' !in name.user
    requires name in cells && cells[name].Live? && cell.Live? ==> cells[name].timestamp != cell.timestamp
    ensures var cells' := cells[name := cell];
            Current(cells', setKey) == Current(cells, setKey) - EntryOf(cells, name, setKey)
                + EntryOf(cells', name, setKey)
  {
    hide KeyPath, SetKey;
    var cells' := cells[name := cell];
    forall n, x | n in cells && n != name && x in EntryOf(cells, n, setKey)
      ensures x in EntryOf(cells', n, setKey) && x !in EntryOf(cells, name, setKey)
    {
      if x in EntryOf(cells, name, setKey) { KeyPathInjective(n, cells[n].timestamp, name, cells[name].timestamp); }
    }
    forall n, x | n in cells' && n != name && x in EntryOf(cells', n, setKey) ensures x in EntryOf(cells, n, setKey) {}
  }

  /** Removing a live name's entry does not take a marker with it. */
  lemma EntryIsNoMarker<V>(s: Store<V>, name: Name, setKey: string)
    requires Consistent(s)
    ensures EntryOf(s.cells, name, setKey) !! Markers(s.cells.Keys, setKey)
  {
    if IsLive(s, name) {
      assert CellOk(s, name);
      assert VersionOk(s, Version(name, s.cells[name].timestamp));
      MarkersAreNotVersions(s, name, s.cells[name].timestamp, setKey);
    }
  }

  lemma ConsistentUsers<V>(s: Store<V>)
    requires Consistent(s)
    ensures UsersOk(s.cells.Keys)
  {}

  /** What a write does to the history. */
  lemma WrittenHistory<V>(s: Store<V>, name: Name, value: V, now: Nanos, setKey: string)
    ensures var s' := Written(s, name, value, now);
            var new' := if SetKey(name) == setKey then {KeyPath(name, now)} else {};
            && Markers(s'.cells.Keys, setKey) == Markers(s.cells.Keys, setKey) + MarkersOf(name, setKey)
            && History(s', setKey) == History(s, setKey) + MarkersOf(name, setKey) + new'
  {
    var s' := Written(s, name, value, now);
    assert s'.cells.Keys == s.cells.Keys + {name};
    assert s'.versions.Keys == s.versions.Keys + {Version(name, now)};
    MarkersGrow(s.cells.Keys, name, setKey);
    PathsGrow(s.versions.Keys, Version(name, now), setKey);
  }

  lemma MarkersGrow(names: set<Name>, name: Name, setKey: string)
    ensures Markers(names + {name}, setKey) == Markers(names, setKey) + MarkersOf(name, setKey)
  {}

  lemma PathsGrow(versions: set<Version>, v: Version, setKey: string)
    ensures Paths(versions + {v}, setKey) == Paths(versions, setKey) + if SetKey(v.name) == setKey then {PathOf(v)}
            else {}
  {}

  /** What a write does to the latest versions: the name's old entry makes room for the new one. */
  lemma WrittenLatest<V>(s: Store<V>, name: Name, value: V, now: Nanos, setKey: string)
    requires Consistent(s) && ':' !in name.user && Fresh(s, name, now)
    ensures var s' := Written(s, name, value, now);
            var new' := if SetKey(name) == setKey then {KeyPath(name, now)} else {};
            Latest(s', setKey) == Latest(s, setKey) - EntryOf(s.cells, name, setKey) + MarkersOf(name, setKey) + new'
  {
    hide KeyPath, SetKey, Latest, History, MarkersOf, Markers, Current;
    var s' := Written(s, name, value, now);
    WrittenOk(s, name, value, now);
    WrittenHistory(s, name, value, now, setKey);
    if IsLive(s, name) { assert CellOk(s, name); }
    ConsistentUsers(s);
    LatestIsCurrent(s, setKey);
    LatestIsCurrent(s', setKey);
    CurrentAfter(s.cells, name, Live(now), setKey);
    EntryIsNoMarker(s, name, setKey);
  }

  /** A deletion keeps the whole history. */
  lemma ErasedHistory<V>(s: Store<V>, name: Name, seconds: int, setKey: string)
    requires name in s.cells
    ensures Markers(Erased(s, name, seconds).cells.Keys, setKey) == Markers(s.cells.Keys, setKey)
    ensures History(Erased(s, name, seconds), setKey) == History(s, setKey)
  {
    assert s.cells.Keys == s.cells[name := Deleted(seconds)].Keys;
  }

  /** A deletion takes the name's entry out of the latest versions, and nothing else. */
  lemma ErasedLatest<V>(s: Store<V>, name: Name, seconds: int, setKey: string)
    requires Consistent(s) && IsLive(s, name) && 0 <= seconds <= LAST_SECOND
    ensures Latest(Erased(s, name, seconds), setKey) == Latest(s, setKey) - EntryOf(s.cells, name, setKey)
  {
    hide KeyPath, SetKey, Latest, History, MarkersOf, Markers, Current, Consistent;
    ErasedOk(s, name, seconds);
    ErasedHistory(s, name, seconds, setKey);
    ConsistentUsers(s);
    LatestIsCurrent(s, setKey);
    LatestIsCurrent(Erased(s, name, seconds), setKey);
    CurrentAfter(s.cells, name, Deleted(seconds), setKey);
    EntryIsNoMarker(s, name, setKey);
  }

  // ---------------------------------------------------------------- navigation

  /** One step of a walk: in the listing at `from`, the marker of directory `to`. */
  ghost predicate LeadsTo<V>(s: Store<V>, from: string, to: string) {
    to + "@0" in Latest(s, from + ":") && to + "@0" in History(s, from + ":")
  }

  /** A walk from one listing prefix to the next by markers. */
  ghost predicate IsWalk<V>(s: Store<V>, walk: seq<string>) {
    walk != [] && forall i | 0 <= i < |walk| - 1 :: LeadsTo(s, walk[i], walk[i + 1])
  }

  /** The listing prefix of a directory; the user's root directory is the one at position -1. */
  function ListingPrefix(name: Name, p: int): (r: string)
    requires p == -1 || EndsDirectory(name.key, p)
  {
    if p == -1 then name.user + ":" else name.user + "::" + name.key[..p]
  }

  function LastColon(key: string): (p: int)
    ensures p == -1 || EndsDirectory(key, p)
    ensures ':' !in key[p + 1..]
    ensures GetPrefix(key) == key[..p + 1]
  {
    match LastIndexOf(key, ':')
    case None => -1
    case Some(pos) => pos
  }

  /** The walk down to the directory that ends at position p. */
  ghost function WalkTo(name: Name, p: int): (walk: seq<string>)
    requires p == -1 || EndsDirectory(name.key, p)
    decreases p
  {
    if p == -1 then [ListingPrefix(name, -1)]
    else
      assert forall i | 0 <= i < p :: name.key[..p][i] == name.key[i];
      WalkTo(name, LastColon(name.key[..p])) + [ListingPrefix(name, p)]
  }

  lemma DirectoryIsMarked<V>(s: Store<V>, name: Name, p: int)
    requires name in s.cells && EndsDirectory(name.key, p)
    ensures LastColon(name.key[..p]) == -1 || EndsDirectory(name.key, LastColon(name.key[..p]))
    ensures LeadsTo(s, ListingPrefix(name, LastColon(name.key[..p])), ListingPrefix(name, p))
  {
    var d := name.key[..p];
    var q := LastColon(d);
    var from := ListingPrefix(name, q);
    assert GetPrefix(d) == d[..q + 1];
    assert name.key[..q + 1] == d[..q + 1];
    assert from + ":" == SetKey(Name(name.user, d)) by {
      if q >= 0 { assert name.key[..q] + ":" == name.key[..q + 1]; }
    }
    assert PrintInt(0) == "0";
    assert ListingPrefix(name, p) + "@0" == KeyPath(Name(name.user, d), 0);
    assert KeyPath(Name(name.user, d), 0) in MarkersOf(name, from + ":");
    assert KeyPath(Name(name.user, d), 0) in Markers(s.cells.Keys, from + ":");
  }

  lemma {:induction false} WalkIsMarked<V>(s: Store<V>, name: Name, p: int)
    requires name in s.cells && (p == -1 || EndsDirectory(name.key, p))
    ensures IsWalk(s, WalkTo(name, p))
    ensures WalkTo(name, p)[0] == name.user + ":"
    ensures WalkTo(name, p)[|WalkTo(name, p)| - 1] == ListingPrefix(name, p)
    decreases p
  {
    if p >= 0 {
      DirectoryIsMarked(s, name, p);
      var q := LastColon(name.key[..p]);
      WalkIsMarked(s, name, q);
      var before, walk := WalkTo(name, q), WalkTo(name, p);
      assert walk == before + [ListingPrefix(name, p)];
      forall i | 0 <= i < |walk| - 1 ensures LeadsTo(s, walk[i], walk[i + 1]) {
        if i < |before| - 1 { assert walk[i] == before[i] && walk[i + 1] == before[i + 1]; }
      }
    }
  }

  /**
   Navigability: from the user's root listing, following markers one listing at a time, a walk
   reaches the very listing that holds every version of the key.
   */
  lemma EveryKeyIsReachable<V>(s: Store<V>, name: Name) returns (walk: seq<string>)
    requires name in s.cells
    ensures IsWalk(s, walk) && walk[0] == name.user + ":"
    ensures walk[|walk| - 1] + ":" == SetKey(name) == name.user + "::" + GetPrefix(name.key)
    ensures forall v | v in s.versions && v.name == name :: PathOf(v) in History(s, walk[|walk| - 1] + ":")
  {
    var p := LastColon(name.key);
    walk := WalkTo(name, p);
    WalkIsMarked(s, name, p);
    if p >= 0 { assert name.key[..p] + ":" == name.key[..p + 1]; }
  }

  /** Conversely, every listed marker names a directory that some created key lies in. */
  lemma EveryMarkerLeadsToAKey<V>(s: Store<V>, setKey: string, m: string)
    requires m in Markers(s.cells.Keys, setKey)
    ensures exists name: Name, p: nat ::
              && name in s.cells && p < |name.key| && EndsDirectory(name.key, p)
              && m == ListingPrefix(name, p) + "@0" && SetKey(Name(name.user, name.key[..p])) == setKey
  {
    var name :| name in s.cells && m in MarkersOf(name, setKey);
    var position: nat :| position < |name.key| && EndsDirectory(name.key, position)
      && m == KeyPath(Name(name.user, name.key[..position]), 0)
      && SetKey(Name(name.user, name.key[..position])) == setKey;
    assert PrintInt(0) == "0";
    assert m == ListingPrefix(name, position) + "@0";
  }
}
