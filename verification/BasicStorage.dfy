/** The in-memory storage: three maps keyed by printed strings, updated in place. */
module BasicStorage {
  import opened Wrappers
  import opened Strings
  import opened KeyPaths
  import opened VersionedStore

  datatype PathSets = PathSets(latest: set<string>, history: set<string>)

  /** The sets under a prefix; a missing entry counts as a pair of empty sets. */
  function SetsAt(prefixes: map<string, PathSets>, setKey: string): PathSets {
    if setKey in prefixes then prefixes[setKey] else PathSets({}, {})
  }

  ghost predicate ValuesOk<V>(values: map<string, V>, versions: map<Version, V>) {
    && (forall v | v in versions :: PathOf(v) in values && values[PathOf(v)] == versions[v])
    && (forall path | path in values :: exists v :: v in versions && PathOf(v) == path)
  }

  ghost predicate TimestampsOk(timestamps: map<string, int>, cells: map<Name, Cell>) {
    && (forall name | name in cells ::
        FullName(name) in timestamps && timestamps[FullName(name)] == cells[name].timestamp)
    && (forall full | full in timestamps :: exists name :: name in cells && FullName(name) == full)
  }

  /** The index holds, under every key, what a scan would find. */
  ghost predicate IndexOk<V>(prefixes: map<string, PathSets>, s: Store<V>) {
    forall setKey :: SetsAt(prefixes, setKey) == PathSets(Latest(s, setKey), History(s, setKey))
  }

  class BasicStorage<V> {
    var keyPathToValue: map<string, V>
    var keyNameToTimestamp: map<string, int>
    var prefixToKeyPaths: map<string, PathSets>
    ghost var store: Store<V>

    ghost predicate Valid()
      reads this
    {
      && Consistent(store)
      && ValuesOk(keyPathToValue, store.versions)
      && TimestampsOk(keyNameToTimestamp, store.cells)
      && IndexOk(prefixToKeyPaths, store)
    }

    constructor ()
      ensures Valid() && store == Empty<V>()
    {
      keyPathToValue, keyNameToTimestamp, prefixToKeyPaths := map[], map[], map[];
      store := Empty<V>();
    }

    /** Inserts a path into both sets under a key. */
    method InsertPath(setKey: string, path: string)
      modifies this`prefixToKeyPaths
      ensures forall k :: SetsAt(prefixToKeyPaths, k) ==
                if k == setKey
                then PathSets(SetsAt(old(prefixToKeyPaths), k).latest + {path}, SetsAt(old(prefixToKeyPaths), k).history
                    + {path})
                else SetsAt(old(prefixToKeyPaths), k)
    {
      var sets := SetsAt(prefixToKeyPaths, setKey);
      prefixToKeyPaths := prefixToKeyPaths[setKey := PathSets(sets.latest + {path}, sets.history + {path})];
    }

    /** Removes a path from the latest versions under a key. */
    method RemoveLatest(setKey: string, path: string)
      modifies this`prefixToKeyPaths
      ensures forall k :: SetsAt(prefixToKeyPaths, k) ==
                if k == setKey
                then PathSets(SetsAt(old(prefixToKeyPaths), k).latest - {path},
                    SetsAt(old(prefixToKeyPaths), k).history)
                else SetsAt(old(prefixToKeyPaths), k)
    {
      if setKey in prefixToKeyPaths && path in prefixToKeyPaths[setKey].latest {
        var sets := prefixToKeyPaths[setKey];
        prefixToKeyPaths := prefixToKeyPaths[setKey := PathSets(sets.latest - {path}, sets.history)];
      }
    }

    /** Leaves a marker for every directory of the key, each in the listing of its parent. */
    method MaintainPrefixesAlongPath(userId: string, keyName: string)
      modifies this`prefixToKeyPaths
      ensures forall k :: SetsAt(prefixToKeyPaths, k) ==
                WithMarkers(SetsAt(old(prefixToKeyPaths), k), MarkersOf(Name(userId, keyName), k))
    {
      hide Split, EndsDirectory, KeyPath, SetKey, GetPrefix, CutName;
      var splits := Split(keyName, ':');
      var currentPath := userId + "::";
      var nextPath := userId + "::" + splits[0];
      ghost var name := Name(userId, keyName);
      ghost var start: nat := 0;
      FirstCut(name);
      var i := 0;
      while i < |splits| - 1
        invariant 0 <= i < |splits| && start <= |keyName|
        invariant splits[i..] == Split(keyName[start..], ':') && start + |splits[i]| <= |keyName|
        invariant start == 0 || keyName[start - 1] == ':'
        invariant currentPath == CutName(name, start)
        invariant nextPath == CutName(name, start + |splits[i]|)
        invariant forall k :: SetsAt(prefixToKeyPaths, k) ==
                    WithMarkers(SetsAt(old(prefixToKeyPaths), k), MarkersBefore(name, start, k))
      {
        ghost var p := start + |splits[i]|;
        NextDirectory(keyName, start, p, splits[i..]);
        MarkerPrints(name, start, p);
        forall k { MarkersUpTo(name, start, p, k); }
        InsertPath(currentPath, nextPath + "@0");
        WalkOn(name, p, splits[i + 1]);
        currentPath := nextPath + ":";
        nextPath := nextPath + ":" + splits[i + 1];
        start := p + 1;
        i := i + 1;
      }
      NoMoreDirectories(name, start);
      assert forall k :: MarkersBefore(name, start, k) == MarkersOf(name, k);
    }

    method Create(userId: string, keyName: string, value: V, now: Nanos) returns (r: Result<string, StorageError>)
      requires Valid() && ':' !in userId && Fresh(store, Name(userId, keyName), now)
      modifies this
      ensures Valid()
      ensures (store, r) == Apply(old(store), Operation.Create(Name(userId, keyName), value, now))
      ensures r == if Name(userId, keyName) in old(View(store))
                   then Failure(KeyNameAlreadyExists(userId + "::" + keyName))
                   else Success(userId + "::" + keyName + "@" + PrintInt(now))
    {
      hide View, FullName, KeyPath, SetKey, Latest, History, MarkersOf, ValuesOk, TimestampsOk, IndexOk, Consistent,
          Fresh;
      CreateAnswers(store, userId, keyName, value, now);
      var name := Name(userId, keyName);
      var keyPathCreated := KeyPath(name, now);
      var userIdKeyName := FullName(name);
      LookupName(keyNameToTimestamp, store, name);
      if userIdKeyName in keyNameToTimestamp {
        LookupPath(keyPathToValue, store, Version(name, keyNameToTimestamp[userIdKeyName]));
        LiveMeansStored(store, name);
        if KeyPath(name, keyNameToTimestamp[userIdKeyName]) in keyPathToValue {
          return Failure(KeyNameAlreadyExists(userIdKeyName));
        }
      } else {
        MaintainPrefixesAlongPath(userId, keyName);
      }
      keyPathToValue := keyPathToValue[keyPathCreated := value];
      keyNameToTimestamp := keyNameToTimestamp[userIdKeyName := now];
      InsertPath(SetKey(name), keyPathCreated);
      store := Written(store, name, value, now);
      if name in old(store).cells {
        forall k { KnownMarkers(old(prefixToKeyPaths), old(store), name, k); }
      }
      WriteKeepsValid(old(keyPathToValue), old(keyNameToTimestamp), old(prefixToKeyPaths), prefixToKeyPaths, old(store),
          name, value, now);
      r := Success(keyPathCreated);
    }

    method Update(userId: string, keyName: string, value: V, now: Nanos) returns (r: Result<string, StorageError>)
      requires Valid() && ':' !in userId && Fresh(store, Name(userId, keyName), now)
      modifies this
      ensures Valid()
      ensures (store, r) == Apply(old(store), Operation.Update(Name(userId, keyName), value, now))
      ensures r == Success(userId + "::" + keyName + "@" + PrintInt(now))
    {
      hide FullName, KeyPath, SetKey, Latest, History, MarkersOf, ValuesOk, TimestampsOk, IndexOk, Consistent, Fresh;
      UpdateAnswers(store, userId, keyName, value, now);
      var name := Name(userId, keyName);
      var keyPathCreated := KeyPath(name, now);
      var userIdKeyName := FullName(name);
      LookupName(keyNameToTimestamp, store, name);
      keyPathToValue := keyPathToValue[keyPathCreated := value];
      var oldTimestamp := if userIdKeyName in keyNameToTimestamp then keyNameToTimestamp[userIdKeyName] else 0;
      keyNameToTimestamp := keyNameToTimestamp[userIdKeyName := now];
      if oldTimestamp == 0 {
        MaintainPrefixesAlongPath(userId, keyName);
      } else {
        RemoveLatest(SetKey(name), KeyPath(name, oldTimestamp));
      }
      InsertPath(SetKey(name), keyPathCreated);
      store := Written(store, name, value, now);
      forall k
        ensures SetsAt(prefixToKeyPaths, k) == WrittenSets(SetsAt(old(prefixToKeyPaths), k), old(store), name, now, k)
      {
        if name in old(store).cells {
          KnownMarkers(old(prefixToKeyPaths), old(store), name, k);
          if oldTimestamp != 0 { ReplacedSets(old(prefixToKeyPaths), old(store), name, now, k); }
        }
      }
      WriteKeepsValid(old(keyPathToValue), old(keyNameToTimestamp), old(prefixToKeyPaths), prefixToKeyPaths, old(store),
          name, value, now);
      r := Success(keyPathCreated);
    }

    method Delete(userId: string, keyName: string, now: Nanos) returns (r: Result<string, StorageError>)
      requires Valid() && ':' !in userId
      modifies this
      ensures Valid()
      ensures (store, r) == Apply(old(store), Operation.Delete(Name(userId, keyName), now))
      ensures if Name(userId, keyName) !in old(View(store))
              then r == Failure(KeyNameNotFound(keyName)) && store == old(store)
              else r.Success? && exists t :: DeletedAt(old(store), store, userId, keyName, now, r.value, t)
    {
      hide View, DeletedAt, FullName, KeyPath, SetKey, Latest, History, MarkersOf, ValuesOk, TimestampsOk, IndexOk,
          Consistent;
      DeleteAnswers(store, userId, keyName, now);
      SecondsStayBelow(now);
      var name := Name(userId, keyName);
      var timestamp := SecondsOf(now);
      var userIdKeyName := FullName(name);
      LookupName(keyNameToTimestamp, store, name);
      if userIdKeyName in keyNameToTimestamp {
        LookupPath(keyPathToValue, store, Version(name, keyNameToTimestamp[userIdKeyName]));
        LiveMeansStored(store, name);
      }
      if userIdKeyName in keyNameToTimestamp && KeyPath(name, keyNameToTimestamp[userIdKeyName]) in keyPathToValue {
        var oldTimestamp := keyNameToTimestamp[userIdKeyName];
        keyNameToTimestamp := keyNameToTimestamp[userIdKeyName := timestamp];
        if oldTimestamp != 0 {
          RemoveLatest(SetKey(name), KeyPath(name, oldTimestamp));
        }
        store := Erased(store, name, timestamp);
        forall k ensures SetsAt(prefixToKeyPaths, k) ==
                    PathSets(SetsAt(old(prefixToKeyPaths), k).latest - EntryOf(old(store).cells, name, k),
                        SetsAt(old(prefixToKeyPaths), k).history)
        {
          KnownMarkers(old(prefixToKeyPaths), old(store), name, k);
          ReplacedSets(old(prefixToKeyPaths), old(store), name, now, k);
        }
        EraseKeepsValid(old(keyNameToTimestamp), old(prefixToKeyPaths), prefixToKeyPaths, old(store), name, timestamp);
        r := Success(KeyPath(name, timestamp));
      } else {
        r := Failure(KeyNameNotFound(keyName));
      }
    }

    /** All or nothing: every path is read, or the first that is not stored is reported. */
    method ReadFromKeyPaths(keyPaths: seq<string>) returns (r: Result<map<string, V>, StorageError>)
      requires Valid()
      ensures match r
              case Success(values) =>
                && values.Keys == (set path | path in keyPaths)
                && forall path | path in keyPaths :: ReadsAs(store, path, values[path])
              case Failure(error) =>
                exists i | 0 <= i < |keyPaths| ::
                  && error == KeyPathNotFound(keyPaths[i]) && !Readable(store, keyPaths[i])
                  && forall j | 0 <= j < i :: Readable(store, keyPaths[j])
    {
      hide ReadsAs, Readable, ValuesOk, TimestampsOk, IndexOk, Consistent;
      var result: map<string, V> := map[];
      for n := 0 to |keyPaths|
        invariant result.Keys == set path | path in keyPaths[..n]
        invariant forall i | 0 <= i < n ::
                    Readable(store, keyPaths[i]) && ReadsAs(store, keyPaths[i], result[keyPaths[i]])
      {
        var keyPath := keyPaths[n];
        StoredIsReadable(keyPathToValue, store, keyPath);
        if keyPath in keyPathToValue {
          assert keyPaths[..n + 1] == keyPaths[..n] + [keyPath];
          result := result[keyPath := keyPathToValue[keyPath]];
        } else {
          return Failure(KeyPathNotFound(keyPath));
        }
      }
      assert keyPaths[..|keyPaths|] == keyPaths;
      r := Success(result);
    }

    /** All or nothing again, by name: each live name gives the path and the value of its latest version. */
    method ReadFromKeyNames(userId: string, keyNames: seq<string>) returns (r: Result<map<string, V>, StorageError>)
      requires Valid() && ':' !in userId
      ensures match r
              case Success(values) =>
                && (forall i | 0 <= i < |keyNames| ::
                      var name := Name(userId, keyNames[i]);
                      && name in View(store)
                      && KeyPath(name, store.cells[name].timestamp) in values
                      && values[KeyPath(name, store.cells[name].timestamp)] == View(store)[name])
                && (forall path | path in values ::
                      exists i | 0 <= i < |keyNames| :: CurrentPath(store.cells, Name(userId, keyNames[i]), path))
              case Failure(error) =>
                exists i | 0 <= i < |keyNames| ::
                  && error == (if Name(userId, keyNames[i]) !in store.cells then KeyNameNotFound(keyNames[i])
                     else EntryDeleted(KeyPath(Name(userId, keyNames[i]),
                              store.cells[Name(userId, keyNames[i])].timestamp)))
                  && Name(userId, keyNames[i]) !in View(store)
                  && forall j | 0 <= j < i :: Name(userId, keyNames[j]) in View(store)
    {
      hide KeyPath, FullName, ValuesOk, TimestampsOk, IndexOk, Consistent, View;
      var result: map<string, V> := map[];
      for n := 0 to |keyNames|
        invariant forall i | 0 <= i < n ::
                    var name := Name(userId, keyNames[i]);
                    && name in View(store) && IsLive(store, name)
                    && KeyPath(name, store.cells[name].timestamp) in result
                    && result[KeyPath(name, store.cells[name].timestamp)] == View(store)[name]
        invariant forall path | path in result ::
                    exists i | 0 <= i < n :: CurrentPath(store.cells, Name(userId, keyNames[i]), path)
      {
        var name := Name(userId, keyNames[n]);
        LookupName(keyNameToTimestamp, store, name);
        ViewAt(store, name);
        if FullName(name) !in keyNameToTimestamp {
          return Failure(KeyNameNotFound(keyNames[n]));
        }
        var timestamp := keyNameToTimestamp[FullName(name)];
        var keyPath := KeyPath(name, timestamp);
        LookupPath(keyPathToValue, store, Version(name, timestamp));
        LiveMeansStored(store, name);
        if keyPath !in keyPathToValue {
          return Failure(EntryDeleted(keyPath));
        }
        SameNameOrOtherPath(store, name, timestamp);
        result := result[keyPath := keyPathToValue[keyPath]];
        assert CurrentPath(store.cells, name, keyPath);
      }
      r := Success(result);
    }

    /** The set under the prefix, in whatever order it comes. */
    method ListKeys(prefix: string, includeHistory: bool) returns (r: seq<string>)
      requires Valid()
      ensures (set path | path in r) == if includeHistory then History(store, prefix + ":")
              else Latest(store, prefix + ":")
      ensures forall i, j | 0 <= i < j < |r| :: r[i] != r[j]
    {
      assert SetsAt(prefixToKeyPaths, prefix + ":")
          == PathSets(Latest(store, prefix + ":"), History(store, prefix + ":"));
      if prefix + ":" !in prefixToKeyPaths {
        return [];
      }
      var sets := prefixToKeyPaths[prefix + ":"];
      r := ToSeq(if includeHistory then sets.history else sets.latest);
    }
  }

  method ToSeq(paths: set<string>) returns (r: seq<string>)
    ensures (set path | path in r) == paths
    ensures forall i, j | 0 <= i < j < |r| :: r[i] != r[j]
  {
    r := [];
    var rest := paths;
    while rest != {}
      invariant (set path | path in r) + rest == paths && (set path | path in r) !! rest
      invariant forall i, j | 0 <= i < j < |r| :: r[i] != r[j]
      decreases |rest|
    {
      var path :| path in rest;
      assert path !in r;
      rest := rest - {path};
      r := r + [path];
    }
  }

  predicate CurrentPath(cells: map<Name, Cell>, name: Name, path: string) {
    name in cells && cells[name].Live? && path == KeyPath(name, cells[name].timestamp)
  }

  /** The error for a name without a value: never created, or deleted. */
  function NameError(cells: map<Name, Cell>, name: Name): StorageError {
    if name !in cells then KeyNameNotFound(name.key) else EntryDeleted(KeyPath(name, cells[name].timestamp))
  }

  lemma StoredIsReadable<V>(values: map<string, V>, s: Store<V>, path: string)
    requires ValuesOk(values, s.versions)
    ensures path in values <==> Readable(s, path)
    ensures path in values ==> ReadsAs(s, path, values[path])
  {}

  /** Two live names never share the path of their latest version. */
  lemma SameNameOrOtherPath<V>(s: Store<V>, name: Name, timestamp: int)
    requires Consistent(s) && ':' !in name.user
    ensures forall n | n in s.cells && n != name :: KeyPath(n, s.cells[n].timestamp) != KeyPath(name, timestamp)
  {
    forall n | n in s.cells && n != name ensures KeyPath(n, s.cells[n].timestamp) != KeyPath(name, timestamp) {
      assert CellOk(s, n);
      if KeyPath(n, s.cells[n].timestamp) == KeyPath(name, timestamp) {
        KeyPathInjective(n, s.cells[n].timestamp, name, timestamp);
      }
    }
  }

  function WithMarkers(sets: PathSets, markers: set<string>): PathSets {
    PathSets(sets.latest + markers, sets.history + markers)
  }

  // ---------------------------------------------------------------- splitting a key into directories

  lemma SplitHead(s: string)
    ensures Split(s, ':')[0] <= s
  {}

  /** The first of several components ends at the first colon; the others are the components of what follows it. */
  lemma SplitRest(s: string)
    requires |Split(s, ':')| > 1
    ensures var j := |Split(s, ':')[0]|;
            && j < |s| && s[j] == ':' && ':' !in s[..j]
            && Split(s, ':')[1..] == Split(s[j + 1..], ':') && Split(s, ':')[1] <= s[j + 1..]
  {
    hide IndexOf;
    var j := IndexOf(s, ':').value;
    var rest := Split(s[j + 1..], ':');
    assert Split(s, ':') == [s[..j]] + rest;
    SplitHead(s[j + 1..]);
    hide Split;
    assert ([s[..j]] + rest)[0] == s[..j] && ([s[..j]] + rest)[1..] == rest && ([s[..j]] + rest)[1] == rest[0];
  }

  /** The next component ends a directory, and the listing walked to so far is that directory's parent. */
  lemma NextDirectory(key: string, start: nat, p: nat, parts: seq<string>)
    requires start <= |key| && parts == Split(key[start..], ':') && |parts| > 1 && p == start + |parts[0]|
    requires start == 0 || key[start - 1] == ':'
    ensures EndsDirectory(key, p)
    ensures forall q | start <= q < p :: !EndsDirectory(key, q)
    ensures parts[1..] == Split(key[p + 1..], ':') && parts[1] <= key[p + 1..]
    ensures GetPrefix(key[..p]) == key[..start]
  {
    SplitRest(key[start..]);
    hide Split, GetPrefix, EndsDirectory;
    DropTwice(key, start, |parts[0]| + 1);
    NoColonBetween(key, start, |parts[0]|);
    ParentDirectory(key, start, p);
  }

  lemma DropTwice(s: string, a: nat, b: nat)
    requires a + b <= |s|
    ensures s[a..][b..] == s[a + b..]
  {}

  lemma NoColonBetween(key: string, start: nat, j: nat)
    requires start + j < |key| && key[start..][j] == ':' && ':' !in key[start..][..j]
    ensures EndsDirectory(key, start + j)
    ensures forall q | start <= q < start + j :: !EndsDirectory(key, q)
  {}

  lemma ParentDirectory(key: string, start: nat, p: nat)
    requires start <= p && EndsDirectory(key, p) && (start == 0 || key[start - 1] == ':')
    requires forall q | start <= q < p :: !EndsDirectory(key, q)
    ensures GetPrefix(key[..p]) == key[..start]
  {
    var d := key[..p];
    forall q | start <= q < p ensures d[q] != ':' { assert !EndsDirectory(key, q); }
    if start > 0 { LastIndexOfIs(d, ':', start - 1); }
  }

  /** One more marker: the directory that ends at p, in the listing of its parent. */
  lemma MarkersUpTo(name: Name, start: nat, p: nat, k: string)
    requires start <= p && EndsDirectory(name.key, p)
    requires forall q | start <= q < p :: !EndsDirectory(name.key, q)
    ensures MarkersBefore(name, p + 1, k) ==
            MarkersBefore(name, start, k) +
            if k == SetKey(Name(name.user, name.key[..p])) then {KeyPath(Name(name.user, name.key[..p]), 0)} else {}
  {}

  lemma MarkerPrints(name: Name, start: nat, p: nat)
    requires start <= p <= |name.key| && GetPrefix(name.key[..p]) == name.key[..start]
    ensures SetKey(Name(name.user, name.key[..p])) == CutName(name, start)
    ensures KeyPath(Name(name.user, name.key[..p]), 0) == CutName(name, p) + "@0"
  {}

  lemma FirstCut(name: Name)
    ensures var part := Split(name.key, ':')[0];
            && name.key[0..] == name.key && |part| <= |name.key|
            && name.user + "::" == CutName(name, 0) && name.user + "::" + part == CutName(name, |part|)
  {}

  lemma WalkOn(name: Name, p: nat, part: string)
    requires EndsDirectory(name.key, p) && part <= name.key[p + 1..]
    ensures p < |name.key| && name.key[p] == ':' && p + 1 + |part| <= |name.key|
    ensures CutName(name, p) + ":" == CutName(name, p + 1)
    ensures CutName(name, p) + ":" + part == CutName(name, p + 1 + |part|)
  {}

  lemma NoMoreDirectories(name: Name, start: nat)
    requires start <= |name.key| && |Split(name.key[start..], ':')| == 1
    ensures forall k :: MarkersBefore(name, start, k) == MarkersOf(name, k)
  {}

  // ---------------------------------------------------------------- looking up

  /** A name is in the timestamp map exactly when it was ever created, with the timestamp of its cell. */
  lemma LookupName<V>(timestamps: map<string, int>, s: Store<V>, name: Name)
    requires Consistent(s) && TimestampsOk(timestamps, s.cells) && ':' !in name.user
    ensures FullName(name) in timestamps <==> name in s.cells
    ensures name in s.cells ==> timestamps[FullName(name)] == s.cells[name].timestamp
  {
    if FullName(name) in timestamps {
      var n :| n in s.cells && FullName(n) == FullName(name);
      assert CellOk(s, n);
      FullNameInjective(n, name);
    }
  }

  /** A path is stored exactly when it is the path of a version. */
  lemma LookupPath<V>(values: map<string, V>, s: Store<V>, v: Version)
    requires Consistent(s) && ValuesOk(values, s.versions) && ':' !in v.name.user
    ensures PathOf(v) in values <==> v in s.versions
    ensures v in s.versions ==> values[PathOf(v)] == s.versions[v]
  {
    if PathOf(v) in values {
      var w :| w in s.versions && PathOf(w) == PathOf(v);
      assert VersionOk(s, w);
      KeyPathInjective(w.name, w.timestamp, v.name, v.timestamp);
    }
  }

  lemma LiveMeansStored<V>(s: Store<V>, name: Name)
    requires Consistent(s) && name in s.cells
    ensures IsLive(s, name) <==> Version(name, s.cells[name].timestamp) in s.versions
  {}

  // ---------------------------------------------------------------- the maps after a change

  lemma WrittenValuesOk<V>(values: map<string, V>, s: Store<V>, name: Name, value: V, now: Nanos)
    requires Consistent(s) && ValuesOk(values, s.versions) && ':' !in name.user && Version(name, now) !in s.versions
    ensures ValuesOk(values[KeyPath(name, now) := value], Written(s, name, value, now).versions)
  {
    hide KeyPath, Consistent;
    var values' := values[KeyPath(name, now) := value];
    var versions' := s.versions[Version(name, now) := value];
    LookupPath(values, s, Version(name, now));
    assert PathOf(Version(name, now)) == KeyPath(name, now) && KeyPath(name, now) !in values;
    hide PathOf;
    forall v | v in versions' ensures PathOf(v) in values' && values'[PathOf(v)] == versions'[v] {
      assert v in s.versions ==> PathOf(v) in values;
    }
    forall path | path in values' ensures exists v :: v in versions' && PathOf(v) == path {
      if path == KeyPath(name, now) {
        assert Version(name, now) in versions' && PathOf(Version(name, now)) == path;
      } else {
        var v :| v in s.versions && PathOf(v) == path;
        assert v in versions';
      }
    }
  }

  lemma ChangedTimestampsOk<V>(timestamps: map<string, int>, s: Store<V>, name: Name, cell: Cell)
    requires Consistent(s) && TimestampsOk(timestamps, s.cells) && ':' !in name.user
    ensures TimestampsOk(timestamps[FullName(name) := cell.timestamp], s.cells[name := cell])
  {
    hide FullName, Consistent;
    ConsistentUsers(s);
    var timestamps' := timestamps[FullName(name) := cell.timestamp];
    var cells' := s.cells[name := cell];
    forall n | n in cells' && n != name
      ensures FullName(n) in timestamps' && timestamps'[FullName(n)] == cells'[n].timestamp
    {
      if FullName(n) == FullName(name) { FullNameInjective(n, name); }
    }
    forall full | full in timestamps' ensures exists n :: n in cells' && FullName(n) == full {
      if full == FullName(name) {
        assert name in cells';
      } else {
        var n :| n in s.cells && FullName(n) == full;
        assert n in cells';
      }
    }
  }

  /** A name created before has its markers in place; only a live one has an entry, and that is no marker. */
  lemma KnownMarkers<V>(prefixes: map<string, PathSets>, s: Store<V>, name: Name, k: string)
    requires Consistent(s) && IndexOk(prefixes, s) && name in s.cells
    ensures MarkersOf(name, k) <= SetsAt(prefixes, k).latest
    ensures MarkersOf(name, k) <= SetsAt(prefixes, k).history
    ensures EntryOf(s.cells, name, k) !! MarkersOf(name, k)
    ensures IsLive(s, name) ==> s.cells[name].timestamp != 0
    ensures !IsLive(s, name) && s.cells[name].timestamp != 0
            ==> KeyPath(name, s.cells[name].timestamp) !in SetsAt(prefixes, k).latest
  {
    hide KeyPath, SetKey;
    var t := s.cells[name].timestamp;
    assert CellOk(s, name);
    assert MarkersOf(name, k) <= Markers(s.cells.Keys, k);
    LatestIsCurrent(s, k);
    EntryIsNoMarker(s, name, k);
    if IsLive(s, name) {
      assert VersionOk(s, Version(name, t));
    } else if t != 0 {
      MarkersAreNotVersions(s, name, t, k);
      forall n, x | n in s.cells && x in EntryOf(s.cells, n, k) ensures x != KeyPath(name, t) {
        assert CellOk(s, n);
        if x == KeyPath(name, t) { KeyPathInjective(n, s.cells[n].timestamp, name, t); }
      }
    }
  }

  /** The index entry that a write to a name leaves under a key. */
  function WrittenSets<V>(sets: PathSets, s: Store<V>, name: Name, now: int, k: string): PathSets {
    var new' := if SetKey(name) == k then {KeyPath(name, now)} else {};
    PathSets(sets.latest - EntryOf(s.cells, name, k) + MarkersOf(name, k) + new', sets.history + MarkersOf(name, k)
        + new')
  }

  /** Taking out the path of the old timestamp takes out exactly the name's entry. */
  lemma ReplacedSets<V>(prefixes: map<string, PathSets>, s: Store<V>, name: Name, now: int, k: string)
    requires Consistent(s) && IndexOk(prefixes, s) && name in s.cells && s.cells[name].timestamp != 0
    ensures var L, H := SetsAt(prefixes, k).latest, SetsAt(prefixes, k).history;
            var rest := L - if k == SetKey(name) then {KeyPath(name, s.cells[name].timestamp)} else {};
            var new' := if k == SetKey(name) then {KeyPath(name, now)} else {};
            && rest == L - EntryOf(s.cells, name, k)
            && PathSets(rest + new', H + new') == WrittenSets(SetsAt(prefixes, k), s, name, now, k)
  {
    hide KeyPath, SetKey, MarkersOf, IndexOk, Consistent;
    KnownMarkers(prefixes, s, name, k);
  }

  lemma FreshIsNew<V>(s: Store<V>, name: Name, now: int)
    requires Fresh(s, name, now)
    ensures Version(name, now) !in s.versions
  {}

  lemma WriteKeepsValid<V>(values: map<string, V>, timestamps: map<string, int>, prefixes: map<string, PathSets>,
                           prefixes': map<string, PathSets>, s: Store<V>, name: Name, value: V, now: Nanos)
    requires Consistent(s) && ValuesOk(values, s.versions) && TimestampsOk(timestamps, s.cells) && IndexOk(prefixes, s)
    requires ':' !in name.user && Fresh(s, name, now)
    requires forall k :: SetsAt(prefixes', k) == WrittenSets(SetsAt(prefixes, k), s, name, now, k)
    ensures var s' := Written(s, name, value, now);
            && Consistent(s')
            && ValuesOk(values[KeyPath(name, now) := value], s'.versions)
            && TimestampsOk(timestamps[FullName(name) := now], s'.cells)
            && IndexOk(prefixes', s')
  {
    hide KeyPath, FullName, Latest, History, Consistent, Fresh, SetKey;
    FreshIsNew(s, name, now);
    WrittenOk(s, name, value, now);
    WrittenValuesOk(values, s, name, value, now);
    ChangedTimestampsOk(timestamps, s, name, Live(now));
    forall k
      ensures SetsAt(prefixes', k)
              == PathSets(Latest(Written(s, name, value, now), k), History(Written(s, name, value, now), k))
    {
      WrittenHistory(s, name, value, now, k);
      WrittenLatest(s, name, value, now, k);
    }
  }

  lemma EraseKeepsValid<V>(timestamps: map<string, int>, prefixes: map<string, PathSets>,
                           prefixes': map<string, PathSets>,
                           s: Store<V>, name: Name, seconds: int)
    requires Consistent(s) && TimestampsOk(timestamps, s.cells) && IndexOk(prefixes, s)
    requires IsLive(s, name) && ':' !in name.user && 0 <= seconds <= LAST_SECOND
    requires forall k :: SetsAt(prefixes', k) ==
               PathSets(SetsAt(prefixes, k).latest - EntryOf(s.cells, name, k), SetsAt(prefixes, k).history)
    ensures var s' := Erased(s, name, seconds);
            && Consistent(s')
            && TimestampsOk(timestamps[FullName(name) := seconds], s'.cells)
            && IndexOk(prefixes', s')
  {
    hide KeyPath, FullName, Latest, History, Consistent, SetKey;
    ErasedOk(s, name, seconds);
    ChangedTimestampsOk(timestamps, s, name, Deleted(seconds));
    forall k
      ensures SetsAt(prefixes', k)
              == PathSets(Latest(Erased(s, name, seconds), k), History(Erased(s, name, seconds), k))
    {
      ErasedHistory(s, name, seconds, k);
      ErasedLatest(s, name, seconds, k);
    }
  }
}
