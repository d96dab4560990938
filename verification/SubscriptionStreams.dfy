/** What a subscriber's queue holds, at every phase of the subscription. */
module SubscriptionStreams {
  import opened Wrappers
  import opened Strings
  import opened KeyPaths
  import opened VersionedStore
  import opened Routing
  import opened Subscription
  import opened SubscriptionInvariant

  function Occurs<V>(ms: seq<Message<V>>, path: string): (n: nat) {
    if ms == [] then 0
    else Occurs(ms[..|ms| - 1], path) + if ms[|ms| - 1].keyPath == path then 1 else 0
  }

  lemma OccursAppend<V>(ms: seq<Message<V>>, m: Message<V>, path: string)
    ensures Occurs(ms + [m], path) == Occurs(ms, path) + if m.keyPath == path then 1 else 0
  {}

  lemma {:induction false} OccursNowhere<V>(ms: seq<Message<V>>, path: string)
    requires forall m | m in ms :: m.keyPath != path
    ensures Occurs(ms, path) == 0
  {
    if ms != [] { OccursNowhere(ms[..|ms| - 1], path); }
  }

  lemma {:induction false} OccursOnce<V>(ms: seq<Message<V>>, path: string)
    requires forall i, j | 0 <= i < j < |ms| :: ms[i].keyPath != ms[j].keyPath
    ensures Occurs(ms, path) == if path in KeyPathsOf(ms) then 1 else 0
  {
    if ms != [] {
      var init, last := ms[..|ms| - 1], ms[|ms| - 1];
      OccursOnce(init, path);
      assert ms == init + [last];
      if path == last.keyPath {
        assert forall m | m in init :: m.keyPath != path;
        assert last in ms;
      } else if path in KeyPathsOf(ms) {
        var m :| m in ms && m.keyPath == path;
        assert m in init;
      }
    }
  }

  /** A message about this name: a version with its value, or a deletion with its second. */
  ghost predicate Known<V>(versions: map<Version, V>, name: Name, m: Message<V>) {
    || (exists v :: v in versions && v.name == name && m.keyPath == PathOf(v) && m.payload == Some(versions[v]))
    || (m.changeType == "delete" && m.payload == None && exists t ::
        0 <= t <= LAST_SECOND && m.keyPath == KeyPath(name, t))
  }

  ghost predicate AllKnown<V>(versions: map<Version, V>, name: Name, ms: seq<Message<V>>) {
    forall m | m in ms :: Known(versions, name, m)
  }

  /** Exactly once from the start on, never twice before it, and not yet at all while its writer is under way. */
  ghost predicate DeliveredRight<V>(flights: set<Version>, start: int, ms: seq<Message<V>>, v: Version) {
    var limit := if v in flights then 0 else 1;
    Occurs(ms, PathOf(v)) <= limit && (v.timestamp >= start ==> Occurs(ms, PathOf(v)) == limit)
  }

  ghost predicate Complete<V>(versions: map<Version, V>, flights: set<Version>, name: Name, start: int,
                              ms: seq<Message<V>>) {
    forall v | v in versions && v.name == name :: DeliveredRight(flights, start, ms, v)
  }

  ghost function PathsFrom(versions: set<Version>, name: Name, start: int): (r: set<string>) {
    set v | v in versions && v.name == name && v.timestamp >= start :: PathOf(v)
  }

  ghost predicate ListsVersions<V>(versions: map<Version, V>, name: Name, start: int, paths: seq<string>) {
    SetOf(paths) == PathsFrom(versions.Keys, name, start)
  }

  /**
   The subscriptions that the hand-off speaks of: directory markers are at timestamp 0, and the
   broker's own key is written past it.
   */
  predicate Claims<V>(p: Process<V>)
    requires p.Subscriber?
  {
    p.start > 0 && p.name.key != MQ_URI
  }

  ghost predicate StreamOk<V>(versions: map<Version, V>, flights: set<Version>, registered: bool,
                              contents: seq<Message<V>>, p: Process<V>)
    requires p.Subscriber?
  {
    && AllKnown(versions, p.name, contents)
    && match p.subscribing
       case Listed(paths) =>
         && contents == []
         && (forall path | path in paths :: NameOfPath(path) == Some(FullName(p.name)))
         && (Claims(p) ==> ListsVersions(versions, p.name, p.start, paths))
       case Sending(rest) =>
         && AllKnown(versions, p.name, rest)
         && (Claims(p) && registered ==> Complete(versions, flights, p.name, p.start, contents + rest))
       case Subscribed => Claims(p) && registered ==> Complete(versions, flights, p.name, p.start, contents)
       case Failed => !Claims(p)
       case _ => contents == []
  }

  ghost predicate StreamsOk<V>(versions: map<Version, V>, flights: set<Version>, registry: map<string, string>,
                               streams: map<string, seq<Message<V>>>, processes: Processes<V>) {
    forall pid | pid in processes && processes[pid].Subscriber? ::
      StreamOk(versions, flights, processes[pid].queue in registry, Contents(streams, processes[pid].queue),
          processes[pid])
  }

  ghost predicate VersionsOk<V>(versions: map<Version, V>) {
    forall v | v in versions :: ':' !in v.name.user && LAST_SECOND < v.timestamp <= I64_MAX
  }

  // ---------------------------------------------------------------- new versions

  lemma KnownGrows<V>(versions: map<Version, V>, v: Version, value: V, name: Name, ms: seq<Message<V>>)
    requires AllKnown(versions, name, ms) && v !in versions
    ensures AllKnown(versions[v := value], name, ms)
  {}

  /** No message about a name has the path of a version that is only now made. */
  lemma NewVersionNotIn<V>(versions: map<Version, V>, v: Version, name: Name, ms: seq<Message<V>>)
    requires AllKnown(versions, name, ms) && VersionsOk(versions) && v !in versions
    requires ':' !in v.name.user && ':' !in name.user && LAST_SECOND < v.timestamp
    ensures Occurs(ms, PathOf(v)) == 0
  {
    hide KeyPath;
    forall m | m in ms ensures m.keyPath != PathOf(v) {
      assert Known(versions, name, m);
      if m.keyPath == PathOf(v) {
        if w :| w in versions && w.name == name && m.keyPath == PathOf(w) && m.payload == Some(versions[w]) {
          KeyPathInjective(w.name, w.timestamp, v.name, v.timestamp);
        } else {
          var t :| 0 <= t <= LAST_SECOND && m.keyPath == KeyPath(name, t);
          KeyPathInjective(name, t, v.name, v.timestamp);
        }
      }
    }
    OccursNowhere(ms, PathOf(v));
  }

  /** A writer stores a version: it is in flight, and in no queue. */
  lemma StreamAfterStore<V>(versions: map<Version, V>, flights: set<Version>, registered: bool,
                            contents: seq<Message<V>>, p: Process<V>,
                            v: Version, value: V)
    requires p.Subscriber? && ':' !in p.name.user && StreamOk(versions, flights, registered, contents, p)
             && !IsExclusive(p)
    requires VersionsOk(versions) && v !in versions && ':' !in v.name.user && LAST_SECOND < v.timestamp
    ensures StreamOk(versions[v := value], flights + {v}, registered, contents, p)
  {
    KnownGrows(versions, v, value, p.name, contents);
    NewVersionNotIn(versions, v, p.name, contents);
    if p.subscribing.Subscribed? && Claims(p) && registered {
      forall w | w in versions[v := value] && w.name == p.name
        ensures DeliveredRight(flights + {v}, p.start, contents, w)
      {
        if w != v { assert DeliveredRight(flights, p.start, contents, w); }
      }
    }
  }

  /** The broker's own key is stored past the lock; subscriptions to other keys do not notice. */
  lemma StreamAfterMqUri<V>(versions: map<Version, V>, flights: set<Version>, registered: bool,
                            contents: seq<Message<V>>, p: Process<V>,
                            v: Version, value: V)
    requires p.Subscriber? && StreamOk(versions, flights, registered, contents, p)
    requires v !in versions && v.name.key == MQ_URI
    ensures StreamOk(versions[v := value], flights, registered, contents, p)
  {}

  // ---------------------------------------------------------------- publishing, or not

  /** A message is published for every queue of its name; the version's flight ends. */
  lemma StreamAfterPublish<V>(versions: map<Version, V>, flights: set<Version>, registered: bool,
                              contents: seq<Message<V>>, p: Process<V>,
                              op: Operation<V>)
    requires p.Subscriber? && ':' !in p.name.user && StreamOk(versions, flights, registered, contents, p)
             && !IsExclusive(p)
    requires VersionsOk(versions) && ':' !in op.name.user
    requires !op.Delete? ==>
               VersionOf(op) in versions && versions[VersionOf(op)] == op.value && VersionOf(op) in flights
    ensures var bound := IsRouted(p.subscribing) && op.name == p.name;
            var flights' := if op.Delete? then flights else flights - {VersionOf(op)};
            StreamOk(versions, flights', registered, if bound then contents + [MessageOf(op)] else contents, p)
  {
    hide KeyPath;
    var m := MessageOf(op);
    var bound := IsRouted(p.subscribing) && op.name == p.name;
    var flights' := if op.Delete? then flights else flights - {VersionOf(op)};
    var contents' := if bound then contents + [m] else contents;
    if op.Delete? { SecondsStayBelow(op.now); }
    if bound { assert Known(versions, p.name, m); }
    if p.subscribing.Subscribed? && Claims(p) && registered {
      forall w | w in versions && w.name == p.name ensures DeliveredRight(flights', p.start, contents', w) {
        assert DeliveredRight(flights, p.start, contents, w);
        OccursAppend(contents, m, PathOf(w));
        if bound { PublishedPath(op, w); }
      }
    }
  }

  /** Of all versions, a published message has the path of the one just written, and a deletion has none. */
  lemma PublishedPath<V>(op: Operation<V>, w: Version)
    requires ':' !in op.name.user && ':' !in w.name.user && LAST_SECOND < w.timestamp
    ensures MessageOf(op).keyPath == PathOf(w) <==> !op.Delete? && w == VersionOf(op)
  {
    hide KeyPath;
    var t := if op.Delete? then SecondsOf(op.now) else op.now;
    if op.Delete? { SecondsStayBelow(op.now); }
    if MessageOf(op).keyPath == PathOf(w) { KeyPathInjective(op.name, t, w.name, w.timestamp); }
  }

  /** Nothing is published because the name is not counted: then no registered queue is subscribed to it. */
  lemma StreamAfterSkip<V>(versions: map<Version, V>, flights: set<Version>, registered: bool,
                           contents: seq<Message<V>>, p: Process<V>, v: Version)
    requires p.Subscriber? && StreamOk(versions, flights, registered, contents, p) && !IsExclusive(p)
    requires v.name == p.name ==> !registered
    ensures StreamOk(versions, flights - {v}, registered, contents, p)
  {}

  // ---------------------------------------------------------------- the snapshot

  /** What the history lists for a name from a start on are its versions from then on: parsing undoes printing. */
  lemma WantedAreVersions<V>(s: Store<V>, name: Name, start: int)
    requires Consistent(s) && ':' !in name.user && start > 0
    ensures WantedPaths(s, name, start) == PathsFrom(s.versions.Keys, name, start)
  {
    PrefixesAgree(name);
    forall v | v in s.versions && v.name == name && v.timestamp >= start
      ensures PathOf(v) in WantedPaths(s, name, start)
    {
      assert VersionOk(s, v);
      PathGivesName(name, v.timestamp);
      PathGivesTimestamp(name, v.timestamp);
      assert PathOf(v) in Paths(s.versions.Keys, SetKey(name));
    }
    forall path | path in WantedPaths(s, name, start) ensures path in PathsFrom(s.versions.Keys, name, start) {
      WantedIsVersion(s, name, start, path);
    }
  }

  lemma WantedIsVersion<V>(s: Store<V>, name: Name, start: int, path: string)
    requires Consistent(s) && ':' !in name.user && start > 0
    requires path in History(s, SetKey(name)) && Wanted(path, FullName(name), start)
    ensures path in PathsFrom(s.versions.Keys, name, start)
  {
    if path in Markers(s.cells.Keys, SetKey(name)) {
      MarkerIsTooOld(s, name, start, path);
    } else {
      var v :| v in s.versions && SetKey(v.name) == SetKey(name) && PathOf(v) == path;
      assert VersionOk(s, v);
      PathGivesName(v.name, v.timestamp);
      PathGivesTimestamp(v.name, v.timestamp);
      FullNameInjective(v.name, name);
    }
  }

  lemma MarkerIsTooOld<V>(s: Store<V>, name: Name, start: int, path: string)
    requires start > 0 && path in Markers(s.cells.Keys, SetKey(name))
    ensures !Wanted(path, FullName(name), start)
  {
    var n :| n in s.cells && path in MarkersOf(n, SetKey(name));
    MarkerShape(n, SetKey(name), path);
    var d: string :| path == KeyPath(Name(n.user, d), 0);
    PathGivesTimestamp(Name(n.user, d), 0);
  }

  /** The paths of a listing all parse to the subscribed name. */
  lemma ListedParse<V>(s: Store<V>, name: Name, start: int, paths: seq<string>)
    requires IsListing(s, name, start, paths)
    ensures forall path | path in paths :: NameOfPath(path) == Some(FullName(name))
  {}

  /** A snapshot of the listed versions holds each of them exactly once, and nothing is in flight meanwhile. */
  lemma SnapshotIsComplete<V>(s: Store<V>, name: Name, start: int, paths: seq<string>, messages: seq<Message<V>>)
    requires Consistent(s) && ':' !in name.user
    requires IsSnapshot(s, paths, messages) && ListsVersions(s.versions, name, start, paths)
    ensures Complete(s.versions, {}, name, start, messages)
  {
    hide KeyPath, FullName;
    forall v | v in s.versions && v.name == name ensures DeliveredRight({}, start, messages, v) {
      OccursOnce(messages, PathOf(v));
      if v.timestamp >= start {
        assert PathOf(v) in PathsFrom(s.versions.Keys, name, start);
      }
    }
  }

  lemma SnapshotIsKnown<V>(s: Store<V>, name: Name, paths: seq<string>, messages: seq<Message<V>>)
    requires Consistent(s) && ':' !in name.user && IsSnapshot(s, paths, messages)
    requires forall path | path in paths :: NameOfPath(path) == Some(FullName(name))
    ensures AllKnown(s.versions, name, messages)
  {
    hide KeyPath, FullName, NameOfPath;
    forall m | m in messages ensures Known(s.versions, name, m) {
      assert m.keyPath in KeyPathsOf(messages);
      assert m.keyPath in paths;
      var v :| v in s.versions && PathOf(v) == m.keyPath && s.versions[v] == m.payload.value;
      assert VersionOk(s, v);
      PathGivesName(v.name, v.timestamp);
      FullNameInjective(v.name, name);
    }
  }

  /** Every path listed from a positive start on can be read. */
  lemma ListedAreReadable<V>(s: Store<V>, name: Name, start: int, paths: seq<string>)
    requires ListsVersions(s.versions, name, start, paths)
    ensures forall path | path in paths :: Readable(s, path)
  {}
}
