/** The hand-off from history to live messages, for every interleaving of the processes. */
module SubscriptionTheorems {
  import opened Wrappers
  import opened Strings
  import opened KeyPaths
  import opened VersionedStore
  import opened Routing
  import opened Subscription
  import opened SubscriptionInvariant
  import opened SubscriptionStreams
  import opened SubscriptionWriters
  import opened SubscriptionSubscribers

  ghost predicate Reached<V(!new)>(w: World<V>) {
    exists digest: string -> string, steps: seq<Step<V>> :: GoodDigest(digest) && w == Execute(Init(digest), steps)
  }

  lemma ReachedOk<V(!new)>(w: World<V>)
    requires Reached(w)
    ensures Inv(w)
  {
    hide Inv, GoodDigest;
    var digest: string -> string, steps: seq<Step<V>> :| GoodDigest(digest) && w == Execute(Init(digest), steps);
    InitOk<V>(digest);
    ExecuteOk(Init(digest), steps);
  }

  lemma {:induction false} ExecuteConcat<V>(w: World<V>, first: seq<Step<V>>, more: seq<Step<V>>)
    ensures Execute(w, first + more) == Execute(Execute(w, first), more)
    decreases |first|
  {
    hide Next;
    if first == [] {
      assert first + more == more;
    } else {
      assert (first + more)[1..] == first[1..] + more;
      ExecuteConcat(Next(w, first[0]), first[1..], more);
    }
  }

  /** What is reached from a reached world is reached. */
  lemma ReachedFurther<V(!new)>(w: World<V>, more: seq<Step<V>>)
    requires Reached(w)
    ensures Reached(Execute(w, more))
  {
    hide GoodDigest, Execute;
    var digest: string -> string, steps: seq<Step<V>> :| GoodDigest(digest) && w == Execute(Init(digest), steps);
    ExecuteConcat(Init(digest), steps, more);
    assert GoodDigest(digest) && Execute(w, more) == Execute(Init(digest), steps + more);
  }

  /** A subscription that was returned to its caller and has not been given up. */
  predicate IsSubscribed<V>(w: World<V>, pid: nat) {
    && pid in w.processes && w.processes[pid].Subscriber?
    && w.processes[pid].subscribing.Subscribed? && w.processes[pid].queue in w.registry
  }

  function QueueOf<V>(w: World<V>, pid: nat): (ms: seq<Message<V>>)
    requires pid in w.processes && w.processes[pid].Subscriber?
  {
    Contents(w.streams, w.processes[pid].queue)
  }

  /**
   The hand-off is exactly once: whatever writers, subscribers and unsubscribers did, and in whatever
   order, each version of the key from the start on is in the queue once, unless its writer has
   stored it and is still to publish it, when it is not there yet.  No version is there twice.
   Every message that has the version's path carries the version's value.
   */
  lemma ExactlyOnceHandOff<V(!new)>(w: World<V>, pid: nat, v: Version)
    requires Reached(w) && IsSubscribed(w, pid)
    requires w.processes[pid].start > 0 && w.processes[pid].name.key != "_internal:mq_uri"
    requires v in w.store.versions && v.name == w.processes[pid].name
    ensures v.timestamp >= w.processes[pid].start ==>
              Occurs(QueueOf(w, pid), PathOf(v)) == if v in Flights(w.processes) then 0 else 1
    ensures Occurs(QueueOf(w, pid), PathOf(v)) <= 1
    ensures forall m | m in QueueOf(w, pid) && m.keyPath == PathOf(v) :: m.payload == Some(w.store.versions[v])
  {
    ReachedOk(w);
    SubscriberNow(w, pid);
    ConsistentVersions(w.store);
    var p := w.processes[pid];
    assert ':' !in p.name.user;
    assert DeliveredRight(Flights(w.processes), p.start, QueueOf(w, pid), v);
    hide Inv, StreamOk, SubscriberOk, KeyPath;
    forall m | m in QueueOf(w, pid) && m.keyPath == PathOf(v) ensures m.payload == Some(w.store.versions[v]) {
      MessageOfVersion(w.store.versions, p.name, m, v);
    }
  }

  lemma MessageOfVersion<V>(versions: map<Version, V>, name: Name, m: Message<V>, v: Version)
    requires VersionsOk(versions) && Known(versions, name, m) && ':' !in name.user
    requires v in versions && m.keyPath == PathOf(v)
    ensures m.payload == Some(versions[v])
  {
    hide KeyPath;
    if x :| x in versions && x.name == name && m.keyPath == PathOf(x) && m.payload == Some(versions[x]) {
      KeyPathInjective(x.name, x.timestamp, v.name, v.timestamp);
    } else {
      var t :| 0 <= t <= LAST_SECOND && m.keyPath == KeyPath(name, t);
      KeyPathInjective(name, t, v.name, v.timestamp);
    }
  }

  /** A flight ends when its writer releases the lock: with no writer inside, every version has arrived. */
  lemma QuietHandOff<V(!new)>(w: World<V>, pid: nat)
    requires Reached(w) && IsSubscribed(w, pid)
    requires w.processes[pid].start > 0 && w.processes[pid].name.key != "_internal:mq_uri"
    requires forall q | q in w.processes :: !IsShared(w.processes[q])
    ensures forall v | v in w.store.versions && v.name == w.processes[pid].name
            && v.timestamp >= w.processes[pid].start ::
              Occurs(QueueOf(w, pid), PathOf(v)) == 1
  {
    assert Flights(w.processes) == {};
    forall v | v in w.store.versions && v.name == w.processes[pid].name && v.timestamp >= w.processes[pid].start
      ensures Occurs(QueueOf(w, pid), PathOf(v)) == 1
    {
      ExactlyOnceHandOff(w, pid, v);
    }
  }

  /**
   Delivery is isolated: whatever a subscriber's queue holds, at any phase, is about its own name and
   user, and is either a version of that name with its value or a deletion with nothing.
   */
  lemma DeliveryIsIsolated<V(!new)>(w: World<V>, pid: nat, m: Message<V>)
    requires Reached(w) && pid in w.processes && w.processes[pid].Subscriber? && m in QueueOf(w, pid)
    ensures NameOfPath(m.keyPath) == Some(FullName(w.processes[pid].name))
    ensures UserOfName(NameOfPath(m.keyPath).value) == w.processes[pid].name.user
    ensures (m.payload == None && m.changeType == "delete")
            || (m.payload.Some? && ReadsAs(w.store, m.keyPath, m.payload.value))
  {
    ReachedOk(w);
    SubscriberNow(w, pid);
    var name := w.processes[pid].name;
    assert Known(w.store.versions, name, m);
    hide Inv, StreamOk, KeyPath;
    NameGivesUser(name);
    if v :|
         && v in w.store.versions && v.name == name
         && m.keyPath == PathOf(v) && m.payload == Some(w.store.versions[v]) {
      PathGivesName(name, v.timestamp);
    } else {
      var t :| 0 <= t <= LAST_SECOND && m.keyPath == KeyPath(name, t);
      PathGivesName(name, t);
    }
  }

  /**
   Counts are conserved: a name's count is the number of its registered queues, of the processes
   between counting and registering or between unregistering and counting down, and of the
   unregistrations that were denied; it has an entry exactly when that is not zero.
   */
  lemma CountConservation<V(!new)>(w: World<V>, fullName: string)
    requires Reached(w)
    ensures CountOf(w.counts, fullName) == |RegisteredFor(w.registry, fullName)| + |HoldersOf(w.processes, fullName)|
    ensures fullName in w.counts <==>
              RegisteredFor(w.registry, fullName) != {} || HoldersOf(w.processes, fullName) != {}
  {
    ReachedOk(w);
    assert CountOf(w.counts, fullName) == |RegisteredFor(w.registry, fullName)| + |HoldersOf(w.processes, fullName)|;
  }

  /**
   In every run: from entering the lock to the last message of its snapshot, a subscriber has it alone;
   every writer has either not begun or returned, and every other subscriber is before it or done.
   */
  lemma SnapshotIsAlone<V(!new)>(w: World<V>, pid: nat, other: nat)
    requires Reached(w) && pid in w.processes && other in w.processes && other != pid
    requires w.processes[pid].Subscriber?
    requires var phase := w.processes[pid].subscribing; !phase.QueueReady? && !phase.Subscribed? && !phase.Failed?
    ensures match w.processes[other]
            case Writer(_, phase) => phase.Starting? || phase.Returned?
            case Subscriber(_, _, _, phase) => phase.QueueReady? || phase.Subscribed? || phase.Failed?
            case Unsubscriber(_, _, _) => true
  {
    ReachedOk(w);
    assert Alone(w.processes, pid);
  }

  /** An unsubscriber that owns its queue always finds the count, so that branch of the code is dead. */
  lemma CountIsAlwaysFound<V(!new)>(w: World<V>, pid: nat)
    requires Reached(w) && pid in w.processes && w.processes[pid].Unsubscriber?
             && w.processes[pid].unsubscribing.Unregistered?
    ensures w.processes[pid].unsubscribing.fullName in w.counts
  {
    ReachedOk(w);
    CountingDownOk(w, pid);
  }

  // ---------------------------------------------------------------- when a snapshot cannot be read

  /** Some key was created below a directory that is spelled like the name. */
  ghost predicate IsDirectory<V>(s: Store<V>, name: Name) {
    exists n :: n in s.cells && n.user == name.user && name.key + ":" <= n.key
  }

  /** The read of a listing fails exactly when the start is not positive and the name is also a directory. */
  lemma SnapshotFailsExactly<V>(s: Store<V>, name: Name, start: int, paths: seq<string>)
    requires Consistent(s) && ':' !in name.user && IsListing(s, name, start, paths)
    ensures (exists path :: path in paths && !Readable(s, path)) <==> start <= 0 && IsDirectory(s, name)
  {
    PrefixesAgree(name);
    if path :| path in paths && !Readable(s, path) {
      UnreadableIsMarker(s, name, start, paths, path);
    }
    if n :| start <= 0 && n in s.cells && n.user == name.user && name.key + ":" <= n.key {
      DirectoryIsWanted(s, name, start, n);
      assert KeyPath(name, 0) in SetOf(paths);
      assert !Readable(s, KeyPath(name, 0)) by {
        forall v | v in s.versions ensures PathOf(v) != KeyPath(name, 0) {
          assert VersionOk(s, v);
          if PathOf(v) == KeyPath(name, 0) { KeyPathInjective(v.name, v.timestamp, name, 0); }
        }
      }
    }
  }

  lemma UnreadableIsMarker<V>(s: Store<V>, name: Name, start: int, paths: seq<string>, path: string)
    requires Consistent(s) && ':' !in name.user && IsListing(s, name, start, paths)
    requires path in paths && !Readable(s, path)
    ensures start <= 0 && IsDirectory(s, name)
  {
    hide KeyPath, FullName, MarkersOf;
    PrefixesAgree(name);
    assert path in SetOf(paths);
    var n :| n in s.cells && path in MarkersOf(n, SetKey(name));
    assert CellOk(s, n);
    WantedMarker(n, name, start, path);
  }

  lemma WantedMarker(n: Name, name: Name, start: int, path: string)
    requires ':' !in n.user && ':' !in name.user
    requires path in MarkersOf(n, SetKey(name)) && Wanted(path, FullName(name), start)
    ensures start <= 0 && n.user == name.user && name.key + ":" <= n.key
  {
    hide KeyPath, FullName, SetKey;
    var q: nat :| q < |n.key| && EndsDirectory(n.key, q) && path == KeyPath(Name(n.user, n.key[..q]), 0);
    PathGivesName(Name(n.user, n.key[..q]), 0);
    PathGivesTimestamp(Name(n.user, n.key[..q]), 0);
    FullNameInjective(Name(n.user, n.key[..q]), name);
    assert n.key[..q] + ":" == n.key[..q + 1];
  }

  lemma DirectoryIsWanted<V>(s: Store<V>, name: Name, start: int, n: Name)
    requires start <= 0 && n in s.cells && n.user == name.user && name.key + ":" <= n.key
    ensures KeyPath(name, 0) in WantedPaths(s, name, start)
  {
    hide KeyPath, FullName, SetKey;
    PrefixesAgree(name);
    var q := |name.key|;
    assert (name.key + ":")[q] == n.key[q];
    assert n.key[..q] == name.key;
    assert EndsDirectory(n.key, q) && SetKey(Name(n.user, n.key[..q])) == SetKey(name);
    assert KeyPath(name, 0) in MarkersOf(n, SetKey(name));
    PathGivesName(name, 0);
    PathGivesTimestamp(name, 0);
  }

  /** Such a store: one key below the directory `d`, and a subscription to `d` from 0 on. */
  lemma SnapshotMayFail() returns (s: Store<int>, name: Name, paths: seq<string>)
    ensures Consistent(s) && ':' !in name.user && IsListing(s, name, 0, paths)
    ensures exists path :: path in paths && !Readable(s, path)
  {
    s := OneKey();
    name := Name("u", "d");
    paths := [KeyPath(name, 0)];
    DirectoryIsListed(s, Name("u", "d:k"), paths);
    assert IsDirectory(s, name) by { assert "d:k"[1] == ':' && name.key + ":" <= "d:k"; }
    hide KeyPath, Consistent, IsListing;
    SnapshotFailsExactly(s, name, 0, paths);
  }

  lemma OneKey() returns (s: Store<int>)
    ensures var below := Name("u", "d:k");
            Consistent(s) && s.cells.Keys == {below} && s.versions.Keys == {Version(below, I64_MAX)}
  {
    hide Consistent;
    var below := Name("u", "d:k");
    NothingIsConsistent();
    s := Written(Empty<int>(), below, 7, I64_MAX);
    WrittenOk(Empty<int>(), below, 7, I64_MAX);
  }

  lemma NothingIsConsistent()
    ensures Consistent(Empty<int>()) && forall name, now :: Fresh(Empty<int>(), name, now)
  {}

  lemma DirectoryIsListed(s: Store<int>, below: Name, paths: seq<string>)
    requires below == Name("u", "d:k") && s.cells.Keys == {below} && s.versions.Keys == {Version(below, I64_MAX)}
    requires paths == [KeyPath(Name("u", "d"), 0)]
    ensures IsListing(s, Name("u", "d"), 0, paths)
  {
    hide KeyPath, FullName, Wanted, History;
    var name := Name("u", "d");
    assert below.key[1] == ':' && name.key + ":" <= below.key;
    DirectoryIsWanted(s, name, 0, below);
    forall path | path in WantedPaths(s, name, 0) ensures path == KeyPath(name, 0) { OnlyTheMarker(s, path); }
  }

  lemma OnlyTheMarker(s: Store<int>, path: string)
    requires s.cells.Keys == {Name("u", "d:k")} && s.versions.Keys == {Version(Name("u", "d:k"), I64_MAX)}
    requires path in WantedPaths(s, Name("u", "d"), 0)
    ensures path == KeyPath(Name("u", "d"), 0)
  {
    hide KeyPath, FullName, NameOfPath;
    var below, name := Name("u", "d:k"), Name("u", "d");
    PrefixesAgree(name);
    assert GetPrefix(name.key) == "" && GetPrefix(below.key) == "d:" by {
      LastIndexOfIs(below.key, ':', 1);
      assert below.key[..2] == "d:";
    }
    assert SetKey(name) == "u::" && SetKey(below) == "u::d:";
    assert path in MarkersOf(below, SetKey(name));
    var p: nat :| p < |below.key| && EndsDirectory(below.key, p) && path == KeyPath(Name("u", below.key[..p]), 0);
    assert p == 1 && below.key[..1] == "d";
  }

  /** No subscription from a positive start ever fails on its snapshot. */
  lemma PositiveStartNeverFails<V(!new)>(w: World<V>, pid: nat)
    requires Reached(w) && pid in w.processes && w.processes[pid].Subscriber?
    requires w.processes[pid].start > 0 && w.processes[pid].name.key != "_internal:mq_uri"
    ensures !w.processes[pid].subscribing.Failed?
  {
    ReachedOk(w);
    SubscriberNow(w, pid);
  }
}
