/**
 The subscribing storage as an object: what one call does when nothing runs beside it.  The
 processes of module Subscription are the same calls, taken apart where others may run.
 */
module SubscriptionService {
  import opened Wrappers
  import opened KeyPaths
  import opened VersionedStore
  import opened BasicStorage
  import opened Routing
  import opened Subscription
  import opened SubscriptionInvariant
  import opened SubscriptionTheorems

  datatype SubscriptionError = SubscriptionNotFound | PermissionDenied | CountNotFound

  /** The streams after a change has been published, if anybody counts on its name. */
  function Published<V>(digest: string -> string, counts: map<string, int>, table: map<string, seq<string>>,
                        streams: map<string, seq<Message<V>>>, name: Name, m: Message<V>)
    : map<string, seq<Message<V>>>
  {
    if FullName(name) in counts then Delivered(streams, BoundTo(table, RoutingKey(digest, FullName(name))), m)
        else streams
  }

  /** What was stored is published; a failure of the storage publishes nothing. */
  function AfterChange<V>(digest: string -> string, counts: map<string, int>, table: map<string, seq<string>>,
                          streams: map<string, seq<Message<V>>>, op: Operation<V>, r: Result<string, StorageError>)
    : map<string, seq<Message<V>>>
  {
    if r.Success? then Published(digest, counts, table, streams, op.name, MessageOf(op)) else streams
  }

  class StorageWithMQSubscription<V> {
    const storage: BasicStorage<V>
    const mq: RedisRouter<Message<V>>
    const digest: string -> string
    var keySubscriptionCount: map<string, int>
    var queueNameToUserIdKeyName: map<string, string>

    constructor (digest: string -> string)
      ensures fresh(storage) && fresh(mq) && storage.Valid() && storage.store == Empty<V>()
      ensures mq.routingTable == map[] && mq.streams == map[]
      ensures keySubscriptionCount == map[] && queueNameToUserIdKeyName == map[] && this.digest == digest
    {
      storage := new BasicStorage<V>();
      mq := new RedisRouter<Message<V>>();
      this.digest := digest;
      keySubscriptionCount, queueNameToUserIdKeyName := map[], map[];
    }

    method PublishChange(name: Name, m: Message<V>)
      modifies mq
      ensures mq.routingTable == old(mq.routingTable)
      ensures mq.streams == Published(digest, keySubscriptionCount, mq.routingTable, old(mq.streams), name, m)
    {
      if FullName(name) in keySubscriptionCount {
        mq.PublishMessage(RoutingKey(digest, FullName(name)), m);
      }
    }

    method Create(userId: string, keyName: string, value: V, now: Nanos) returns (r: Result<string, StorageError>)
      requires storage.Valid() && Allowed(storage.store, Operation.Create(Name(userId, keyName), value, now))
      modifies storage, mq
      ensures storage.Valid()
              && (storage.store, r) == Apply(old(storage.store), Operation.Create(Name(userId, keyName), value, now))
      ensures mq.routingTable == old(mq.routingTable)
      ensures mq.streams
              == AfterChange(digest, keySubscriptionCount, mq.routingTable, old(mq.streams),
                  Operation.Create(Name(userId, keyName), value, now), r)
      ensures mq.streams == if r.Failure? then old(mq.streams)
                            else Published(digest, keySubscriptionCount, mq.routingTable, old(mq.streams),
                                     Name(userId, keyName), Message("create", r.value, Some(value)))
    {
      hide Published, FullName, KeyPath, Written, Erased, Consistent, ValuesOk, TimestampsOk, IndexOk;
      r := storage.Create(userId, keyName, value, now);
      if r.Success? {
        PublishChange(Name(userId, keyName), Message("create", r.value, Some(value)));
      }
    }

    method Update(userId: string, keyName: string, value: V, now: Nanos) returns (r: Result<string, StorageError>)
      requires storage.Valid() && Allowed(storage.store, Operation.Update(Name(userId, keyName), value, now))
      modifies storage, mq
      ensures storage.Valid()
              && (storage.store, r) == Apply(old(storage.store), Operation.Update(Name(userId, keyName), value, now))
      ensures mq.routingTable == old(mq.routingTable)
      ensures mq.streams
              == AfterChange(digest, keySubscriptionCount, mq.routingTable, old(mq.streams),
                  Operation.Update(Name(userId, keyName), value, now), r)
      ensures mq.streams == if r.Failure? then old(mq.streams)
                            else Published(digest, keySubscriptionCount, mq.routingTable, old(mq.streams),
                                     Name(userId, keyName), Message("update", r.value, Some(value)))
    {
      hide Published, FullName, KeyPath, Written, Erased, Consistent, ValuesOk, TimestampsOk, IndexOk;
      r := storage.Update(userId, keyName, value, now);
      if r.Success? {
        PublishChange(Name(userId, keyName), Message("update", r.value, Some(value)));
      }
    }

    method Delete(userId: string, keyName: string, now: Nanos) returns (r: Result<string, StorageError>)
      requires storage.Valid() && Allowed(storage.store, Operation.Delete(Name(userId, keyName), now))
      modifies storage, mq
      ensures storage.Valid()
              && (storage.store, r) == Apply(old(storage.store), Operation.Delete(Name(userId, keyName), now))
      ensures mq.routingTable == old(mq.routingTable)
      ensures mq.streams
              == AfterChange(digest, keySubscriptionCount, mq.routingTable, old(mq.streams),
                  Operation.Delete(Name(userId, keyName), now), r)
      ensures r.Success? ==> exists t :: DeletedAt(old(storage.store), storage.store, userId, keyName, now, r.value, t)
      ensures mq.streams == if r.Failure? then old(mq.streams)
                            else Published(digest, keySubscriptionCount, mq.routingTable, old(mq.streams),
                                     Name(userId, keyName), Message("delete", r.value, None))
    {
      hide Published, DeletedAt, FullName, KeyPath, Written, Erased, Consistent, ValuesOk, TimestampsOk, IndexOk;
      r := storage.Delete(userId, keyName, now);
      if r.Success? {
        PublishChange(Name(userId, keyName), Message("delete", r.value, None));
      }
    }

    /** Keeps the listed paths that the subscription wants. */
    method Filter(keyList: seq<string>, fullName: string, start: int) returns (valid: seq<string>)
      requires forall i, j | 0 <= i < j < |keyList| :: keyList[i] != keyList[j]
      ensures SetOf(valid) == set path | path in keyList && Wanted(path, fullName, start)
      ensures forall i, j | 0 <= i < j < |valid| :: valid[i] != valid[j]
    {
      hide Wanted;
      valid := [];
      for n := 0 to |keyList|
        invariant forall path :: path in valid <==> path in keyList[..n] && Wanted(path, fullName, start)
        invariant forall i, j | 0 <= i < j < |valid| :: valid[i] != valid[j]
      {
        assert keyList[..n + 1] == keyList[..n] + [keyList[n]];
        assert keyList[n] !in keyList[..n];
        if Wanted(keyList[n], fullName, start) {
          valid := valid + [keyList[n]];
        }
      }
      assert keyList[..|keyList|] == keyList;
    }

    /** Sends one message for each entry that was read, in whatever order the map gives them. */
    method PublishSnapshot(queueName: string, values: map<string, V>) returns (messages: seq<Message<V>>)
      modifies mq
      ensures mq.routingTable == old(mq.routingTable)
      ensures mq.streams == SentAll(old(mq.streams), BoundTo(mq.routingTable, queueName), messages)
      ensures IsSent(values, values.Keys, messages)
    {
      hide IsSent, SentAll;
      messages := [];
      NothingSent(values, mq.streams, BoundTo(mq.routingTable, queueName));
      var rest := values.Keys;
      while rest != {}
        invariant rest <= values.Keys && IsSent(values, values.Keys - rest, messages)
        invariant mq.routingTable == old(mq.routingTable)
        invariant mq.streams == SentAll(old(mq.streams), BoundTo(mq.routingTable, queueName), messages)
        decreases |rest|
      {
        var keyPath :| keyPath in rest;
        var m := Message("in-storage", keyPath, Some(values[keyPath]));
        mq.PublishMessage(queueName, m);
        SentOneMore(old(mq.streams), BoundTo(mq.routingTable, queueName), messages, m);
        SnapshotGrows(values, values.Keys - rest, messages, keyPath);
        messages := messages + [m];
        assert values.Keys - (rest - {keyPath}) == values.Keys - rest + {keyPath};
        rest := rest - {keyPath};
      }
      assert values.Keys - rest == values.Keys;
    }

    /** The history of a name from a start on: listed, filtered and read. */
    method ReadWanted(userId: string, keyName: string, start: int)
      returns (values: Result<map<string, V>, StorageError>, ghost paths: seq<string>)
      requires storage.Valid() && ':' !in userId
      ensures IsListing(storage.store, Name(userId, keyName), start, paths)
      ensures values.Failure? <==> start <= 0 && IsDirectory(storage.store, Name(userId, keyName))
      ensures values.Success? ==> HasRead(storage.store, paths, values.value)
    {
      hide FullName, KeyPath, ValuesOk, TimestampsOk, IndexOk, Wanted, IsDirectory, Readable, ReadsAs, History, Latest,
          SubscriptionPrefix, Consistent;
      var name := Name(userId, keyName);
      var keyList := storage.ListKeys(SubscriptionPrefix(name), true);
      var valid := Filter(keyList, FullName(name), start);
      paths := valid;
      ListedIs(storage.store, name, start, keyList, valid);
      SnapshotFailsExactly(storage.store, name, start, paths);
      values := storage.ReadFromKeyPaths(valid);
      if values.Success? { ReadIsReadable(storage.store, paths, values.value); }
    }

    /**
     Subscribes a queue that the broker has just made.  It fails on its snapshot exactly when the start
     is not positive and the name is also a directory; the count and the bindings stay even then.
     */
    method Subscribe(userId: string, keyName: string, start: int, queueName: string)
      returns (r: Result<string, StorageError>, ghost paths: seq<string>, ghost messages: seq<Message<V>>)
      requires storage.Valid() && ':' !in userId
      modifies this, mq
      ensures keySubscriptionCount == CountUp(old(keySubscriptionCount), FullName(Name(userId, keyName)))
      ensures queueNameToUserIdKeyName == old(queueNameToUserIdKeyName)[queueName := FullName(Name(userId, keyName))]
      ensures mq.routingTable ==
                Bind(Bind(old(mq.routingTable), queueName, queueName), queueName,
                    RoutingKey(digest, FullName(Name(userId, keyName))))
      ensures IsListing(storage.store, Name(userId, keyName), start, paths)
      ensures r.Failure? <==> start <= 0 && IsDirectory(storage.store, Name(userId, keyName))
      ensures r.Failure? ==> mq.streams == old(mq.streams)[queueName := []]
      ensures r.Success? ==>
                && r.value == queueName && IsSnapshot(storage.store, paths, messages)
                && mq.streams
                   == SentAll(old(mq.streams)[queueName := []], BoundTo(mq.routingTable, queueName), messages)
    {
      hide FullName, Consistent, ValuesOk, TimestampsOk, IndexOk, Bind, RoutingKey, SentAll, IsSent, IsDirectory,
          IsListing, HasRead, IsSnapshot;
      var name := Name(userId, keyName);
      messages := [];
      mq.CreateQueue(queueName);
      mq.QueueBind(queueName, queueName);
      var num := if FullName(name) in keySubscriptionCount then keySubscriptionCount[FullName(name)] + 1 else 1;
      keySubscriptionCount := keySubscriptionCount[FullName(name) := num];
      queueNameToUserIdKeyName := queueNameToUserIdKeyName[queueName := FullName(name)];
      mq.QueueBind(queueName, RoutingKey(digest, FullName(name)));
      var values;
      values, paths := ReadWanted(userId, keyName, start);
      if values.Failure? { return Failure(values.error), paths, messages; }
      var sent := PublishSnapshot(queueName, values.value);
      messages := sent;
      SentIsSnapshot(storage.store, paths, values.value, messages);
      r := Success(queueName);
    }

    /** The registration goes first, whoever asks; only the owner's request counts down and deletes the queue. */
    method Unsubscribe(userId: string, queueName: string) returns (r: Result<(), SubscriptionError>)
      modifies this, mq
      ensures mq.routingTable == old(mq.routingTable)
      ensures queueNameToUserIdKeyName == old(queueNameToUserIdKeyName) - {queueName}
      ensures r ==
                if queueName !in old(queueNameToUserIdKeyName) then Failure(SubscriptionNotFound)
                else if userId != UserOfName(old(queueNameToUserIdKeyName)[queueName]) then Failure(PermissionDenied)
                else if old(queueNameToUserIdKeyName)[queueName] !in old(keySubscriptionCount)
                    then Failure(CountNotFound)
                else Success(())
      ensures r.Failure? ==> keySubscriptionCount == old(keySubscriptionCount) && mq.streams == old(mq.streams)
      ensures r.Success? ==>
                && keySubscriptionCount
                   == CountDown(old(keySubscriptionCount), old(queueNameToUserIdKeyName)[queueName])
                && mq.streams == old(mq.streams) - {queueName}
    {
      if queueName !in queueNameToUserIdKeyName { return Failure(SubscriptionNotFound); }
      var userIdKeyName := queueNameToUserIdKeyName[queueName];
      queueNameToUserIdKeyName := queueNameToUserIdKeyName - {queueName};
      if userId != UserOfName(userIdKeyName) { return Failure(PermissionDenied); }
      if userIdKeyName !in keySubscriptionCount { return Failure(CountNotFound); }
      var num := keySubscriptionCount[userIdKeyName];
      if num == 1 {
        keySubscriptionCount := keySubscriptionCount - {userIdKeyName};
      } else {
        keySubscriptionCount := keySubscriptionCount[userIdKeyName := num - 1];
      }
      mq.DeleteQueue(queueName);
      r := Success(());
    }
  }

  ghost predicate HasRead<V>(s: Store<V>, paths: seq<string>, values: map<string, V>) {
    values.Keys == SetOf(paths) && forall path | path in paths :: ReadsAs(s, path, values[path])
  }

  lemma ReadIsReadable<V>(s: Store<V>, paths: seq<string>, values: map<string, V>)
    requires HasRead(s, paths, values)
    ensures !exists path :: path in paths && !Readable(s, path)
  {}

  lemma ListedIs<V>(s: Store<V>, name: Name, start: int, keyList: seq<string>, valid: seq<string>)
    requires (set path | path in keyList) == History(s, SubscriptionPrefix(name) + ":")
    requires SetOf(valid) == set path | path in keyList && Wanted(path, FullName(name), start)
    requires forall i, j | 0 <= i < j < |valid| :: valid[i] != valid[j]
    ensures IsListing(s, name, start, valid)
  {}

  lemma SentIsSnapshot<V>(s: Store<V>, paths: seq<string>, values: map<string, V>, messages: seq<Message<V>>)
    requires HasRead(s, paths, values)
    requires IsSent(values, values.Keys, messages)
    ensures IsSnapshot(s, paths, messages)
  {}

  /** One message for each of these entries, with the value that was read. */
  ghost predicate IsSent<V>(values: map<string, V>, keys: set<string>, messages: seq<Message<V>>)
    requires keys <= values.Keys
  {
    && KeyPathsOf(messages) == keys
    && (forall i, j | 0 <= i < j < |messages| :: messages[i].keyPath != messages[j].keyPath)
    && (forall m | m in messages :: m.keyPath in keys && m == Message("in-storage", m.keyPath, Some(values[m.keyPath])))
  }

  lemma NothingSent<V>(values: map<string, V>, streams: map<string, seq<Message<V>>>, queues: seq<string>)
    ensures IsSent(values, values.Keys - values.Keys, []) && SentAll(streams, queues, []) == streams
  {}

  lemma SnapshotGrows<V>(values: map<string, V>, keys: set<string>, messages: seq<Message<V>>, keyPath: string)
    requires keys <= values.Keys && IsSent(values, keys, messages) && keyPath in values && keyPath !in keys
    ensures IsSent(values, keys + {keyPath}, messages + [Message("in-storage", keyPath, Some(values[keyPath]))])
  {}

  /** The streams after a list of messages has been published to the same queues. */
  function SentAll<V>(streams: map<string, seq<Message<V>>>, queues: seq<string>,
                      messages: seq<Message<V>>): map<string, seq<Message<V>>> {
    if messages == [] then streams
    else Delivered(SentAll(streams, queues, messages[..|messages| - 1]), queues, messages[|messages| - 1])
  }

  lemma SentOneMore<V>(streams: map<string, seq<Message<V>>>, queues: seq<string>, messages: seq<Message<V>>,
                       m: Message<V>)
    ensures SentAll(streams, queues, messages + [m]) == Delivered(SentAll(streams, queues, messages), queues, m)
  {}
}
