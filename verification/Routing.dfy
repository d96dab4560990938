/**
 Direct routing: a table from routing keys to the queues bound to them.  A queue is bound once
 for every call, and a published message is appended once for every binding of its key.
 Deleting a queue is done at the broker and leaves the table alone.
 */
module Routing {
  import opened KeyPaths

  function BoundTo(table: map<string, seq<string>>, key: string): seq<string> {
    if key in table then table[key] else []
  }

  function Contents<M>(streams: map<string, seq<M>>, queue: string): seq<M> {
    if queue in streams then streams[queue] else []
  }

  function Appended<M>(streams: map<string, seq<M>>, queue: string, m: M): map<string, seq<M>> {
    streams[queue := Contents(streams, queue) + [m]]
  }

  /** The streams after one append to each queue of the list, in order. */
  function Delivered<M>(streams: map<string, seq<M>>, queues: seq<string>, m: M): map<string, seq<M>> {
    if queues == [] then streams
    else Appended(Delivered(streams, queues[..|queues| - 1], m), queues[|queues| - 1], m)
  }

  function Bind(table: map<string, seq<string>>, queue: string, key: string): map<string, seq<string>> {
    table[key := BoundTo(table, key) + [queue]]
  }

  class RedisRouter<M> {
    var routingTable: map<string, seq<string>>
    var streams: map<string, seq<M>>

    constructor ()
      ensures routingTable == map[] && streams == map[]
    {
      routingTable, streams := map[], map[];
    }

    method CreateQueue(queueName: string)
      modifies this`streams
      ensures streams == old(streams)[queueName := []]
    {
      streams := streams[queueName := []];
    }

    /** The stream goes; the bindings stay. */
    method DeleteQueue(queueName: string)
      modifies this`streams
      ensures streams == old(streams) - {queueName}
    {
      streams := streams - {queueName};
    }

    method QueueBind(queueName: string, key: string)
      modifies this`routingTable
      ensures routingTable == Bind(old(routingTable), queueName, key)
    {
      if key !in routingTable {
        routingTable := routingTable[key := []];
      }
      routingTable := routingTable[key := routingTable[key] + [queueName]];
    }

    method PublishMessage(key: string, payload: M)
      modifies this`streams
      ensures streams == Delivered(old(streams), BoundTo(routingTable, key), payload)
    {
      if key !in routingTable {
        return;
      }
      var queues := routingTable[key];
      for n := 0 to |queues|
        invariant streams == Delivered(old(streams), queues[..n], payload)
      {
        var stream := if queues[n] in streams then streams[queues[n]] else [];
        streams := streams[queues[n] := stream + [payload]];
        assert queues[..n + 1][..n] == queues[..n];
      }
      assert queues[..|queues|] == queues;
    }
  }

  function Times(queues: seq<string>, queue: string): (n: nat) {
    if queues == [] then 0
    else Times(queues[..|queues| - 1], queue) + if queues[|queues| - 1] == queue then 1 else 0
  }

  function Repeat<M>(m: M, n: nat): seq<M> {
    if n == 0 then [] else Repeat(m, n - 1) + [m]
  }

  /** Every queue gets the message exactly as often as it is bound to the key, and keeps what it had. */
  lemma {:induction false} DeliveredContents<M>(streams: map<string, seq<M>>, queues: seq<string>, m: M, queue: string)
    ensures Contents(Delivered(streams, queues, m), queue) == Contents(streams, queue) + Repeat(m, Times(queues, queue))
  {
    if queues != [] {
      DeliveredContents(streams, queues[..|queues| - 1], m, queue);
    }
  }

  /** Binding adds one to the count of the queue under the key, and changes no other. */
  lemma BindCounts(table: map<string, seq<string>>, queue: string, key: string, q: string, k: string)
    ensures Times(BoundTo(Bind(table, queue, key), k), q) ==
            Times(BoundTo(table, k), q) + if q == queue && k == key then 1 else 0
  {
    var before := BoundTo(table, key);
    assert (before + [queue])[..|before|] == before;
  }

  /** A queue is in a list exactly when it is there at least once. */
  lemma {:induction false} ListedIsBound(queues: seq<string>, queue: string)
    ensures queue in queues <==> Times(queues, queue) > 0
  {
    if queues != [] {
      var init := queues[..|queues| - 1];
      ListedIsBound(init, queue);
      assert queues == init + [queues[|queues| - 1]];
    }
  }

  /**
   A stream is there after a message if it was before or its queue is bound to the key; so a deleted
   one comes back.
   */
  lemma {:induction false} DeletedStreamComesBack<M>(streams: map<string, seq<M>>, queues: seq<string>, m: M,
                                                     queue: string)
    ensures queue in Delivered(streams, queues, m) <==> queue in streams || queue in queues
  {
    if queues != [] {
      var init := queues[..|queues| - 1];
      DeletedStreamComesBack(streams, init, m, queue);
      assert queues == init + [queues[|queues| - 1]];
    }
  }

  // ---------------------------------------------------------------- routing keys

  /** Long names are routed by their digest. */
  function RoutingKey(digest: string -> string, fullName: string): (key: string) {
    if |fullName| > 200 then "sha256:" + digest(fullName) else fullName
  }

  /** A name of at most 200 characters is its own route, and a longer one's is its digest. */
  lemma RouteLooksLike(digest: string -> string, name: Name)
    ensures |FullName(name)| <= 200 ==> RoutingKey(digest, FullName(name)) == name.user + "::" + name.key
    ensures |FullName(name)| > 200 ==>
              RoutingKey(digest, FullName(name)) == "sha256:" + digest(name.user + "::" + name.key)
  {}

  /** The digest is taken to be injective, and to be printed without colons. */
  ghost predicate GoodDigest(digest: string -> string) {
    && (forall a, b | digest(a) == digest(b) :: a == b)
    && (forall a :: ':' !in digest(a))
  }

  lemma OneColon(d: string, i: nat)
    requires ':' !in d && i < |"sha256:" + d| && ("sha256:" + d)[i] == ':'
    ensures i == 6
  {}

  lemma DigestIsNoName(digest: string -> string, name: Name, other: string)
    requires GoodDigest(digest) && ':' !in name.user
    ensures FullName(name) != "sha256:" + digest(other)
  {
    var full := FullName(name);
    assert full[|name.user|] == ':' && full[|name.user| + 1] == ':';
    if full == "sha256:" + digest(other) {
      OneColon(digest(other), |name.user|);
      OneColon(digest(other), |name.user| + 1);
    }
  }

  /** Two different names never share a routing key, not even a long one and a short one. */
  lemma RoutingKeyInjective(digest: string -> string, a: Name, b: Name)
    requires GoodDigest(digest) && ':' !in a.user && ':' !in b.user
    requires RoutingKey(digest, FullName(a)) == RoutingKey(digest, FullName(b))
    ensures a == b
  {
    var fa, fb := FullName(a), FullName(b);
    DigestIsNoName(digest, a, fb);
    DigestIsNoName(digest, b, fa);
    if |fa| > 200 {
      assert RoutingKey(digest, fa)[7..] == digest(fa);
      assert RoutingKey(digest, fb)[7..] == digest(fb);
    }
    FullNameInjective(a, b);
  }
}
