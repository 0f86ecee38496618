/** The tracker of playback clients: an insertion-ordered table, pruned from its oldest end. */
module PlaybackTracker {
  import opened Prelude

  const CLIENT_RETENTION: Millis := 120_000
  const MAX_TRACKED_CLIENTS := 10_000

  datatype Client = Client(key: Id, observedAt: int, segmentIndex: Option<nat>)

  function Keys(clients: seq<Client>): seq<Id> {
    seq(|clients|, i requires 0 <= i < |clients| => clients[i].key)
  }

  /** Deleting a key and setting it again moves it to the end of the insertion order. */
  function Without(keys: seq<Id>, key: Id): seq<Id> {
    if keys == [] then []
    else Without(keys[..|keys| - 1], key) + (if keys[|keys| - 1] == key then [] else [keys[|keys| - 1]])
  }

  function Deleted(clients: seq<Client>, key: Id): seq<Client> {
    if clients == [] then []
    else Deleted(clients[..|clients| - 1], key) + (if clients[|clients| - 1].key == key then []
      else [clients[|clients| - 1]])
  }

  function Find(clients: seq<Client>, key: Id): Option<Client> {
    if clients == [] then None
    else if clients[|clients| - 1].key == key then Some(clients[|clients| - 1])
    else Find(clients[..|clients| - 1], key)
  }

  /** All keys ever observed, each at the place of its last observation. */
  function Recency(observed: seq<Id>): seq<Id> {
    if observed == [] then []
      else Without(Recency(observed[..|observed| - 1]), observed[|observed| - 1]) + [observed[|observed| - 1]]
  }

  ghost predicate IsSuffix(shorter: seq<Id>, longer: seq<Id>) {
    |shorter| <= |longer| && shorter == longer[|longer| - |shorter|..]
  }

  ghost predicate Distinct(keys: seq<Id>) {
    forall i, j :: 0 <= i < j < |keys| ==> keys[i] != keys[j]
  }

  lemma {:induction false} WithoutAppends(a: seq<Id>, b: seq<Id>, key: Id)
    ensures Without(a + b, key) == Without(a, key) + Without(b, key)
    decreases |b|
  {
    if b == [] {
      assert a + b == a;
    } else {
      assert (a + b)[..|a + b| - 1] == a + b[..|b| - 1];
      WithoutAppends(a, b[..|b| - 1], key);
    }
  }

  lemma {:induction false} WithoutShrinks(keys: seq<Id>, key: Id)
    ensures |Without(keys, key)| <= |keys| && key !in Without(keys, key)
    ensures forall k :: k in Without(keys, key) ==> k in keys
    decreases |keys|
  {
    if keys != [] {
      WithoutShrinks(keys[..|keys| - 1], key);
    }
  }

  lemma {:induction false} WithoutStaysDistinct(keys: seq<Id>, key: Id)
    requires Distinct(keys)
    ensures Distinct(Without(keys, key))
    ensures key in keys ==> |Without(keys, key)| == |keys| - 1
    ensures key !in keys ==> Without(keys, key) == keys
    decreases |keys|
  {
    if keys != [] {
      var rest := keys[..|keys| - 1];
      assert keys == rest + [keys[|keys| - 1]];
      WithoutStaysDistinct(rest, key);
      WithoutShrinks(rest, key);
      var last, kept := keys[|keys| - 1], Without(rest, key);
      if last == key {
        assert key !in rest;
        assert Without(keys, key) == kept;
      } else {
        assert Without(keys, key) == kept + [last];
        forall i | 0 <= i < |kept|
          ensures kept[i] != last
        {
          assert kept[i] in rest;
        }
      }
    }
  }

  /** Moving a key to the end of both keeps a suffix a suffix. */
  lemma SuffixMoves(shorter: seq<Id>, longer: seq<Id>, key: Id)
    requires IsSuffix(shorter, longer)
    ensures IsSuffix(Without(shorter, key) + [key], Without(longer, key) + [key])
  {
    var front := longer[..|longer| - |shorter|];
    assert longer == front + shorter;
    WithoutAppends(front, shorter, key);
    assert Without(longer, key) + [key] == Without(front, key) + (Without(shorter, key) + [key]);
  }

  lemma {:induction false} DeletedKeys(clients: seq<Client>, key: Id)
    ensures Keys(Deleted(clients, key)) == Without(Keys(clients), key)
    decreases |clients|
  {
    if clients != [] {
      var rest := clients[..|clients| - 1];
      DeletedKeys(rest, key);
      assert Keys(clients)[..|clients| - 1] == Keys(rest);
      if clients[|clients| - 1].key != key {
        assert Keys(Deleted(rest, key) + [clients[|clients| - 1]]) == Keys(Deleted(rest, key))
            + [clients[|clients| - 1].key];
      }
    }
  }

  ghost predicate MostRecent(clients: seq<Client>, observed: seq<Id>) {
    Distinct(Keys(clients)) && IsSuffix(Keys(clients), Recency(observed))
  }

  /** Deleting and re-inserting a client keeps the table the most recent end of all observations. */
  lemma MovesToEnd(clients: seq<Client>, observed: seq<Id>, client: Client)
    requires MostRecent(clients, observed)
    ensures MostRecent(Deleted(clients, client.key) + [client], observed + [client.key])
    ensures |Deleted(clients, client.key)| <= |clients|
  {
    var key := client.key;
    var keys := Keys(clients);
    KeysAfterMove(clients, client);
    WithoutStaysDistinct(keys, key);
    WithoutShrinks(keys, key);
    AppendedStaysDistinct(Without(keys, key), key);
    assert (observed + [key])[..|observed|] == observed;
    SuffixMoves(keys, Recency(observed), key);
  }

  lemma KeysAfterMove(clients: seq<Client>, client: Client)
    ensures Keys(Deleted(clients, client.key) + [client]) == Without(Keys(clients), client.key) + [client.key]
    ensures |Deleted(clients, client.key)| == |Without(Keys(clients), client.key)|
  {
    DeletedKeys(clients, client.key);
    assert |Keys(Deleted(clients, client.key))| == |Deleted(clients, client.key)|;
  }

  lemma AppendedStaysDistinct(keys: seq<Id>, key: Id)
    requires Distinct(keys) && key !in keys
    ensures Distinct(keys + [key])
  {
  }

  lemma DropsOldest(clients: seq<Client>, observed: seq<Id>, n: nat)
    requires MostRecent(clients, observed) && n <= |clients|
    ensures MostRecent(clients[n..], observed)
  {
    assert Keys(clients[n..]) == Keys(clients)[n..];
  }

  class Tracker {
    var clients: seq<Client>
    var lastPrunedAt: int
    ghost var observed: seq<Id>

    /** What is tracked are the most recently observed clients, in that order, and never more than the bound. */
    ghost predicate Valid()
      reads this
    {
      MostRecent(clients, observed) && |clients| <= MAX_TRACKED_CLIENTS
    }

    constructor ()
      ensures Valid() && clients == [] && observed == []
    {
      clients, lastPrunedAt, observed := [], 0, [];
    }

    /** Drops clients from the oldest end while they are out of retention or the table is full, and stops at the first
        other. */
    method Prune(now: int)
      requires Valid()
      modifies `clients, `lastPrunedAt
      ensures Valid() && |clients| < MAX_TRACKED_CLIENTS
      ensures |clients| <= |old(clients)| && clients == old(clients)[|old(clients)| - |clients|..]
      ensures var dropped := |old(clients)| - |clients|;
              && (forall i :: 0 <= i < dropped ==>
                    old(clients)[i].observedAt <= now - CLIENT_RETENTION || |old(clients)| - i >= MAX_TRACKED_CLIENTS)
              && (dropped > 0 && clients != [] ==> clients[0].observedAt > now - CLIENT_RETENTION)
      ensures lastPrunedAt == now || (clients == old(clients) && lastPrunedAt == old(lastPrunedAt))
    {
      if |clients| < MAX_TRACKED_CLIENTS && now - lastPrunedAt < CLIENT_RETENTION {
        return;
      }
      lastPrunedAt := now;
      var cutoff := now - CLIENT_RETENTION;
      while clients != [] && (clients[0].observedAt <= cutoff || |clients| >= MAX_TRACKED_CLIENTS)
        invariant lastPrunedAt == now && |clients| <= |old(clients)|
            && clients == old(clients)[|old(clients)| - |clients|..]
        invariant forall i :: 0 <= i < |old(clients)| - |clients| ==>
          old(clients)[i].observedAt <= cutoff || |old(clients)| - i >= MAX_TRACKED_CLIENTS
        decreases |clients|
      {
        clients := clients[1..];
      }
      DropsOldest(old(clients), observed, |old(clients)| - |clients|);
    }

    /** Tracks one observation; returns how long the client had been idle, if it was still tracked. */
    method Observe(key: Id, segmentIndex: Option<nat>, observedAt: int) returns (idle: Option<nat>)
      requires Valid()
      modifies this
      ensures Valid() && observed == old(observed) + [key]
      ensures |clients| > 0 && clients[|clients| - 1].key == key && clients[|clients| - 1].observedAt == observedAt
      ensures segmentIndex.Some? ==> clients[|clients| - 1].segmentIndex == segmentIndex
      ensures idle.None? ==> forall i :: 0 <= i < |old(clients)| && old(clients)[i].key == key ==>
                old(clients)[i].observedAt <= observedAt - CLIENT_RETENTION || |old(clients)| - i >= MAX_TRACKED_CLIENTS
      ensures idle.Some? ==> exists c ::
        c in old(clients) && c.key == key && idle.value == if observedAt > c.observedAt then observedAt - c.observedAt
          else 0
    {
      Prune(observedAt);
      var previous := Find(clients, key);
      FindsTracked(clients, key);
      if previous.None? {
        forall i | 0 <= i < |clients|
          ensures clients[i].key != key
        {
          assert Keys(clients)[i] == clients[i].key;
        }
      }
      idle := if previous.None? then None
              else Some(if observedAt > previous.value.observedAt then observedAt - previous.value.observedAt else 0);
      var segment := if segmentIndex.Some? then segmentIndex
          else if previous.Some? then previous.value.segmentIndex else None;
      MovesToEnd(clients, observed, Client(key, observedAt, segment));
      clients := Deleted(clients, key) + [Client(key, observedAt, segment)];
      observed := observed + [key];
    }
  }

  lemma {:induction false} FindsTracked(clients: seq<Client>, key: Id)
    ensures Find(clients, key).Some? <==> key in Keys(clients)
    ensures Find(clients, key).Some? ==> Find(clients, key).value in clients && Find(clients, key).value.key == key
    decreases |clients|
  {
    if clients != [] {
      var rest := clients[..|clients| - 1];
      FindsTracked(rest, key);
      assert Keys(clients) == Keys(rest) + [clients[|clients| - 1].key];
    }
  }
}
