/** The in-memory coordination store: leases, and the sliding windows of viewers. */
module Coordination {
  import opened Prelude

  // ---------------------------------------------------------------- leases

  datatype Lease = Lease(owner: Id, expiresAt: Millis)

  /** The time for which the key was granted to an owner: from the grant until expiry or release. */
  datatype Tenure = Tenure(owner: Id, since: Millis, until: Millis)

  /** Tenures of one key follow one another. */
  ghost predicate Chain(ts: seq<Tenure>, now: Millis) {
    && (forall i :: 0 <= i < |ts| ==> ts[i].since <= now)
    && (forall i, j :: 0 <= i < j < |ts| ==> ts[i].until <= ts[j].since)
  }

  /** At any instant the key belongs to at most one tenure, and so to at most one owner. */
  lemma OneHolderAtATime(ts: seq<Tenure>, now: Millis, i: nat, j: nat, t: Millis)
    requires Chain(ts, now) && i < |ts| && j < |ts|
    requires ts[i].since <= t < ts[i].until && ts[j].since <= t < ts[j].until
    ensures i == j
  {
  }

  /** What the lease of a key says about its latest tenure: that one is running, or all are over. */
  ghost predicate Recorded(lease: Option<Lease>, ts: seq<Tenure>, now: Millis) {
    && Chain(ts, now)
    && match lease
       case Some(l) => |ts| > 0 && ts[|ts| - 1].owner == l.owner && ts[|ts| - 1].until == l.expiresAt
       case None => |ts| > 0 ==> ts[|ts| - 1].until <= now
  }

  function Appended(ts: seq<Tenure>, t: Tenure): seq<Tenure> {
    ts + [t]
  }

  function Adjusted(ts: seq<Tenure>, until: Millis): seq<Tenure>
    requires |ts| > 0
  {
    ts[|ts| - 1 := ts[|ts| - 1].(until := until)]
  }

  /** Tenures before the latest one are history. */
  ghost predicate Continues(before: seq<Tenure>, after: seq<Tenure>) {
    |before| <= |after| && forall i :: 0 <= i < |before| - 1 ==> after[i] == before[i]
  }

  lemma TimePasses(lease: Option<Lease>, ts: seq<Tenure>, now: Millis, later: Millis)
    requires Recorded(lease, ts, now) && now <= later
    ensures Recorded(lease, ts, later)
  {
  }

  lemma FreshTenure(lease: Option<Lease>, ts: seq<Tenure>, now: Millis, owner: Id, until: Millis)
    requires Recorded(lease, ts, now) && (lease.Some? ==> lease.value.expiresAt <= now)
    ensures Recorded(Some(Lease(owner, until)), Appended(ts, Tenure(owner, now, until)), now)
  {
    var longer := Appended(ts, Tenure(owner, now, until));
    forall i, j | 0 <= i < j < |longer|
      ensures longer[i].until <= longer[j].since
    {
      if j == |ts| && i < |ts| - 1 {
        assert ts[i].until <= ts[|ts| - 1].since <= now;
      }
    }
  }

  lemma LongerTenure(l: Lease, ts: seq<Tenure>, now: Millis, until: Millis)
    requires Recorded(Some(l), ts, now)
    ensures Recorded(Some(Lease(l.owner, until)), Adjusted(ts, until), now) && Continues(ts, Adjusted(ts, until))
  {
  }

  /** A grant continues the running tenure of the same owner, or starts a new one. */
  function Granted(lease: Option<Lease>, ts: seq<Tenure>, now: Millis, owner: Id, until: Millis): seq<Tenure>
    requires lease.Some? && lease.value.expiresAt > now ==> |ts| > 0
  {
    if lease.Some? && lease.value.expiresAt > now then Adjusted(ts, until) else Appended(ts, Tenure(owner, now, until))
  }

  lemma GrantRecorded(lease: Option<Lease>, ts: seq<Tenure>, now: Millis, owner: Id, until: Millis)
    requires Recorded(lease, ts, now)
    requires lease.Some? ==> lease.value.expiresAt <= now || lease.value.owner == owner
    ensures Recorded(Some(Lease(owner, until)), Granted(lease, ts, now, owner, until), now)
    ensures Continues(ts, Granted(lease, ts, now, owner, until))
  {
    if lease.Some? && lease.value.expiresAt > now {
      LongerTenure(lease.value, ts, now, until);
    } else {
      FreshTenure(lease, ts, now, owner, until);
    }
  }

  lemma EndedTenure(l: Lease, ts: seq<Tenure>, now: Millis)
    requires Recorded(Some(l), ts, now)
    ensures Recorded(None, if l.expiresAt > now then Adjusted(ts, now) else ts, now)
  {
    if l.expiresAt > now {
      LongerTenure(l, ts, now, now);
    }
  }

  class LeaseTable {
    var leases: map<Id, Lease>
    var now: Millis
    /** Every tenure ever granted, by key and in order. */
    ghost var tenures: map<Id, seq<Tenure>>

    ghost function TenuresOf(key: Id): seq<Tenure>
      reads `tenures
    {
      if key in tenures then tenures[key] else []
    }

    ghost predicate Valid()
      reads this
    {
      forall k :: Recorded(Get(leases, k), TenuresOf(k), now)
    }

    /** Other keys are not concerned, and tenures of this one before its latest are history. */
    twostate predicate OnlyAbout(key: Id)
      reads this
    {
      && old(now) <= now
      && (forall k :: k != key ==> Get(leases, k) == old(Get(leases, k)) && TenuresOf(k) == old(TenuresOf(k)))
      && Continues(old(TenuresOf(key)), TenuresOf(key))
    }

    constructor ()
      ensures Valid() && leases == map[]
    {
      leases, now, tenures := map[], 0, map[];
    }

    /** The clock never goes back. */
    method Tick() returns (t: Millis)
      requires Valid()
      modifies `now
      ensures Valid() && old(now) <= now == t
    {
      var passed: nat :| true;
      now := now + passed;
      t := now;
      forall k ensures Recorded(Get(leases, k), TenuresOf(k), now) {
        TimePasses(Get(leases, k), TenuresOf(k), old(now), now);
      }
    }

    /** Replaces the lease of one key, and its tenures accordingly. */
    method Put(key: Id, lease: Option<Lease>, ghost ts: seq<Tenure>)
      requires Valid() && Recorded(lease, ts, now) && Continues(TenuresOf(key), ts)
      modifies `leases, `tenures
      ensures Valid() && OnlyAbout(key) && TenuresOf(key) == ts
      ensures leases == if lease.Some? then old(leases)[key := lease.value] else old(leases) - {key}
    {
      tenures := tenures[key := ts];
      leases := if lease.Some? then leases[key := lease.value] else leases - {key};
      forall k
        ensures Recorded(Get(leases, k), TenuresOf(k), now)
      {
        if k != key {
          assert Get(leases, k) == old(Get(leases, k)) && TenuresOf(k) == old(TenuresOf(k));
        }
      }
    }

    /** The lease of a key that is free, expired or already owned, from a second look at the clock on. */
    method SetExpiry(key: Id, owner: Id, ttl: Millis)
      requires Valid() && (key in leases ==> leases[key].expiresAt <= now || leases[key].owner == owner)
      modifies this
      ensures Valid() && OnlyAbout(key) && leases == old(leases)[key := Lease(owner, now + ttl)]
    {
      var t := Tick();
      ghost var lease, ts := Get(leases, key), TenuresOf(key);
      GrantRecorded(lease, ts, t, owner, t + ttl);
      Put(key, Some(Lease(owner, t + ttl)), Granted(lease, ts, t, owner, t + ttl));
    }

    /** Grants a free, expired or already owned key; the clock is read once to decide and once to set the expiry. */
    method Acquire(key: Id, owner: Id, ttl: Millis) returns (ok: bool, ghost asked: Millis)
      requires Valid()
      modifies this
      ensures Valid() && OnlyAbout(key) && old(now) <= asked <= now
      ensures ok <==> !(key in old(leases) && old(leases)[key].expiresAt > asked && old(leases)[key].owner != owner)
      ensures ok ==> leases == old(leases)[key := Lease(owner, now + ttl)]
      ensures !ok ==> leases == old(leases) && tenures == old(tenures)
    {
      var t := Tick();
      asked := t;
      if key in leases && leases[key].expiresAt > t && leases[key].owner != owner {
        return false, asked;
      }
      SetExpiry(key, owner, ttl);
      ok := true;
    }

    /** The latest tenure of a key is prolonged, from a second look at the clock on. */
    method Extend(key: Id, ttl: Millis)
      requires Valid() && key in leases
      modifies this
      ensures Valid() && OnlyAbout(key) && |TenuresOf(key)| == |old(TenuresOf(key))|
      ensures leases == old(leases)[key := Lease(old(leases)[key].owner, now + ttl)]
    {
      var t := Tick();
      var lease := leases[key];
      ghost var ts := TenuresOf(key);
      LongerTenure(lease, ts, t, t + ttl);
      Put(key, Some(Lease(lease.owner, t + ttl)), Adjusted(ts, t + ttl));
    }

    /** Extends a lease its owner still holds; a failed renewal extends nothing. */
    method Renew(key: Id, owner: Id, ttl: Millis) returns (ok: bool, ghost asked: Millis)
      requires Valid()
      modifies this
      ensures Valid() && OnlyAbout(key) && old(now) <= asked <= now && |TenuresOf(key)| == |old(TenuresOf(key))|
      ensures ok <==> key in old(leases) && old(leases)[key].owner == owner && old(leases)[key].expiresAt > asked
      ensures ok ==> leases == old(leases)[key := Lease(owner, now + ttl)]
      ensures !ok ==> leases == old(leases) && tenures == old(tenures)
    {
      var t := Tick();
      asked := t;
      if key !in leases || leases[key].owner != owner || leases[key].expiresAt <= t {
        return false, asked;
      }
      Extend(key, ttl);
      ok := true;
    }

    /** Ends the owner's own tenure, whether or not it has run out. */
    method Release(key: Id, owner: Id)
      requires Valid()
      modifies this
      ensures Valid() && OnlyAbout(key)
      ensures leases == if key in old(leases) && old(leases)[key].owner == owner then old(leases) - {key}
          else old(leases)
    {
      var t := Tick();
      if key in leases && leases[key].owner == owner {
        EndedTenure(leases[key], TenuresOf(key), t);
        Put(key, None, if leases[key].expiresAt > t then Adjusted(TenuresOf(key), t) else TenuresOf(key));
      }
    }
  }

  // ---------------------------------------------------------------- viewer windows

  datatype Scope = EdgeViewers(edge: Id) | AllViewers
  datatype Key = Key(session: Id, scope: Scope)
  datatype Observation = Observation(session: Id, edge: Id, viewer: Id, at: Millis)

  predicate Concerns(o: Observation, key: Key, viewer: Id) {
    o.session == key.session && o.viewer == viewer && (key.scope.AllViewers? || key.scope.edge == o.edge)
  }

  /** When a viewer was last observed in a scope, over the full history. */
  function LastSeen(history: seq<Observation>, key: Key, viewer: Id): Option<Millis> {
    if history == [] then None
    else if Concerns(history[|history| - 1], key, viewer) then Some(history[|history| - 1].at)
    else LastSeen(history[..|history| - 1], key, viewer)
  }

  function Viewers(history: seq<Observation>): set<Id> {
    set o | o in history :: o.viewer
  }

  predicate Watching(history: seq<Observation>, key: Key, viewer: Id, cutoff: int) {
    LastSeen(history, key, viewer).Some? && LastSeen(history, key, viewer).value > cutoff
  }

  /** The distinct viewers whose last observation is newer than the cutoff. */
  function Recent(history: seq<Observation>, key: Key, cutoff: int): set<Id> {
    set v | v in Viewers(history) && Watching(history, key, v, cutoff)
  }

  lemma {:induction false} SeenIsObserved(history: seq<Observation>, key: Key, viewer: Id)
    requires LastSeen(history, key, viewer).Some?
    ensures viewer in Viewers(history)
    ensures exists i :: 0 <= i < |history| && history[i].at == LastSeen(history, key, viewer).value
    decreases |history|
  {
    var n := |history| - 1;
    if Concerns(history[n], key, viewer) {
      assert history[n] in history;
    } else {
      SeenIsObserved(history[..n], key, viewer);
      var i :| 0 <= i < n && history[..n][i].at == LastSeen(history, key, viewer).value;
      assert history[i].at == LastSeen(history, key, viewer).value;
      var o :| o in history[..n] && o.viewer == viewer;
      assert o in history;
    }
  }

  ghost predicate Ordered(history: seq<Observation>) {
    forall i, j :: 0 <= i <= j < |history| ==> history[i].at <= history[j].at
  }

  /** A viewer's last observation anywhere is no older than the last one at an edge. */
  lemma {:induction false} SeenAtEdgeIsSeen(history: seq<Observation>, session: Id, edge: Id, viewer: Id)
    requires Ordered(history) && LastSeen(history, Key(session, EdgeViewers(edge)), viewer).Some?
    ensures LastSeen(history, Key(session, AllViewers), viewer).Some?
    ensures LastSeen(history, Key(session, AllViewers), viewer).value
        >= LastSeen(history, Key(session, EdgeViewers(edge)), viewer).value
    decreases |history|
  {
    var n := |history| - 1;
    if !Concerns(history[n], Key(session, EdgeViewers(edge)), viewer) {
      if Concerns(history[n], Key(session, AllViewers), viewer) {
        SeenIsObserved(history, Key(session, EdgeViewers(edge)), viewer);
      } else {
        SeenAtEdgeIsSeen(history[..n], session, edge, viewer);
      }
    }
  }

  lemma SubsetSize(a: set<Id>, b: set<Id>)
    requires a <= b
    ensures |a| <= |b|
  {
    assert b == a + (b - a);
    assert |b| == |a| + |b - a|;
  }

  /** No edge ever counts more viewers than the session. */
  lemma EdgeWithinTotal(history: seq<Observation>, session: Id, edge: Id, cutoff: int)
    requires Ordered(history)
    ensures |Recent(history, Key(session, EdgeViewers(edge)), cutoff)|
        <= |Recent(history, Key(session, AllViewers), cutoff)|
  {
    forall v | v in Recent(history, Key(session, EdgeViewers(edge)), cutoff)
      ensures v in Recent(history, Key(session, AllViewers), cutoff)
    {
      SeenAtEdgeIsSeen(history, session, edge, v);
    }
    SubsetSize(Recent(history, Key(session, EdgeViewers(edge)), cutoff),
      Recent(history, Key(session, AllViewers), cutoff));
  }

  function Newer(viewers: map<Id, Millis>, cutoff: int): map<Id, Millis> {
    map v | v in viewers && viewers[v] > cutoff :: viewers[v]
  }

  /** A kept viewer is kept with its last observation; one that is not kept has left the window. */
  ghost predicate Faithful(history: seq<Observation>, key: Key, kept: map<Id, Millis>, cutoff: int) {
    && (forall v :: v in kept ==> LastSeen(history, key, v) == Some(kept[v]))
    && (forall v :: v !in kept ==> !Watching(history, key, v, cutoff))
  }

  /** Recording one more observation, at a time at which the window has moved on. */
  lemma FaithfulRecorded(history: seq<Observation>, key: Key, kept: map<Id, Millis>, cutoff: int, o: Observation,
      later: int)
    requires Faithful(history, key, kept, cutoff) && cutoff <= later
    ensures Faithful(history + [o], key, if Concerns(o, key, o.viewer) then kept[o.viewer := o.at] else kept, later)
  {
    var longer := history + [o];
    assert longer[..|longer| - 1] == history;
    forall v: Id
      ensures LastSeen(longer, key, v) == if Concerns(o, key, v) then Some(o.at) else LastSeen(history, key, v)
    {
    }
  }

  /** Dropping what has left the window keeps what is kept exact: its size is the count over the full history. */
  lemma FaithfulPruned(history: seq<Observation>, key: Key, kept: map<Id, Millis>, cutoff: int)
    requires Faithful(history, key, kept, cutoff)
    ensures Faithful(history, key, Newer(kept, cutoff), cutoff)
    ensures Newer(kept, cutoff).Keys == Recent(history, key, cutoff)
    ensures |Newer(kept, cutoff)| == |Recent(history, key, cutoff)|
  {
    forall v: Id
      ensures v in Newer(kept, cutoff) <==> v in Recent(history, key, cutoff)
    {
      if v in kept && kept[v] > cutoff {
        SeenIsObserved(history, key, v);
      }
    }
    assert |Newer(kept, cutoff)| == |Newer(kept, cutoff).Keys|;
  }

  class ViewerWindows {
    const window: Millis
    var viewers: map<Key, map<Id, Millis>>
    /** Every observation ever recorded, and the latest time a caller gave. */
    ghost var history: seq<Observation>
    ghost var clock: Millis

    function Kept(key: Key): map<Id, Millis>
      reads `viewers
    {
      if key in viewers then viewers[key] else map[]
    }

    ghost predicate Valid()
      reads this
    {
      && Ordered(history)
      && (forall i :: 0 <= i < |history| ==> history[i].at <= clock)
      && (forall key: Key :: Faithful(history, key, Kept(key), clock - window))
    }

    constructor (window: Millis)
      ensures Valid() && this.window == window && history == [] && clock == 0
    {
      this.window, viewers, history, clock := window, map[], [], 0;
    }

    /** Removes the entries that left the window, one by one, and the whole entry when none is left. */
    method PruneViewers(key: Key, cutoff: int) returns (size: nat)
      requires key in viewers
      modifies `viewers
      ensures Kept(key) == Newer(old(viewers)[key], cutoff) && size == |Kept(key)|
      ensures forall k :: k != key ==> Kept(k) == old(Kept(k)) && (k in viewers <==> k in old(viewers))
    {
      var kept := viewers[key];
      var left := kept.Keys;
      while left != {}
        invariant left <= kept.Keys <= old(viewers)[key].Keys
        invariant forall v :: v in kept ==> kept[v] == old(viewers)[key][v]
        invariant forall v :: v in old(viewers)[key] && v !in left ==> (v in kept <==> old(viewers)[key][v] > cutoff)
        invariant forall v :: v in left ==> v in kept
        decreases |left|
      {
        var v :| v in left;
        if kept[v] <= cutoff {
          kept := kept - {v};
        }
        left := left - {v};
      }
      assert kept.Keys == Newer(old(viewers)[key], cutoff).Keys;
      assert kept == Newer(old(viewers)[key], cutoff);
      viewers := viewers[key := kept];
      size := |kept|;
      if size == 0 {
        viewers := viewers - {key};
      }
    }

    method Enter(key: Key, viewer: Id, observedAt: Millis)
      modifies `viewers
      ensures key in viewers && Kept(key) == old(Kept(key))[viewer := observedAt]
      ensures forall k :: k != key ==> Kept(k) == old(Kept(k)) && (k in viewers <==> k in old(viewers))
    {
      var entries: map<Id, Millis> := if key in viewers then viewers[key] else map[];
      entries := entries[viewer := observedAt];
      viewers := viewers[key := entries];
    }

    /** Enters the observation for its edge and for the whole session. */
    method Observe(session: Id, edge: Id, viewer: Id, observedAt: Millis)
      requires Valid() && clock <= observedAt
      modifies this
      ensures Valid() && clock == observedAt
      ensures history == old(history) + [Observation(session, edge, viewer, observedAt)]
      ensures Key(session, EdgeViewers(edge)) in viewers && Key(session, AllViewers) in viewers
    {
      var edgeKey, totalKey := Key(session, EdgeViewers(edge)), Key(session, AllViewers);
      ghost var o := Observation(session, edge, viewer, observedAt);
      Enter(edgeKey, viewer, observedAt);
      Enter(totalKey, viewer, observedAt);
      history, clock := history + [o], observedAt;
      forall key: Key
        ensures Faithful(history, key, Kept(key), observedAt - window)
      {
        FaithfulRecorded(old(history), key, old(Kept(key)), old(clock) - window, o, observedAt - window);
        assert Concerns(o, key, viewer) <==> key == edgeKey || key == totalKey;
      }
    }

    /** Prunes one entry at the current time; what is left counts the viewers within the window, over the whole
        history. */
    method Settle(key: Key, cutoff: int) returns (size: nat)
      requires Valid() && key in viewers && cutoff == clock - window
      modifies `viewers
      ensures Valid() && size == |Recent(history, key, cutoff)|
      ensures forall k :: k != key ==> (k in viewers <==> k in old(viewers))
    {
      FaithfulPruned(history, key, Kept(key), cutoff);
      size := PruneViewers(key, cutoff);
      forall k: Key
        ensures Faithful(history, k, Kept(k), clock - window)
      {
        assert k != key ==> Kept(k) == old(Kept(k));
      }
    }

    /** Both counts are exact, the new observation included. */
    method RecordViewer(session: Id, edge: Id, viewer: Id, observedAt: Millis)
        returns (edgeViewers: nat, totalViewers: nat)
      requires Valid() && clock <= observedAt
      modifies this
      ensures Valid() && clock == observedAt
      ensures history == old(history) + [Observation(session, edge, viewer, observedAt)]
      ensures edgeViewers == |Recent(history, Key(session, EdgeViewers(edge)), observedAt - window)|
      ensures totalViewers == |Recent(history, Key(session, AllViewers), observedAt - window)|
      ensures edgeViewers <= totalViewers
    {
      Observe(session, edge, viewer, observedAt);
      var edgeKey, totalKey, cutoff := Key(session, EdgeViewers(edge)), Key(session, AllViewers), observedAt - window;
      ghost var counted := EdgeCountedWithin(session, edge, cutoff);
      edgeViewers := Settle(edgeKey, cutoff);
      totalViewers := Settle(totalKey, cutoff);
      assert (edgeViewers, totalViewers) == counted;
    }

    /** What the two entries count, over the whole history. */
    ghost function EdgeCountedWithin(session: Id, edge: Id, cutoff: int): (counts: (nat, nat))
      requires Valid()
      reads this
      ensures counts.0 <= counts.1
    {
      EdgeWithinTotal(history, session, edge, cutoff);
      (|Recent(history, Key(session, EdgeViewers(edge)), cutoff)|, |Recent(history, Key(session, AllViewers), cutoff)|)
    }

    method CountViewers(session: Id, observedAt: Millis) returns (totalViewers: nat)
      requires Valid() && clock <= observedAt
      modifies this
      ensures Valid() && clock == observedAt && history == old(history)
      ensures totalViewers == |Recent(history, Key(session, AllViewers), observedAt - window)|
    {
      var totalKey := Key(session, AllViewers);
      forall key: Key
        ensures Faithful(history, key, Kept(key), observedAt - window)
      {
        assert Faithful(history, key, Kept(key), clock - window);
      }
      clock := observedAt;
      FaithfulPruned(history, totalKey, Kept(totalKey), observedAt - window);
      totalViewers := 0;
      if totalKey in viewers {
        totalViewers := Settle(totalKey, observedAt - window);
      }
    }
  }
}
