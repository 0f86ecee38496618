/**
 A sign-in rewrites the whole identity document it read, under a revision check, while administrators change roles and
 delete users. Whether an assigned owner always remains depends on the queue that keeps a deletion out of a sign-in of
 the same identity: revisions restart at one when an identity is created again.
 */
module LoginIdentity {
  import opened Prelude
  import opened Repository
  import I = RepositoryIntegrity

  const MAX_REFRESH_ATTEMPTS := 5

  /** A sign-in between two suspension points: the document it holds, and the rounds it has used. */
  datatype Login = Login(id: Id, displayName: Id, observedAt: Millis, seen: Option<Versioned<Identity>>, attempt: nat)

  datatype World = World(db: Db, logins: map<Id, Login>)

  datatype Step =
    | LoginBegins(login: Id, id: Id, displayName: Id, observedAt: Millis)
    | LoginWrites(login: Id)
    | LoginDies(login: Id)
    | UserDeleted(id: Id, expected: nat, lastSeenBefore: Option<Millis>)
    | RolesChanged(id: Id, expected: nat, document: Identity)    // built from an earlier read, written back whole
    | Elsewhere(op: Op)

  predicate Busy(w: World, id: Id) {
    exists l :: l in w.logins && w.logins[l].id == id
  }

  /** `queued`: sign-ins and deletions of one identity wait for each other. */
  predicate Enabled(queued: bool, w: World, s: Step) {
    match s
    case LoginBegins(login, id, _, _) => login !in w.logins && (queued ==> !Busy(w, id))
    case LoginWrites(login) => login in w.logins
    case LoginDies(login) => login in w.logins
    case UserDeleted(id, _, _) => queued ==> !Busy(w, id)
    case RolesChanged(_, _, _) => true
    case Elsewhere(op) => !op.OnUser?
  }

  function Refreshed(l: Login, identity: Identity): Identity {
    identity.(displayName := l.displayName, lastSeenAt := l.observedAt)
  }

  /** One round: create the identity if none was seen, else write over the one that was seen. */
  function AfterRound(w: World, n: Id): World
    requires n in w.logins
  {
    var l := w.logins[n];
    var ended := w.logins - {n};
    if l.seen.None? then
      var (db, created) := CreateUser(w.db, l.id, Identity({User}, l.displayName, l.observedAt));
      if created.Applied? then World(db, ended) else w.(logins := w.logins[n := l.(seen := Get(w.db.users, l.id))])
    else
      var (db, written) := CompareAndSetUser(w.db, l.id, Refreshed(l, l.seen.value.value), l.seen.value.revision);
      var current := Get(w.db.users, l.id);
      if written.Applied? then World(db, ended)
      else if current.Some? && current.value.value.lastSeenAt >= l.observedAt then World(w.db, ended)
      else if l.attempt + 1 == MAX_REFRESH_ATTEMPTS then World(w.db, ended)
      else w.(logins := w.logins[n := l.(seen := current, attempt := l.attempt + 1)])
  }

  function Next(queued: bool, w: World, s: Step): World
    requires Enabled(queued, w, s)
  {
    match s
    case LoginBegins(login, id, name, at) =>
      w.(logins := w.logins[login := Login(id, name, at, Get(w.db.users, id), 0)])
    case LoginWrites(login) => AfterRound(w, login)
    case LoginDies(login) => w.(logins := w.logins - {login})
    case UserDeleted(id, expected, before) => w.(db := DeleteUserPreservingOwner(w.db, id, expected, before).0)
    case RolesChanged(id, expected, document) =>
      w.(db := CompareAndSetUserPreservingOwner(w.db, id, document, expected).0)
    case Elsewhere(op) => w.(db := Apply(w.db, op))
  }

  ghost predicate Runs(queued: bool, w: World, steps: seq<Step>)
    decreases |steps|
  {
    steps == [] || (Enabled(queued, w, steps[0]) && Runs(queued, Next(queued, w, steps[0]), steps[1..]))
  }

  function After(queued: bool, w: World, steps: seq<Step>): World
    requires Runs(queued, w, steps)
    decreases |steps|
  {
    if steps == [] then w else After(queued, Next(queued, w, steps[0]), steps[1..])
  }

  // ---------------------------------------------------------------- with the queue

  /** What a sign-in holds is the stored document or an older revision of it. */
  predicate Current(users: map<Id, Versioned<Identity>>, l: Login) {
    l.seen.Some? ==> l.id in users && (users[l.id] == l.seen.value || users[l.id].revision > l.seen.value.revision)
  }

  ghost predicate Inv(w: World) {
    && I.HasOwner(w.db)
    && forall l :: l in w.logins ==> Current(w.db.users, w.logins[l])
  }

  /** A sign-in that writes over what it saw keeps the roles of what is stored. */
  lemma RoundKeepsOwner(w: World, n: Id)
    requires Inv(w) && n in w.logins
    ensures I.HasOwner(AfterRound(w, n).db)
  {
    var l := w.logins[n];
    if l.seen.None? {
      I.StepKeepsOwner(w.db, OnUser(CreatesUser(l.id, Identity({User}, l.displayName, l.observedAt))));
    } else {
      var op := OnUser(SetsUser(l.id, Refreshed(l, l.seen.value.value), l.seen.value.revision));
      var kept := CompareAndSetUser(w.db, l.id, Refreshed(l, l.seen.value.value), l.seen.value.revision);
      if kept.1.Applied? && Owner !in l.seen.value.value.roles {
        assert w.db.users[l.id] == l.seen.value;
        assert Owners(w.db) - {l.id} == Owners(w.db);
      }
      I.StepKeepsOwner(w.db, op);
    }
  }

  lemma UsersOnlyAdvance(users: map<Id, Versioned<Identity>>, later: map<Id, Versioned<Identity>>, l: Login)
    requires Current(users, l)
    requires l.id in users ==>
          l.id in later && (later[l.id] == users[l.id] || later[l.id].revision > users[l.id].revision)
    ensures Current(later, l)
  {
  }

  lemma RoundKeepsCurrent(w: World, n: Id, k: Id)
    requires Inv(w) && n in w.logins && k in AfterRound(w, n).logins
    ensures Current(AfterRound(w, n).db.users, AfterRound(w, n).logins[k])
  {
    if k != n {
      UsersOnlyAdvance(w.db.users, AfterRound(w, n).db.users, w.logins[k]);
    }
  }

  lemma StepKeepsInv(w: World, s: Step)
    requires Inv(w) && Enabled(true, w, s)
    ensures Inv(Next(true, w, s))
  {
    var after := Next(true, w, s);
    match s
    case LoginBegins(_, _, _, _) =>
    case LoginDies(_) =>
    case LoginWrites(n) =>
      RoundKeepsOwner(w, n);
      forall k | k in after.logins ensures Current(after.db.users, after.logins[k]) { RoundKeepsCurrent(w, n, k); }
    case UserDeleted(id, expected, before) =>
      I.StepKeepsOwner(w.db, OnUser(DeletesUser(id, expected, before)));
      assert forall l :: l in w.logins ==> w.logins[l].id != id;
    case RolesChanged(id, expected, document) =>
      I.StepKeepsOwner(w.db, OnUser(SetsUserPreservingOwner(id, document, expected)));
    case Elsewhere(op) => I.StepKeepsOwner(w.db, op);
  }

  /** With the queue an assigned owner remains whatever sign-ins, role changes, deletions and deaths interleave. */
  lemma {:induction false} QueuedRunKeepsOwner(w: World, steps: seq<Step>)
    requires Inv(w) && Runs(true, w, steps)
    ensures Inv(After(true, w, steps))
    decreases |steps|
  {
    if steps != [] {
      StepKeepsInv(w, steps[0]);
      QueuedRunKeepsOwner(Next(true, w, steps[0]), steps[1..]);
    }
  }

  // ---------------------------------------------------------------- exactly when

  ghost predicate OwnerAlwaysRemains(queued: bool) {
    forall w: World, steps: seq<Step> :: I.HasOwner(w.db) && w.logins == map[] && Runs(queued, w, steps) ==>
      I.HasOwner(After(queued, w, steps).db)
  }

  function Guest(): Identity { Identity({User}, 0, 0) }
  function Chief(): Identity { Identity({Owner}, 0, 0) }

  /**
   Identity 1 owns the installation and identity 2 stands at its second revision. A sign-in reads identity 2; the
   identity is deleted, signs in afresh, is made an owner and takes over from identity 1; its revision is then what the
   first sign-in expects, which writes the old roles back.
   */
  function StaleRefresh(): seq<Step> {
    [LoginBegins(10, 2, 0, 9), UserDeleted(2, 2, None), LoginBegins(11, 2, 0, 5), LoginWrites(11),
     RolesChanged(2, 1, Identity({Owner}, 0, 5)), RolesChanged(1, 1, Guest()), LoginWrites(10)]
  }

  lemma Unrolled(w: World, s: Step, rest: seq<Step>)
    requires Enabled(false, w, s) && Runs(false, Next(false, w, s), rest)
    ensures Runs(false, w, [s] + rest) && After(false, w, [s] + rest) == After(false, Next(false, w, s), rest)
  {
    assert ([s] + rest)[1..] == rest;
  }

  lemma TwoOwners(db: Db)
    requires db.users == map[1 := Versioned(Chief(), 1), 2 := Versioned(Identity({Owner}, 0, 5), 2)]
    ensures |Owners(db)| == 2
  {
    assert Owners(db) == {1, 2};
  }

  /** From the fresh identity on: promotion, demotion of the other owner, and the stale write. */
  lemma TakenOver(w4: World)
    requires w4.logins == map[10 := Login(2, 0, 9, Some(Versioned(Guest(), 2)), 0)]
    requires w4.db == EmptyDb.(users := map[1 := Versioned(Chief(), 1), 2 := Versioned(Identity({User}, 0, 5), 1)])
    ensures Runs(false, w4, StaleRefresh()[4..]) && Owners(After(false, w4, StaleRefresh()[4..]).db) == {}
  {
    var s := StaleRefresh();
    var w5 := Next(false, w4, s[4]);
    assert w5.db.users == map[1 := Versioned(Chief(), 1), 2 := Versioned(Identity({Owner}, 0, 5), 2)];
    var w6 := Next(false, w5, s[5]);
    TwoOwners(w5.db);
    assert w6.db.users == map[1 := Versioned(Identity({User}, 0, 0), 2), 2 := Versioned(Identity({Owner}, 0, 5), 2)];
    var w7 := Next(false, w6, s[6]);
    assert w7.db.users == map[1 := Versioned(Identity({User}, 0, 0), 2), 2 := Versioned(Identity({User}, 0, 9), 3)];
    Unrolled(w6, s[6], []);
    Unrolled(w5, s[5], [s[6]]);
    Unrolled(w4, s[4], [s[5]] + [s[6]]);
    assert s[4..] == [s[4]] + ([s[5]] + [s[6]]);
  }

  lemma SignedInAfresh(w2: World)
    requires w2.logins == map[10 := Login(2, 0, 9, Some(Versioned(Guest(), 2)), 0)]
    requires w2.db == EmptyDb.(users := map[1 := Versioned(Chief(), 1)])
    ensures Runs(false, w2, StaleRefresh()[2..]) && Owners(After(false, w2, StaleRefresh()[2..]).db) == {}
  {
    var s := StaleRefresh();
    var w3 := Next(false, w2, s[2]);
    var w4 := Next(false, w3, s[3]);
    assert w4.logins == map[10 := Login(2, 0, 9, Some(Versioned(Guest(), 2)), 0)];
    assert w4.db.users == map[1 := Versioned(Chief(), 1), 2 := Versioned(Identity({User}, 0, 5), 1)];
    TakenOver(w4);
    Unrolled(w3, s[3], s[4..]);
    Unrolled(w2, s[2], [s[3]] + s[4..]);
    assert s[2..] == [s[2]] + ([s[3]] + s[4..]);
  }

  lemma DeletedMeanwhile(w0: World)
    requires w0 == World(EmptyDb.(users := map[1 := Versioned(Chief(), 1), 2 := Versioned(Guest(), 2)]), map[])
    ensures Runs(false, w0, StaleRefresh()) && Owners(After(false, w0, StaleRefresh()).db) == {}
  {
    var s := StaleRefresh();
    var w1 := Next(false, w0, s[0]);
    assert !OwnsResources(w1.db, 2);
    var w2 := Next(false, w1, s[1]);
    assert w2.db.users == map[1 := Versioned(Chief(), 1)];
    SignedInAfresh(w2);
    Unrolled(w1, s[1], s[2..]);
    Unrolled(w0, s[0], [s[1]] + s[2..]);
    assert s == [s[0]] + ([s[1]] + s[2..]);
  }

  lemma UnqueuedLosesOwner()
    ensures !OwnerAlwaysRemains(false)
  {
    var w0 := World(EmptyDb.(users := map[1 := Versioned(Chief(), 1), 2 := Versioned(Guest(), 2)]), map[]);
    DeletedMeanwhile(w0);
    assert 1 in Owners(w0.db);
  }

  /** An assigned owner always remains if and only if deletions are kept out of sign-ins of the same identity. */
  lemma OwnerRemainsExactlyWhenQueued(queued: bool)
    ensures OwnerAlwaysRemains(queued) <==> queued
  {
    if queued {
      forall w: World, steps: seq<Step> | I.HasOwner(w.db) && w.logins == map[] && Runs(true, w, steps)
        ensures I.HasOwner(After(true, w, steps).db)
      {
        QueuedRunKeepsOwner(w, steps);
      }
    } else {
      UnqueuedLosesOwner();
    }
  }
}
