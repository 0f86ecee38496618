/**
 Enrollment of a node with a join token. A call reads the claim stored for the token, signs a new identity unless the
 claim already carries one, publishes the identity in the claim before it creates the node, and finally marks the claim
 completed. Any store may fail, or commit and then report a failure, and the controller may die between any two steps;
 meanwhile other callers change the cluster's tables.
 */
module Enrollment {
  import opened Prelude
  import opened Repository
  import I = RepositoryIntegrity

  /** The identity a claim carries: who asked (the hash of the request), which node, which certificate. */
  datatype NewNode = NewNode(csr: Id, nodeId: Id, node: ClusterNode, serial: Id, certificate: Certificate)
  datatype Enrolled = Enrolled(identity: NewNode, completed: bool)
  datatype Claim = Claim(expiresAt: Millis, enrollment: Option<Enrolled>)

  /** A call between two suspension points. */
  datatype Call =
    | Deciding(csr: Id, claim: Claim)
    | Publishing(claim: Claim, drafted: NewNode)
    | Checking(claim: Claim, enrolled: Enrolled)
    | Creating(claim: Claim, enrolled: Enrolled)
    | Rechecking(claim: Claim, enrolled: Enrolled)
    | Completing(claim: Claim, enrolled: Enrolled)

  datatype Success = Success(csr: Id, nodeId: Id, serial: Id)

  /** `published` is the identity first committed to the claim; `creations` counts nodes created for the token. */
  datatype World = World(
    claim: Option<Claim>, db: Db, calls: map<Id, Call>,
    published: Option<NewNode>, creations: nat, successes: seq<Success>)

  datatype Fault = Fine | CommittedThenFailed | NotCommitted

  datatype Step =
    | Enrolls(call: Id, csr: Id)
    | Decides(call: Id, now: Millis, nodeId: Id, node: ClusterNode, serial: Id, certificate: Certificate)
    | Publishes(call: Id, fault: Fault, reread: bool)
    | Checks(call: Id, readable: bool)
    | Creates(call: Id, fault: Fault)
    | Rechecks(call: Id, readable: bool)
    | Completes(call: Id, fault: Fault, reread: bool)
    | Dies(call: Id)
    | ClaimExpires
    | Elsewhere(op: Op)

  // ---------------------------------------------------------------- reconciliation

  datatype Reconciled = Absent | Mismatch | Present(node: ClusterNode)

  /** The node counts as enrolled only with exactly the certificate of the claim, unrevoked, and the creation time of
      the claim. */
  function Reconcile(db: Db, i: NewNode): Reconciled {
    if i.nodeId !in db.nodes then Absent
    else if
      && i.serial in db.certificates && db.certificates[i.serial].nodeId == i.nodeId
      && db.certificates[i.serial].fingerprint == i.certificate.fingerprint && db.certificates[i.serial].revokedAt.None?
      && db.certificates[i.serial].expiresAt == i.certificate.expiresAt
        && db.nodes[i.nodeId].value.createdAt == i.node.createdAt
    then Present(db.nodes[i.nodeId].value)
    else Mismatch
  }

  // ---------------------------------------------------------------- the steps

  /** Serial numbers signed for this token, which nobody else inserts. */
  predicate Reserved(w: World, serial: Id) {
    || (w.published.Some? && w.published.value.serial == serial)
    || (exists c :: c in w.calls && w.calls[c].Publishing? && w.calls[c].drafted.serial == serial)
  }

  predicate LeavesReserved(w: World, op: Op) {
    match op
    case OnNode(CreatesNode(_, _, serial, _)) => !Reserved(w, serial)
    case OnNode(RotatesCertificate(_, _, serial, _, _)) => !Reserved(w, serial)
    case _ => true
  }

  /** `exclusive`: the consume lease admits one call at a time. */
  predicate Enabled(exclusive: bool, w: World, s: Step) {
    match s
    case Enrolls(call, _) => call !in w.calls && w.claim.Some? && (exclusive ==> w.calls == map[])
    case Decides(call, _, id, node, serial, certificate) =>
      && call in w.calls && w.calls[call].Deciding?
      && certificate.nodeId == id && certificate.revokedAt.None? && serial !in w.db.certificates && !Reserved(w, serial)
      && node.state.Online?
    case Publishes(call, _, _) => call in w.calls && w.calls[call].Publishing?
    case Checks(call, _) => call in w.calls && w.calls[call].Checking?
    case Creates(call, _) => call in w.calls && w.calls[call].Creating?
    case Rechecks(call, _) => call in w.calls && w.calls[call].Rechecking?
    case Completes(call, _, _) => call in w.calls && w.calls[call].Completing?
    case Dies(call) => call in w.calls
    case ClaimExpires => true
    case Elsewhere(op) => LeavesReserved(w, op)
  }

  function Ends(w: World, call: Id): World {
    w.(calls := w.calls - {call})
  }

  function Continues(w: World, call: Id, next: Call): World {
    w.(calls := w.calls[call := next])
  }

  function Returns(w: World, call: Id, i: NewNode): World {
    Ends(w, call).(successes := w.successes + [Success(i.csr, i.nodeId, i.serial)])
  }

  function Next(exclusive: bool, w: World, s: Step): World
    requires Enabled(exclusive, w, s)
  {
    match s
    case Enrolls(call, csr) => Continues(w, call, Deciding(csr, w.claim.value))
    case Decides(call, now, id, node, serial, certificate) =>
      var d := w.calls[call];
      if d.claim.enrollment.Some? then
        if d.claim.enrollment.value.identity.csr != d.csr then Ends(w, call)
        else Continues(w, call, Checking(d.claim, d.claim.enrollment.value))
      else if d.claim.expiresAt <= now then Ends(w, call)
      else Continues(w, call, Publishing(d.claim, NewNode(d.csr, id, node, serial, certificate)))
    case Publishes(call, fault, reread) =>
      var p := w.calls[call];
      if fault.NotCommitted? then Ends(w, call)
      else
        var claim := p.claim.(enrollment := Some(Enrolled(p.drafted, false)));
        var stored := w.(claim := Some(claim), published := if w.published.None? then Some(p.drafted) else w.published);
        if fault.Fine? || reread then Continues(stored, call, Checking(p.claim, Enrolled(p.drafted, false)))
          else Ends(stored, call)
    case Checks(call, readable) =>
      var c := w.calls[call];
      if !readable then Ends(w, call)
      else
        (match Reconcile(w.db, c.enrolled.identity)
         case Mismatch => Ends(w, call)
         case Absent => if c.enrolled.completed then Ends(w, call)
           else Continues(w, call, Creating(c.claim, c.enrolled))
         case Present(_) => Continues(w, call, Completing(c.claim, c.enrolled)))
    case Creates(call, fault) =>
      var c := w.calls[call];
      var i := c.enrolled.identity;
      var (db, created) := CreateNode(w.db, i.nodeId, i.node, i.serial, Some(i.certificate));
      if fault.NotCommitted? || !created.Applied? then Continues(w, call, Rechecking(c.claim, c.enrolled))
      else
        Continues(w.(db := db, creations := w.creations + 1), call,
                  if fault.Fine? then Completing(c.claim, c.enrolled) else Rechecking(c.claim, c.enrolled))
    case Rechecks(call, readable) =>
      var c := w.calls[call];
      if readable && Reconcile(w.db, c.enrolled.identity).Present? then Continues(w, call,
        Completing(c.claim, c.enrolled)) else Ends(w, call)
    case Completes(call, fault, reread) =>
      var c := w.calls[call];
      if c.enrolled.completed then Returns(w, call, c.enrolled.identity)
      else if fault.NotCommitted? then Ends(w, call)
      else
        var stored := w.(claim := Some(c.claim.(enrollment := Some(c.enrolled.(completed := true)))));
        if fault.Fine? || reread then Returns(stored, call, c.enrolled.identity) else Ends(stored, call)
    case Dies(call) => Ends(w, call)
    case ClaimExpires => w.(claim := None)
    case Elsewhere(op) => w.(db := Apply(w.db, op))
  }

  // ---------------------------------------------------------------- what one token amounts to

  predicate Carries(claim: Claim, published: Option<NewNode>) {
    if published.None? then claim.enrollment.None?
      else claim.enrollment.Some? && claim.enrollment.value.identity == published.value
  }

  predicate CallSound(call: Call, published: Option<NewNode>, creations: nat, db: Db) {
    match call
    case Deciding(_, claim) => Carries(claim, published)
    case Publishing(_, drafted) =>
      published.None? && drafted.serial !in db.certificates && drafted.certificate.nodeId == drafted.nodeId
    case Completing(_, enrolled) => published == Some(enrolled.identity) && creations == 1
    case _ => published == Some(call.enrolled.identity)
  }

  /** The certificate row of the published identity records whether its node was ever created: rows are never
      removed. */
  predicate CountSound(published: Option<NewNode>, creations: nat, db: Db) {
    if published.None? then creations == 0
    else creations == (if published.value.serial in db.certificates then 1 else 0)
  }

  predicate SuccessesSound(published: Option<NewNode>, creations: nat, successes: seq<Success>) {
    successes != [] ==>
      && published.Some? && creations == 1
      && forall k :: 0 <= k < |successes| ==>
        successes[k] == Success(published.value.csr, published.value.nodeId, published.value.serial)
  }

  ghost predicate Inv(w: World) {
    && (forall a, b :: a in w.calls && b in w.calls ==> a == b)
    && (forall c :: c in w.calls ==> CallSound(w.calls[c], w.published, w.creations, w.db))
    && (w.claim.Some? ==> Carries(w.claim.value, w.published))
    && CountSound(w.published, w.creations, w.db)
    && SuccessesSound(w.published, w.creations, w.successes)
  }

  lemma ReservedSerialIsLeft(w: World, op: Op, serial: Id)
    requires LeavesReserved(w, op) && Reserved(w, serial)
    ensures serial in Apply(w.db, op).certificates <==> serial in w.db.certificates
  {
    if serial in w.db.certificates {
      I.CertificateRowsOnlyGrow(w.db, op, serial);
    } else if op.OnNode? && serial in Apply(w.db, op).certificates {
      I.CertificateOrigin(w.db, op.node, serial);
    }
  }

  lemma ElsewhereKeepsInv(w: World, op: Op)
    requires Inv(w) && LeavesReserved(w, op)
    ensures Inv(w.(db := Apply(w.db, op)))
  {
    var after := w.(db := Apply(w.db, op));
    if w.published.Some? {
      ReservedSerialIsLeft(w, op, w.published.value.serial);
    }
    forall c | c in after.calls
      ensures CallSound(after.calls[c], after.published, after.creations, after.db)
    {
      if w.calls[c].Publishing? {
        ReservedSerialIsLeft(w, op, w.calls[c].drafted.serial);
      }
    }
  }

  lemma CreationKeepsInv(w: World, s: Step)
    requires Inv(w) && s.Creates? && Enabled(true, w, s)
    ensures Inv(Next(true, w, s))
  {
    var c := w.calls[s.call];
    assert CallSound(c, w.published, w.creations, w.db);
  }

  lemma DecisionKeepsInv(w: World, s: Step)
    requires Inv(w) && Enabled(true, w, s) && (s.Decides? || s.Dies?)
    ensures Inv(Next(true, w, s))
  {
    assert CallSound(w.calls[s.call], w.published, w.creations, w.db);
  }

  lemma LookupKeepsInv(w: World, s: Step)
    requires Inv(w) && Enabled(true, w, s) && (s.Checks? || s.Rechecks?)
    ensures Inv(Next(true, w, s))
  {
    assert CallSound(w.calls[s.call], w.published, w.creations, w.db);
  }

  lemma PublicationKeepsInv(w: World, s: Step)
    requires Inv(w) && Enabled(true, w, s) && s.Publishes?
    ensures Inv(Next(true, w, s))
  {
    assert CallSound(w.calls[s.call], w.published, w.creations, w.db);
  }

  lemma CompletionKeepsInv(w: World, s: Step)
    requires Inv(w) && Enabled(true, w, s) && s.Completes?
    ensures Inv(Next(true, w, s))
  {
    assert CallSound(w.calls[s.call], w.published, w.creations, w.db);
  }

  lemma StepKeepsInv(w: World, s: Step)
    requires Inv(w) && Enabled(true, w, s)
    ensures Inv(Next(true, w, s))
  {
    match s
    case Enrolls(_, _) =>
    case ClaimExpires =>
    case Publishes(_, _, _) => PublicationKeepsInv(w, s);
    case Creates(_, _) => CreationKeepsInv(w, s);
    case Completes(_, _, _) => CompletionKeepsInv(w, s);
    case Elsewhere(op) => ElsewhereKeepsInv(w, op);
    case Checks(_, _) => LookupKeepsInv(w, s);
    case Rechecks(_, _) => LookupKeepsInv(w, s);
    case _ => DecisionKeepsInv(w, s);
  }

  ghost predicate Runs(exclusive: bool, w: World, steps: seq<Step>)
    decreases |steps|
  {
    steps == [] || (Enabled(exclusive, w, steps[0]) && Runs(exclusive, Next(exclusive, w, steps[0]), steps[1..]))
  }

  function After(exclusive: bool, w: World, steps: seq<Step>): World
    requires Runs(exclusive, w, steps)
    decreases |steps|
  {
    if steps == [] then w else After(exclusive, Next(exclusive, w, steps[0]), steps[1..])
  }

  /** A token as it was created, in a cluster in any state. */
  function Issued(expiresAt: Millis, db: Db): World {
    World(Some(Claim(expiresAt, None)), db, map[], None, 0, [])
  }

  lemma {:induction false} RunKeepsInv(w: World, steps: seq<Step>)
    requires Inv(w) && Runs(true, w, steps)
    ensures Inv(After(true, w, steps))
    decreases |steps|
  {
    if steps != [] {
      StepKeepsInv(w, steps[0]);
      RunKeepsInv(Next(true, w, steps[0]), steps[1..]);
    }
  }

  ghost predicate OneNode(w: World) {
    && w.creations <= 1
    && (w.successes != [] ==> w.creations == 1)
    && (forall j, k :: 0 <= j < |w.successes| && 0 <= k < |w.successes| ==> w.successes[j] == w.successes[k])
  }

  /**
   One token yields at most one node, and every successful call carried the same request and returned the same node and
   certificate, through every sequence of calls, deaths, lost acknowledgements and changes made elsewhere.
   */
  lemma OneTokenOneNode(expiresAt: Millis, db: Db, steps: seq<Step>)
    requires Runs(true, Issued(expiresAt, db), steps)
    ensures OneNode(After(true, Issued(expiresAt, db), steps))
  {
    RunKeepsInv(Issued(expiresAt, db), steps);
  }

  /** What reconciliation accepts authenticates: while the certificate table is sound, it is the node's only
      certificate. */
  lemma ReconciledAuthenticates(db: Db, i: NewNode, now: Millis)
    requires I.CertificatesSound(db) && Reconcile(db, i).Present? && now < i.certificate.expiresAt
    ensures I.CertificateIsActive(db, i.nodeId, i.serial, now)
    ensures forall other :: I.CertificateIsActive(db, i.nodeId, other, now) ==> other == i.serial
  {
    assert I.Active(db.certificates, i.serial);
  }

  // ---------------------------------------------------------------- the lease is what it rests on

  ghost predicate OneNodeAlways(exclusive: bool) {
    forall expiresAt: Millis, db: Db, steps: seq<Step> ::
      Runs(exclusive, Issued(expiresAt, db), steps) ==> OneNode(After(exclusive, Issued(expiresAt, db), steps))
  }

  function CallSteps(call: Id, nodeId: Id, node: ClusterNode, serial: Id, certificate: Certificate): seq<Step> {
    [Decides(call, 0, nodeId, node, serial, certificate), Publishes(call, Fine, false), Checks(call, true),
      Creates(call, Fine)]
  }

  lemma {:induction false} Concatenated(w: World, first: seq<Step>, second: seq<Step>)
    requires Runs(false, w, first) && Runs(false, After(false, w, first), second)
    ensures Runs(false, w, first + second) && After(false, w, first + second)
        == After(false, After(false, w, first), second)
    decreases |first|
  {
    if first == [] {
      assert first + second == second;
    } else {
      Concatenated(Next(false, w, first[0]), first[1..], second);
      assert (first + second)[1..] == first[1..] + second;
    }
  }

  lemma One(w: World, s: Step)
    requires Enabled(false, w, s)
    ensures Runs(false, w, [s]) && After(false, w, [s]) == Next(false, w, s)
  {
    assert [s][1..] == [];
  }

  lemma FourSteps(w: World, w1: World, w2: World, w3: World, s: seq<Step>)
    requires |s| == 4 && Enabled(false, w, s[0]) && w1 == Next(false, w, s[0]) && Enabled(false, w1, s[1])
        && w2 == Next(false, w1, s[1])
    requires Enabled(false, w2, s[2]) && w3 == Next(false, w2, s[2]) && Enabled(false, w3, s[3])
    ensures Runs(false, w, s) && After(false, w, s) == Next(false, w3, s[3])
  {
    One(w3, s[3]);
    One(w2, s[2]);
    Concatenated(w2, [s[2]], [s[3]]);
    One(w1, s[1]);
    Concatenated(w1, [s[1]], [s[2]] + [s[3]]);
    One(w, s[0]);
    Concatenated(w, [s[0]], [s[1]] + ([s[2]] + [s[3]]));
    assert s == [s[0]] + ([s[1]] + ([s[2]] + [s[3]]));
  }

  /** A call that read an unused claim goes through to its own node, whatever the claim has become meanwhile. */
  lemma CallCreatesNode(w: World, call: Id, claim: Claim, csr: Id, nodeId: Id, node: ClusterNode, serial: Id,
      certificate: Certificate)
    requires call in w.calls && w.calls[call] == Deciding(csr, claim) && claim.enrollment.None? && claim.expiresAt > 0
    requires nodeId !in w.db.nodes && serial !in w.db.certificates && !Reserved(w, serial)
    requires node.state.Online? && certificate.nodeId == nodeId && certificate.revokedAt.None?
    ensures
      var steps := CallSteps(call, nodeId, node, serial, certificate);
      Runs(false, w, steps)
      && var after := After(false, w, steps);
         && after.creations == w.creations + 1
         && after.db == CreateNode(w.db, nodeId, node, serial, Some(certificate)).0
         && (forall c :: c in w.calls && c != call ==> c in after.calls && after.calls[c] == w.calls[c])
         && after.calls.Keys == w.calls.Keys && !after.calls[call].Publishing?
         && after.published.Some? && (w.published.Some? ==> after.published == w.published)
         && (w.published.None? ==> after.published.value.serial == serial)
  {
    var s := CallSteps(call, nodeId, node, serial, certificate);
    var w1 := Next(false, w, s[0]);
    var w2 := Next(false, w1, s[1]);
    assert w2.db == w.db;
    var w3 := Next(false, w2, s[2]);
    assert w3.calls[call].Creating?;
    FourSteps(w, w1, w2, w3, s);
  }

  /** Two calls that both read the unused claim. */
  function Overlapping(): World {
    World(Some(Claim(1, None)), EmptyDb, map[1 := Deciding(5, Claim(1, None)), 2 := Deciding(6, Claim(1, None))], None,
      0, [])
  }

  lemma BothRead()
    ensures
      var opening := [Enrolls(1, 5)] + [Enrolls(2, 6)];
      Runs(false, Issued(1, EmptyDb), opening) && After(false, Issued(1, EmptyDb), opening) == Overlapping()
  {
    var start := Issued(1, EmptyDb);
    One(start, Enrolls(1, 5));
    One(Next(false, start, Enrolls(1, 5)), Enrolls(2, 6));
    Concatenated(start, [Enrolls(1, 5)], [Enrolls(2, 6)]);
  }

  lemma BothCreate() returns (steps: seq<Step>)
    ensures Runs(false, Overlapping(), steps) && After(false, Overlapping(), steps).creations == 2
  {
    var w := Overlapping();
    var node := ClusterNode({}, Online, 0, None, 0);
    var one, two := Certificate(10, 0, 9, None), Certificate(20, 0, 9, None);
    CallCreatesNode(w, 1, Claim(1, None), 5, 10, node, 11, one);
    var first, second := CallSteps(1, 10, node, 11, one), CallSteps(2, 20, node, 21, two);
    var w1 := After(false, w, first);
    assert !Reserved(w1, 21);
    CallCreatesNode(w1, 2, Claim(1, None), 6, 20, node, 21, two);
    Concatenated(w, first, second);
    steps := first + second;
  }

  lemma OverlapMakesTwoNodes()
    ensures !OneNodeAlways(false)
  {
    BothRead();
    var steps := BothCreate();
    var opening := [Enrolls(1, 5)] + [Enrolls(2, 6)];
    Concatenated(Issued(1, EmptyDb), opening, steps);
    assert !OneNode(After(false, Issued(1, EmptyDb), opening + steps));
  }

  /** One token yields at most one node if and only if the lease keeps its calls apart. */
  lemma OneNodeExactlyWhenExclusive(exclusive: bool)
    ensures OneNodeAlways(exclusive) <==> exclusive
  {
    if exclusive {
      forall expiresAt: Millis, db: Db, steps: seq<Step> | Runs(true, Issued(expiresAt, db), steps)
        ensures OneNode(After(true, Issued(expiresAt, db), steps))
      {
        OneTokenOneNode(expiresAt, db, steps);
      }
    } else {
      OverlapMakesTwoNodes();
    }
  }
}
