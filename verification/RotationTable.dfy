/**
 The certificate table of the rotation machine is the repository's: a registry of `CertificateRotation` abstracts the
 node row and the certificate rows of one node, every change the machine makes to it is one transaction of `Repository`,
 and other transactions leave it as it is but for serial numbers of other nodes. So what is proved of the machine is
 about the certificate that the repository's own check accepts.
 */
module RotationTable {
  import opened Prelude
  import opened CertificateRotation
  import R = Repository
  import I = RepositoryIntegrity
  import RotationInvariant
  import S = RotationSafety

  /** `active` is the node's unrevoked serial, unless the node is revoked or gone; `issued` has every serial. */
  ghost predicate Abstracts(db: R.Db, id: Id, r: Registry) {
    && r.issued == db.certificates.Keys
    && (r.revoked <==> !I.Usable(db.nodes, id))
    && (!r.revoked ==> I.Active(db.certificates, r.active) && db.certificates[r.active].nodeId == id)
  }

  /** The repository's check accepts exactly the machine's active certificate, while it has not expired. */
  lemma CheckAgrees(db: R.Db, id: Id, r: Registry, serial: Cert, now: Millis)
    requires Abstracts(db, id, r) && I.CertificatesSound(db)
    ensures I.CertificateIsActive(db, id, serial, now) <==>
            IsActive(r, serial) && db.certificates[serial].expiresAt > now
  {
  }

  /** The code suspends between the node row, read from `before`, and the certificate rows, read from `after`. */
  predicate SuspendedCheck(before: R.Db, after: R.Db, id: Id, serial: Cert, now: Millis) {
    && I.Usable(before.nodes, id) && I.Active(after.certificates, serial) && after.certificates[serial].nodeId == id
    && after.certificates[serial].expiresAt > now
  }

  /** It answers as the whole check does at one of its two reads, which is why the machine takes it as one step. */
  lemma SuspendedCheckIsAtomic(before: R.Db, after: R.Db, id: Id, serial: Cert, now: Millis)
    requires I.CertificatesSound(after)
    ensures SuspendedCheck(before, after, id, serial, now) <==>
            I.CertificateIsActive(if I.Usable(before.nodes, id) then after else before, id, serial, now)
  {
  }

  /** Creating a node with its first certificate is where the machine starts. */
  lemma EnrollmentStarts(db: R.Db, id: Id, node: R.ClusterNode, serial: Cert, certificate: R.Certificate)
    requires R.CreateNode(db, id, node, serial, Some(certificate)).1.Applied? && !node.state.Revoked?
    ensures var after := R.CreateNode(db, id, node, serial, Some(certificate)).0;
            Abstracts(after, id, Registry(serial, after.certificates.Keys, false))
  {
  }

  lemma RevokedKeysStay(certificates: map<Id, R.Certificate>, id: Id, at: Millis)
    ensures R.CertificatesRevoked(certificates, id, at).Keys == certificates.Keys
  {
  }

  /** Rotation under the current revision is `Activated`: it applies to the same serials, and they commute. */
  lemma RotationIsActivation(db: R.Db, id: Id, r: Registry, serial: Cert, certificate: R.Certificate, at: Millis)
    requires Abstracts(db, id, r) && id in db.nodes && certificate.nodeId == id && certificate.revokedAt.None?
    ensures var outcome := R.RotateCertificate(db, id, db.nodes[id].revision, serial, certificate, at);
            && (outcome.1.Applied? <==> Activated(r, serial).Some?)
            && (if outcome.1.Applied? then Abstracts(outcome.0, id, Activated(r, serial).value) else outcome.0 == db)
  {
    RevokedKeysStay(db.certificates, id, at);
    var after := R.RotateCertificate(db, id, db.nodes[id].revision, serial, certificate, at).0;
    if Activated(r, serial).Some? {
      assert after.certificates.Keys == db.certificates.Keys + {serial};
    }
  }

  /** The revocation transaction under the current revision sets the machine's flag. */
  lemma RevocationIsFlag(db: R.Db, id: Id, r: Registry, at: Millis)
    requires Abstracts(db, id, r) && id in db.nodes
    ensures Abstracts(R.RevokeNode(db, id, db.nodes[id].revision, at).0, id, r.(revoked := true))
  {
    RevokedKeysStay(db.certificates, id, at);
  }

  /** The transactions of other parties: they leave the node's certificates and its registration alone. */
  predicate LeavesNode(db: R.Db, op: R.Op, id: Id) {
    op.OnNode? ==>
      match op.node
      case EnsuresLocalNode(n, node) => n == id ==> id in db.nodes && !node.state.Revoked?
      case RecordsHeartbeat(_, _, _, _, _) => true
      case SetsDrain(_, _, _) => true
      case SetsOperationalState(_, _, _) => true
      case _ => op.node.id != id
  }

  lemma OtherNodeLeavesTable(db: R.Db, id: Id, r: Registry, op: R.NodeOp)
    requires Abstracts(db, id, r) && op.id != id
    ensures var after := R.ApplyNode(db, op); Abstracts(after, id, r.(issued := after.certificates.Keys))
  {
    I.OtherNodesUntouched(db, op, id);
    if !r.revoked {
      I.NodeGrowsCertificates(db, op, r.active);
      if op.RotatesCertificate? || op.RevokesNode? {
        I.RevokedFirst(db.certificates, op.id, op.at, r.active);
      }
    }
  }

  lemma ReportLeavesTable(db: R.Db, id: Id, r: Registry, op: R.NodeOp)
    requires Abstracts(db, id, r) && op.id == id && LeavesNode(db, R.OnNode(op), id)
    ensures Abstracts(R.ApplyNode(db, op), id, r)
  {
  }

  /** They change neither the active certificate nor the flag, and only add serials. */
  lemma OthersLeaveTable(db: R.Db, id: Id, r: Registry, op: R.Op)
    requires Abstracts(db, id, r) && LeavesNode(db, op, id)
    ensures var after := R.Apply(db, op);
            && Abstracts(after, id, r.(issued := after.certificates.Keys))
            && db.certificates.Keys <= after.certificates.Keys
  {
    forall s | s in db.certificates ensures s in R.Apply(db, op).certificates {
      I.CertificateRowsOnlyGrow(db, op, s);
    }
    if op.OnNode? {
      if op.node.id == id {
        ReportLeavesTable(db, id, r, op.node);
      } else {
        OtherNodeLeavesTable(db, id, r, op.node);
      }
    }
  }

  // ---------------------------------------------------------------- runs

  /** What a step of the machine does to the table. */
  datatype Change = Nothing | Revokes | Writes(cert: Cert)

  function ChangeOf(w: World, s: Step): Change {
    match s
    case RevokeNode => Revokes
    case ControllerActivate(link) =>
      if link in w.controller.peers then Writes(w.controller.peers[link].cert) else Nothing
    case ControllerLand(cert) => Writes(cert)
    case _ => Nothing
  }

  function Changed(r: Registry, change: Change): Registry {
    match change
    case Nothing => r
    case Revokes => r.(revoked := true)
    case Writes(cert) => if Activated(r, cert).Some? then Activated(r, cert).value else r
  }

  lemma StepChanges(p: Params, w: World, s: Step)
    requires Enabled(p, w, s)
    ensures Next(p, w, s).registry == Changed(w.registry, ChangeOf(w, s))
  {
  }

  /** The transaction that change is. */
  function Effect(change: Change, db: R.Db, id: Id): seq<R.Op>
    requires id in db.nodes
  {
    var expected := db.nodes[id].revision;
    match change
    case Nothing => []
    case Revokes => [R.OnNode(R.RevokesNode(id, expected, 0))]
    case Writes(cert) => [R.OnNode(R.RotatesCertificate(id, expected, cert, R.Certificate(id, 0, 0, None), 0))]
  }

  lemma ChangeIsTransaction(r: Registry, change: Change, db: R.Db, id: Id)
    requires Abstracts(db, id, r) && id in db.nodes && I.CertificatesSound(db)
    ensures var after := R.ApplyAll(db, Effect(change, db, id));
            Abstracts(after, id, Changed(r, change)) && id in after.nodes && I.CertificatesSound(after)
  {
    var ops := Effect(change, db, id);
    if ops != [] {
      assert ops[1..] == [] && R.ApplyAll(db, ops) == R.Apply(db, ops[0]);
      I.StepKeepsCertificates(db, ops[0]);
      if change.Revokes? {
        RevocationIsFlag(db, id, r, 0);
      } else {
        RotationIsActivation(db, id, r, change.cert, R.Certificate(id, 0, 0, None), 0);
      }
    }
  }

  /** Every run of the machine is a run of transactions of the repository that ends in the tables of its last state. */
  lemma {:induction false} RunIsTransactions(p: Params, w: World, steps: seq<Step>, db: R.Db, id: Id)
    requires Runs(p, w, steps) && Abstracts(db, id, w.registry) && id in db.nodes && I.CertificatesSound(db)
    ensures exists ops ::
      && Abstracts(R.ApplyAll(db, ops), id, After(p, w, steps).registry)
      && I.CertificatesSound(R.ApplyAll(db, ops))
    decreases |steps|
  {
    if steps == [] {
      assert R.ApplyAll(db, []) == db;
    } else {
      var change := ChangeOf(w, steps[0]);
      var ops := Effect(change, db, id);
      var after := R.ApplyAll(db, ops);
      StepChanges(p, w, steps[0]);
      ChangeIsTransaction(w.registry, change, db, id);
      RunIsTransactions(p, Next(p, w, steps[0]), steps[1..], after, id);
      var rest :| Abstracts(R.ApplyAll(after, rest), id, After(p, w, steps).registry)
                  && I.CertificatesSound(R.ApplyAll(after, rest));
      I.AppliedInTurn(db, ops, rest);
    }
  }

  function Enrolls(id: Id): R.Op {
    var node := R.ClusterNode({R.SourceWorker}, R.Online, 0, None, 0);
    R.OnNode(R.CreatesNode(id, node, 0, Some(R.Certificate(id, 0, 0, None))))
  }

  lemma EnrolledTables(id: Id)
    ensures var db := R.ApplyAll(R.EmptyDb, [Enrolls(id)]);
            id in db.nodes && Abstracts(db, id, Enrolled.registry) && I.CertificatesSound(db)
  {
    var create := Enrolls(id).node;
    assert [Enrolls(id)][1..] == [] && R.ApplyAll(R.EmptyDb, [Enrolls(id)]) == R.Apply(R.EmptyDb, Enrolls(id));
    I.StepKeepsCertificates(R.EmptyDb, Enrolls(id));
    EnrollmentStarts(R.EmptyDb, id, create.node, 0, create.certificate.value);
    assert R.Apply(R.EmptyDb, Enrolls(id)).certificates.Keys == {0};
  }

  /** Any reachable state has tables that some transactions lead to from none. */
  lemma ReachableHasTables(p: Params, w: World, id: Id)
    requires Reachable(p, w)
    ensures exists ops ::
      && Abstracts(R.ApplyAll(R.EmptyDb, ops), id, w.registry)
      && I.CertificatesSound(R.ApplyAll(R.EmptyDb, ops))
  {
    var steps :| Runs(p, Enrolled, steps) && After(p, Enrolled, steps) == w;
    var db := R.ApplyAll(R.EmptyDb, [Enrolls(id)]);
    EnrolledTables(id);
    RunIsTransactions(p, Enrolled, steps, db, id);
    var rest :| Abstracts(R.ApplyAll(db, rest), id, w.registry) && I.CertificatesSound(R.ApplyAll(db, rest));
    I.AppliedInTurn(R.EmptyDb, [Enrolls(id)], rest);
  }

  /** In a sound deployment the node durably holds whatever certificate the repository's check accepts for it. */
  lemma AcceptedCertificateIsHeld(p: Params, w: World, db: R.Db, id: Id, serial: Cert, now: Millis)
    requires RotationInvariant.Sound(p) && Reachable(p, w) && Abstracts(db, id, w.registry) && I.CertificatesSound(db)
    requires I.CertificateIsActive(db, id, serial, now)
    ensures Holds(w.node.stored, serial)
  {
    CheckAgrees(db, id, w.registry, serial, now);
    S.SoundNeverLocksOut(p);
    assert NotLockedOut(w);
  }
}
