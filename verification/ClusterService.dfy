/**
 The bounded retry loops of the cluster service. They run against tables that other callers change at every suspension
 point; each of their own writes is one transaction of module `Repository`.
 */
module ClusterService {
  import opened Prelude
  import opened Repository
  import I = RepositoryIntegrity
  import F = RevisionFence

  const MAX_ATOMIC_WRITE_ATTEMPTS := 5

  datatype Outcome = Done(node: ClusterNode) | Left(node: ClusterNode) | NodeNotFound | Refusal | Contended | Raised

  ghost predicate OnlyActive(certificates: map<Id, Certificate>, id: Id, serial: Id) {
    && I.Active(certificates, serial) && certificates[serial].nodeId == id
    && forall other :: I.Active(certificates, other) && certificates[other].nodeId == id ==> other == serial
  }

  ghost predicate NoneActive(certificates: map<Id, Certificate>, id: Id) {
    forall other :: I.Active(certificates, other) ==> certificates[other].nodeId != id
  }

  lemma RotatedIsOnlyActive(db: Db, id: Id, expected: nat, serial: Id, certificate: Certificate, at: Millis)
    requires RotateCertificate(db, id, expected, serial, certificate, at).1.Applied?
    ensures OnlyActive(RotateCertificate(db, id, expected, serial, certificate, at).0.certificates, id, serial)
  {
    forall other { I.RevokedFirst(db.certificates, id, at, other); }
  }

  lemma RevokedHasNoneActive(db: Db, id: Id, expected: nat, at: Millis)
    requires RevokeNode(db, id, expected, at).1.Applied?
    ensures NoneActive(RevokeNode(db, id, expected, at).0.certificates, id)
  {
    forall other { I.RevokedFirst(db.certificates, id, at, other); }
  }

  class Cluster {
    ghost const start: Db
    var db: Db
    /** Every transaction executed since the start, and the positions of those executed for the caller at hand. */
    ghost var log: seq<Op>
    ghost var own: set<nat>

    ghost predicate Valid()
      reads this
    {
      db == ApplyAll(start, log)
    }

    twostate predicate OthersOnly()
      reads this
    {
      old(log) <= log && own == old(own)
    }

    /** The last transaction, and the only one of this caller that changed anything, is `op`. */
    twostate predicate OwnLast(op: NodeOp)
      reads this
    {
      old(log) < log && log[|log| - 1] == OnNode(op) && own == old(own) + {|log| - 1}
    }

    constructor (db: Db)
      ensures Valid() && this.db == db && log == []
    {
      start, this.db, log, own := db, db, [], {};
    }

    /** A suspension point: its callers know only that others may have executed transactions. */
    method Suspend()
      requires Valid()
      modifies this
      ensures Valid() && OthersOnly()
    {
    }

    /** A suspension point of a writer that holds `row`: others create no node under an identifier in use. */
    method SuspendHolding(id: Id, row: Versioned<ClusterNode>)
      requires Valid() && Get(db.nodes, id) == Some(row)
      modifies this
      ensures Valid() && OthersOnly()
      ensures id in db.nodes && db.nodes[id].revision == row.revision ==> db.nodes[id] == row
    {
    }

    method GetNode(id: Id) returns (current: Option<Versioned<ClusterNode>>)
      requires Valid()
      modifies this
      ensures Valid() && OthersOnly() && current == Get(db.nodes, id)
    {
      Suspend();
      current := Get(db.nodes, id);
    }

    method Commit(op: NodeOp)
      requires Valid()
      modifies `db, `log, `own
      ensures Valid() && log == old(log) + [OnNode(op)] && own == old(own) + {|old(log)|}
          && db == ApplyNode(old(db), op)
    {
      I.AppliedInTurn(start, log, [OnNode(op)]);
      assert [OnNode(op)][1..] == [];
      db, log, own := ApplyNode(db, op), log + [OnNode(op)], own + {|log|};
    }

    /** The rotation transaction, some time after the node was read. */
    method RotateNodeCertificate(id: Id, current: Versioned<ClusterNode>, serial: Id, certificate: Certificate,
        at: Millis)
      returns (r: Result<ClusterNode>)
      requires Valid() && Get(db.nodes, id) == Some(current)
      modifies this
      ensures Valid()
      ensures if r.Applied? then OwnLast(RotatesCertificate(id, current.revision, serial, certificate, at))
                               && id in db.nodes && db.nodes[id] == r.record
                               && OnlyActive(db.certificates, id, serial) && !r.record.value.state.Revoked?
              else OthersOnly()
      ensures r == Refused(RevisionConflict) ==> |log| > |old(log)|
      ensures r == Refused(NotFound) ==> id !in db.nodes
      ensures r == Refused(InvalidState) ==> id in db.nodes && db.nodes[id].value.state.Revoked?
      ensures r != Refused(DependencyConflict)
      ensures r == Thrown ==> certificate.nodeId != id || certificate.revokedAt.Some? || serial in db.certificates
    {
      ghost var read := log;
      Suspend();
      r := RotateCertificate(db, id, current.revision, serial, certificate, at).1;
      if r.Applied? {
        RotatedIsOnlyActive(db, id, current.revision, serial, certificate, at);
        Commit(RotatesCertificate(id, current.revision, serial, certificate, at));
      } else if r == Refused(RevisionConflict) {
        assert log != read;
      }
    }

    /** Makes a signed certificate the only one of its node that authenticates. */
    method ActivateNodeCertificate(id: Id, serial: Id, certificate: Certificate, at: Millis) returns (r: Outcome)
      requires Valid() && certificate.nodeId == id && certificate.revokedAt.None?
      modifies this
      ensures Valid()
      ensures r.Done? ==>
            OnlyActive(db.certificates, id, serial) && id in db.nodes && !db.nodes[id].value.state.Revoked?
      ensures !r.Done? ==> OthersOnly()
      ensures r.NodeNotFound? ==> id in db.nodes ==> db.nodes[id].value.state.Revoked?
      ensures r.Raised? ==> serial in db.certificates
      ensures r.Contended? ==> |log| >= |old(log)| + MAX_ATOMIC_WRITE_ATTEMPTS
      ensures r.Done? || r.NodeNotFound? || r.Raised? || r.Contended?
    {
      var attempt := 0;
      while attempt < MAX_ATOMIC_WRITE_ATTEMPTS
        invariant 0 <= attempt <= MAX_ATOMIC_WRITE_ATTEMPTS
        invariant Valid() && OthersOnly() && |log| >= |old(log)| + attempt
      {
        var current := GetNode(id);
        if current.None? || current.value.value.state.Revoked? {
          return NodeNotFound;
        }
        var result := RotateNodeCertificate(id, current.value, serial, certificate, at);
        match result
        case Applied(record) => return Done(record.value);
        case Thrown => return Raised;
        case Refused(reason) =>
          if reason.NotFound? || reason.InvalidState? {
            return NodeNotFound;
          }
        attempt := attempt + 1;
      }
      return Contended;
    }

    /** Revokes a node: afterwards it has no certificate that authenticates. */
    method Revoke(id: Id, at: Millis) returns (r: Outcome)
      requires Valid()
      modifies this
      ensures Valid()
      ensures r.Done? ==>
            id in db.nodes && db.nodes[id].value == r.node && r.node.state.Revoked? && NoneActive(db.certificates, id)
      ensures !r.Done? ==> OthersOnly()
      ensures r.NodeNotFound? ==> id !in db.nodes
      ensures r.Contended? ==> |log| >= |old(log)| + MAX_ATOMIC_WRITE_ATTEMPTS
      ensures r.Done? || r.NodeNotFound? || r.Contended?
    {
      var attempt := 0;
      while attempt < MAX_ATOMIC_WRITE_ATTEMPTS
        invariant 0 <= attempt <= MAX_ATOMIC_WRITE_ATTEMPTS
        invariant Valid() && OthersOnly() && |log| >= |old(log)| + attempt
      {
        var current := GetNode(id);
        if current.None? {
          return NodeNotFound;
        }
        ghost var read := log;
        Suspend();
        var result := RevokeNode(db, id, current.value.revision, at).1;
        if result.Applied? {
          RevokedHasNoneActive(db, id, current.value.revision, at);
          Commit(RevokesNode(id, current.value.revision, at));
          return Done(result.record.value);
        }
        if id !in db.nodes {
          return NodeNotFound;
        }
        assert log != read;
        attempt := attempt + 1;
      }
      return Contended;
    }

    /** Records a heartbeat; a revoked node is left alone, and a draining one stays so. */
    method Heartbeat(id: Id, capabilities: Id, reported: ReportedState) returns (r: Outcome)
      requires Valid()
      modifies this
      ensures Valid()
      ensures r.Done? ==> id in db.nodes && db.nodes[id].value == r.node && r.node.capabilities == capabilities
                          && (r.node.state == Reported(reported) || Protected(r.node.state))
      ensures !r.Done? ==> OthersOnly()
      ensures r.NodeNotFound? ==> id !in db.nodes
      ensures r.Contended? ==> |log| >= |old(log)| + MAX_ATOMIC_WRITE_ATTEMPTS
      ensures r.Left? ==> id in db.nodes && db.nodes[id].value == r.node && r.node.state.Revoked?
      ensures r.Done? || r.Left? || r.NodeNotFound? || r.Contended?
    {
      var attempt := 0;
      while attempt < MAX_ATOMIC_WRITE_ATTEMPTS
        invariant 0 <= attempt <= MAX_ATOMIC_WRITE_ATTEMPTS
        invariant Valid() && OthersOnly() && |log| >= |old(log)| + attempt
      {
        var current := GetNode(id);
        if current.None? {
          return NodeNotFound;
        }
        if current.value.value.state.Revoked? {
          return Left(current.value.value);
        }
        ghost var read := log;
        Suspend();
        var row := Get(db.nodes, id);
        if row.None? {
          return NodeNotFound;
        }
        if row.value.revision == current.value.revision {
          // the repository merges into the row it reads, and suspends once more before it writes
          var merged := F.Merged(row.value.value, F.Heartbeat(capabilities, reported, None)).value;
          SuspendHolding(id, row.value);
          var result := NodeWritten(db, id, merged, row.value.revision).1;
          if result.Applied? {
            assert result == RecordHeartbeat(db, id, row.value.revision, capabilities, reported, None).1;
            Commit(RecordsHeartbeat(id, row.value.revision, capabilities, reported, None));
            return Done(result.record.value);
          }
          if id !in db.nodes {
            return NodeNotFound;
          }
        }
        assert log != read;
        attempt := attempt + 1;
      }
      return Contended;
    }

    /** Removes a revoked node that no binding uses. */
    method Remove(id: Id) returns (r: Outcome)
      requires Valid()
      modifies this
      ensures Valid()
      ensures r.Done? ==> id !in db.nodes && r.node.state.Revoked?
      ensures !r.Done? ==> OthersOnly()
      ensures r.NodeNotFound? ==> id !in db.nodes
      ensures r.Refusal? ==> id in db.nodes && (!db.nodes[id].value.state.Revoked? || NodeInUse(db, id))
      ensures r.Contended? ==> |log| >= |old(log)| + MAX_ATOMIC_WRITE_ATTEMPTS
      ensures r.Done? || r.NodeNotFound? || r.Refusal? || r.Contended?
    {
      var attempt := 0;
      while attempt < MAX_ATOMIC_WRITE_ATTEMPTS
        invariant 0 <= attempt <= MAX_ATOMIC_WRITE_ATTEMPTS
        invariant Valid() && OthersOnly() && |log| >= |old(log)| + attempt
      {
        var current := GetNode(id);
        if current.None? {
          return NodeNotFound;
        }
        if !current.value.value.state.Revoked? {
          return Refusal;
        }
        ghost var read := log;
        Suspend();
        var result := RemoveNode(db, id, current.value.revision).1;
        match result
        case Applied(record) =>
          Commit(RemovesNode(id, current.value.revision));
          return Done(record.value);
        case Refused(NotFound) => return NodeNotFound;
        case Refused(InvalidState) => return Refusal;
        case Refused(DependencyConflict) => return Refusal;
        case _ =>
        assert log != read;
        attempt := attempt + 1;
      }
      return Contended;
    }
  }
}
