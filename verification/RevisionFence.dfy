/**
 The revision fence. Several repository methods read a row, suspend, and then write under the revision they read.
 A revision only grows while its row exists, so such a write behaves as one atomic transaction; it does not when
 the row was deleted and created again in between, because revisions restart at one.
 */
module RevisionFence {
  import opened Prelude
  import opened Repository
  import RepositoryIntegrity

  datatype Key = SessionKey(id: Id) | ChannelKey(id: Id) | UserKey(id: Id) | NodeKey(id: Id)

  datatype Row =
    | SessionRow(session: Versioned<Session>)
    | ChannelRow(channel: Versioned<Channel>)
    | UserRow(user: Versioned<Identity>)
    | NodeRow(node: Versioned<ClusterNode>)

  function Lookup(db: Db, key: Key): Option<Row> {
    match key
    case SessionKey(id) => if id in db.sessions then Some(SessionRow(db.sessions[id])) else None
    case ChannelKey(id) => if id in db.channels then Some(ChannelRow(db.channels[id])) else None
    case UserKey(id) => if id in db.users then Some(UserRow(db.users[id])) else None
    case NodeKey(id) => if id in db.nodes then Some(NodeRow(db.nodes[id])) else None
  }

  function Revision(row: Row): nat {
    match row
    case SessionRow(r) => r.revision
    case ChannelRow(r) => r.revision
    case UserRow(r) => r.revision
    case NodeRow(r) => r.revision
  }

  predicate Deletes(op: Op, key: Key) {
    match key
    case SessionKey(id) => op.OnSession? && op.session.DeletesSession? && op.session.id == id
    case ChannelKey(id) => op.OnChannel? && op.channel.DeletesChannel? && op.channel.id == id
    case UserKey(id) => op.OnUser? && op.user.DeletesUser? && op.user.id == id
    case NodeKey(id) => op.OnNode? && op.node.RemovesNode? && op.node.id == id
  }

  /** The row is still there and is either the same row or carries a greater revision. */
  predicate Advanced(before: Option<Row>, after: Option<Row>) {
    before.Some? ==> after.Some? && (after == before || Revision(after.value) > Revision(before.value))
  }

  lemma SessionsAdvance(db: Db, op: SessionOp, id: Id)
    requires !Deletes(OnSession(op), SessionKey(id))
    ensures Advanced(Lookup(db, SessionKey(id)), Lookup(ApplySession(db, op), SessionKey(id)))
  {
  }

  lemma ChannelsAdvance(db: Db, op: ChannelOp, id: Id)
    requires !Deletes(OnChannel(op), ChannelKey(id))
    ensures Advanced(Lookup(db, ChannelKey(id)), Lookup(ApplyChannel(db, op), ChannelKey(id)))
  {
  }

  lemma UsersAdvance(db: Db, op: UserOp, id: Id)
    requires !Deletes(OnUser(op), UserKey(id))
    ensures Advanced(Lookup(db, UserKey(id)), Lookup(ApplyUser(db, op), UserKey(id)))
  {
  }

  predicate NodeAdvanced(before: map<Id, Versioned<ClusterNode>>, after: map<Id, Versioned<ClusterNode>>, id: Id) {
    id in before ==> id in after && (after[id] == before[id] || after[id].revision > before[id].revision)
  }

  lemma ReportsAdvance(db: Db, op: NodeOp)
    requires op.RecordsHeartbeat? || op.SetsDrain? || op.SetsOperationalState? || op.EnsuresLocalNode?
    ensures NodeAdvanced(db.nodes, ApplyNode(db, op).nodes, op.id)
  {
  }

  lemma LifecycleAdvances(db: Db, op: NodeOp)
    requires op.CreatesNode? || op.RotatesCertificate? || op.RevokesNode?
    ensures NodeAdvanced(db.nodes, ApplyNode(db, op).nodes, op.id)
  {
  }

  lemma NodesAdvance(db: Db, op: NodeOp, id: Id)
    requires !Deletes(OnNode(op), NodeKey(id))
    ensures NodeAdvanced(db.nodes, ApplyNode(db, op).nodes, id)
  {
    if op.id != id {
      RepositoryIntegrity.OtherNodesUntouched(db, op, id);
    } else if op.CreatesNode? || op.RotatesCertificate? || op.RevokesNode? {
      LifecycleAdvances(db, op);
    } else {
      ReportsAdvance(db, op);
    }
  }

  lemma StepAdvances(db: Db, op: Op, key: Key)
    requires !Deletes(op, key)
    ensures Advanced(Lookup(db, key), Lookup(Apply(db, op), key))
  {
    match op
    case OnCatalog(_) =>
    case OnSession(o) => if key.SessionKey? { SessionsAdvance(db, o, key.id); }
    case OnChannel(o) => if key.ChannelKey? { ChannelsAdvance(db, o, key.id); }
    case OnUser(o) => if key.UserKey? { UsersAdvance(db, o, key.id); }
    case OnNode(o) => if key.NodeKey? { NodesAdvance(db, o, key.id); }
  }

  predicate Keeps(ops: seq<Op>, key: Key) {
    forall k :: 0 <= k < |ops| ==> !Deletes(ops[k], key)
  }

  /** While a row is not deleted, the same revision means the same row. */
  lemma {:induction false} RunAdvances(db: Db, ops: seq<Op>, key: Key)
    requires Keeps(ops, key)
    ensures Advanced(Lookup(db, key), Lookup(ApplyAll(db, ops), key))
    decreases |ops|
  {
    if ops != [] {
      StepAdvances(db, ops[0], key);
      RunAdvances(Apply(db, ops[0]), ops[1..], key);
    }
  }

  // ---------------------------------------------------------------- the methods that suspend between read and write

  /** The identity check looks at the row read first; the write happens in the tables found later. */
  function WriteSessionLater(read: Db, later: Db, id: Id, session: Session, expected: nat): (Db, Result<Session>) {
    if id !in read.sessions then (later, Refused(NotFound))
    else if read.sessions[id].revision != expected then (later, Refused(RevisionConflict))
    else if !SameSessionIdentity(read.sessions[id].value, session) then (later, Refused(InvalidState))
    else
      var (table, result) := CompareAndSet(later.sessions, id, session, expected);
      (later.(sessions := table), result)
  }

  /** What a heartbeat, an administrator and the presence sweep change of a node. */
  datatype Report =
    | Heartbeat(capabilities: Id, reported: ReportedState, expiresAt: Option<Millis>)
    | Drain(draining: bool)
    | Operate(state: OperationalState)

  function AsOp(id: Id, expected: nat, report: Report): NodeOp {
    match report
    case Heartbeat(capabilities, reported, expiresAt) => RecordsHeartbeat(id, expected, capabilities, reported,
      expiresAt)
    case Drain(draining) => SetsDrain(id, expected, draining)
    case Operate(state) => SetsOperationalState(id, expected, state)
  }

  /** The report as one transaction. */
  function WriteReport(db: Db, id: Id, expected: nat, report: Report): (Db, Result<ClusterNode>) {
    match report
    case Heartbeat(capabilities, reported, expiresAt) => RecordHeartbeat(db, id, expected, capabilities, reported,
      expiresAt)
    case Drain(draining) => SetDrain(db, id, expected, draining)
    case Operate(state) => SetOperationalState(db, id, expected, state)
  }

  /** The document built from the node read first; `None` when that node refuses the report. */
  function Merged(current: ClusterNode, report: Report): Option<ClusterNode> {
    match report
    case Heartbeat(capabilities, reported, expiresAt) =>
      Some(current.(capabilities := capabilities,
                    state := if Protected(current.state) then current.state else Reported(reported),
                    certificateExpiresAt := if expiresAt.Some? then expiresAt else current.certificateExpiresAt))
    case Drain(draining) =>
      if current.state.Revoked? then None
      else Some(current.(state := if draining then Draining
        else if current.state.Draining? then Online else current.state))
    case Operate(state) => if Protected(current.state) then None else Some(current.(state := Operational(state)))
  }

  /** The conditional update: only an operational state looks at the state of the row it is written over. */
  function PutNode(later: Db, id: Id, expected: nat, report: Report, node: ClusterNode): (Db, Result<ClusterNode>) {
    if report.Operate? && id in later.nodes && later.nodes[id].revision == expected
      && Protected(later.nodes[id].value.state)
    then (later, Refused(InvalidState))
    else NodeWritten(later, id, node, expected)
  }

  function WriteReportLater(read: Db, later: Db, id: Id, expected: nat, report: Report): (Db, Result<ClusterNode>) {
    if id !in read.nodes then (later, Refused(NotFound))
    else if read.nodes[id].revision != expected then (later, Refused(RevisionConflict))
    else
      var merged := Merged(read.nodes[id].value, report);
      if merged.None? then (later, Refused(InvalidState)) else PutNode(later, id, expected, report, merged.value)
  }

  // ---------------------------------------------------------------- exactly when such a write is one transaction

  /** The row found agrees with the row read in everything the report copies or decides on. */
  predicate Agrees(read: ClusterNode, found: ClusterNode, report: Report) {
    && read.roles == found.roles && read.createdAt == found.createdAt
    && match report
       case Heartbeat(_, reported, expiresAt) =>
         && (expiresAt.None? ==> read.certificateExpiresAt == found.certificateExpiresAt)
         && (if reported.ReportDraining? then read.state.Revoked? <==> found.state.Revoked?
             else read.state == found.state || (!Protected(read.state) && !Protected(found.state)))
       case Drain(draining) =>
         && read.capabilities == found.capabilities && read.certificateExpiresAt == found.certificateExpiresAt
         && !found.state.Revoked?
         && (!draining && read.state != found.state ==>
               {read.state, found.state} == {NodeState.Online, NodeState.Draining})
       case Operate(_) =>
         && read.capabilities == found.capabilities && read.certificateExpiresAt == found.certificateExpiresAt
  }

  /** A report that gives up changes nothing and says what the transaction would have said when it read. */
  lemma ReportGivesUp(read: Db, later: Db, id: Id, expected: nat, report: Report)
    requires !WriteReport(read, id, expected, report).1.Applied?
    ensures WriteReportLater(read, later, id, expected, report) == (later, WriteReport(read, id, expected, report).1)
  {
  }

  /** A report that goes on is the transaction at the moment it writes, unless it finds another row at its revision. */
  lemma SuspendedReportIsAtomic(read: Db, later: Db, id: Id, expected: nat, report: Report)
    requires WriteReport(read, id, expected, report).1.Applied?
    ensures WriteReportLater(read, later, id, expected, report) == WriteReport(later, id, expected, report) <==>
            (id in later.nodes && later.nodes[id].revision == expected ==>
               || (report.Operate? && Protected(later.nodes[id].value.state))
               || Agrees(read.nodes[id].value, later.nodes[id].value, report))
  {
  }

  /** A session write that goes on is the transaction unless the row it finds at its revision is another session. */
  lemma SuspendedSessionWriteIsAtomic(read: Db, later: Db, id: Id, session: Session, expected: nat)
    ensures
      var outcome := WriteSessionLater(read, later, id, session, expected);
      if !CompareAndSetSession(read, id, session, expected).1.Applied?
      then outcome == (later, CompareAndSetSession(read, id, session, expected).1)
      else outcome == CompareAndSetSession(later, id, session, expected) <==>
           (id in later.sessions && later.sessions[id].revision == expected ==>
              SameSessionIdentity(later.sessions[id].value, session))
  {
  }

  /** While its row is not deleted in between, every such write is one transaction. */
  lemma SuspendedWritesAreAtomic(
    read: Db, ops: seq<Op>, id: Id, expected: nat, report: Report, sessionId: Id, session: Session,
      sessionRevision: nat)
    requires Keeps(ops, NodeKey(id)) && Keeps(ops, SessionKey(sessionId))
    ensures WriteReport(read, id, expected, report).1.Applied? ==>
      WriteReportLater(read, ApplyAll(read, ops), id, expected, report)
        == WriteReport(ApplyAll(read, ops), id, expected, report)
    ensures CompareAndSetSession(read, sessionId, session, sessionRevision).1.Applied? ==>
      WriteSessionLater(read, ApplyAll(read, ops), sessionId, session, sessionRevision)
      == CompareAndSetSession(ApplyAll(read, ops), sessionId, session, sessionRevision)
  {
    RunAdvances(read, ops, NodeKey(id));
    RunAdvances(read, ops, SessionKey(sessionId));
    if WriteReport(read, id, expected, report).1.Applied? {
      SuspendedReportIsAtomic(read, ApplyAll(read, ops), id, expected, report);
    }
    SuspendedSessionWriteIsAtomic(read, ApplyAll(read, ops), sessionId, session, sessionRevision);
  }

  // ---------------------------------------------------------------- inputs on which it is not

  lemma ThreeSteps(db: Db, a: Op, b: Op, c: Op)
    ensures ApplyAll(db, [a, b, c]) == Apply(Apply(Apply(db, a), b), c)
  {
    var d1, d2, d3 := Apply(db, a), Apply(Apply(db, a), b), Apply(Apply(Apply(db, a), b), c);
    assert [a, b, c][1..] == [b, c] && [b, c][1..] == [c] && [c][1..] == [];
    assert ApplyAll(db, [a, b, c]) == ApplyAll(d1, [b, c]);
    assert ApplyAll(d1, [b, c]) == ApplyAll(d2, [c]);
    assert ApplyAll(d2, [c]) == ApplyAll(d3, []);
  }

  /** An unbound node is revoked, removed and registered anew, and then stands at revision one again. */
  function Replacement(id: Id, newer: ClusterNode): seq<Op> {
    [OnNode(RevokesNode(id, 1, 0)), OnNode(RemovesNode(id, 2)), OnNode(EnsuresLocalNode(id, newer))]
  }

  lemma RevokedUnbound(db: Db, id: Id)
    requires id in db.nodes && db.nodes[id].revision == 1 && db.bindings == map[]
    ensures var after := Apply(db, OnNode(RevokesNode(id, 1, 0)));
            && after.bindings == map[] && id in after.nodes && after.nodes[id].revision == 2
            && after.nodes[id].value.state.Revoked?
  {
    assert BindingsWithdrawn(db.bindings, id).Keys == {};
  }

  lemma RemovedUnbound(db: Db, id: Id)
    requires id in db.nodes && db.nodes[id].revision == 2 && db.nodes[id].value.state.Revoked? && db.bindings == map[]
    ensures id !in Apply(db, OnNode(RemovesNode(id, 2))).nodes
  {
    assert !NodeInUse(db, id);
  }

  lemma RegisteredAfterRemoval(db: Db, id: Id, newer: ClusterNode)
    requires id !in db.nodes
    ensures var after := Apply(db, OnNode(EnsuresLocalNode(id, newer)));
            id in after.nodes && after.nodes[id] == Versioned(newer, 1)
  {
  }

  lemma RegisteredAnew(db: Db, id: Id, newer: ClusterNode)
    requires id in db.nodes && db.nodes[id].revision == 1 && db.bindings == map[]
    ensures var later := ApplyAll(db, Replacement(id, newer));
            id in later.nodes && later.nodes[id] == Versioned(newer, 1)
  {
    var revoke, remove := OnNode(RevokesNode(id, 1, 0)), OnNode(RemovesNode(id, 2));
    RevokedUnbound(db, id);
    RemovedUnbound(Apply(db, revoke), id);
    RegisteredAfterRemoval(Apply(Apply(db, revoke), remove), id, newer);
    ThreeSteps(db, revoke, remove, OnNode(EnsuresLocalNode(id, newer)));
  }

  const Earlier := ClusterNode({Edge}, NodeState.Online, 0, None, 0)
  const Newer := ClusterNode({SourceWorker}, NodeState.Online, 0, None, 0)

  /** A heartbeat, a drain or an operational state decided before a removal overwrites the node registered
      afterwards. */
  lemma ReportOutlivesRemoval(report: Report)
    ensures exists db: Db, ops: seq<Op>, id: Id ::
      && WriteReport(db, id, 1, report).1.Applied?
      && WriteReportLater(db, ApplyAll(db, ops), id, 1, report) != WriteReport(ApplyAll(db, ops), id, 1, report)
  {
    var db := EmptyDb.(nodes := map[7 := Versioned(Earlier, 1)]);
    var ops := Replacement(7, Newer);
    RegisteredAnew(db, 7, Newer);
    assert Edge in Earlier.roles && Edge !in Newer.roles;
    assert WriteReport(db, 7, 1, report).1.Applied?;
    SuspendedReportIsAtomic(db, ApplyAll(db, ops), 7, 1, report);
  }

  /**
   A session write decided before a deletion overwrites the session created afterwards under the same identifier. The
   repository accepts that; its callers draw session identifiers at random and so do not produce it, whereas a local
   node does come back under its configured identifier.
   */
  lemma SessionWriteOutlivesDeletion()
    ensures exists db: Db, ops: seq<Op>, id: Id, session: Session ::
      && CompareAndSetSession(db, id, session, 1).1.Applied?
      && WriteSessionLater(db, ApplyAll(db, ops), id, session, 1)
        != CompareAndSetSession(ApplyAll(db, ops), id, session, 1)
  {
    var session := Session(Live, None, Some(5), 0, 0, None, 0, None, false, 0, false, None);
    var other := session.(profileId := 1);
    var db := EmptyDb.(sessions := map[7 := Versioned(session, 1)], channels := map[5 := Versioned(Channel(None,
        PublisherOffline, 0, None, 0), 1)]);
    var delete, create := OnSession(DeletesSession(7, 0)), OnSession(CreatesSession(7, other, 3, Grant(7, None),
        Some(1)));
    var ops := [delete, create];
    var deleted, later := Apply(db, delete), Apply(Apply(db, delete), create);
    assert ApplyAll(db, ops) == later by {
      assert ops[1..] == [create] && [create][1..] == [];
      assert ApplyAll(deleted, [create]) == ApplyAll(later, []);
    }
    assert deleted.grants.Keys == {};
    assert later.sessions[7] == Versioned(other, 1);
    SuspendedSessionWriteIsAtomic(db, ApplyAll(db, ops), 7, session, 1);
    assert CompareAndSetSession(db, 7, session, 1).1.Applied?;
  }
}
