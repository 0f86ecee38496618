/**
 Runs in which node reports and session writes really suspend between their read and their write, with any transactions
 in between. What is proved of runs of whole transactions holds of such runs exactly when no row is created under an
 identifier that a suspended writer still holds: for nodes that a revoked node stays revoked until it is removed, for
 sessions that references hold and that a provider marked for deletion gains no dependent.
 */
module SuspendedWriters {
  import opened Prelude
  import opened Repository
  import opened RepositoryIntegrity
  import opened RevisionFence

  /** What has been read and is still to be written: a report merges into `read`, a session is written as it is. */
  datatype Writer =
    | NodeWriter(id: Id, expected: nat, report: Report, read: ClusterNode)
    | SessionWriter(id: Id, expected: nat, session: Session, readSession: Session)
  {
    function Key(): Key {
      if NodeWriter? then NodeKey(id) else SessionKey(id)
    }
  }

  datatype State = State(db: Db, writers: set<Writer>)

  datatype Step =
    | Transacts(op: Op)
    | ReadsNode(id: Id, expected: nat, report: Report)
    | ReadsSession(id: Id, expected: nat, session: Session)
    | Writes(writer: Writer)

  function CapturedReport(db: Db, id: Id, expected: nat, report: Report): set<Writer> {
    if id in db.nodes && db.nodes[id].revision == expected && Merged(db.nodes[id].value, report).Some?
    then {NodeWriter(id, expected, report, db.nodes[id].value)}
    else {}
  }

  function CapturedSession(db: Db, id: Id, expected: nat, session: Session): set<Writer> {
    if id in db.sessions && db.sessions[id].revision == expected && SameSessionIdentity(db.sessions[id].value, session)
    then {SessionWriter(id, expected, session, db.sessions[id].value)}
    else {}
  }

  function Put(db: Db, w: Writer): Db {
    match w
    case NodeWriter(id, expected, report, read) =>
      var merged := Merged(read, report);
      if merged.Some? then PutNode(db, id, expected, report, merged.value).0 else db
    case SessionWriter(id, expected, session, _) => db.(sessions := CompareAndSet(db.sessions, id, session, expected).0)
  }

  /** Whether identifiers of nodes, and of sessions, are fresh: none is used again while a suspended writer holds it. */
  datatype Discipline = Discipline(freshNodes: bool, freshSessions: bool)

  predicate Creates(db: Db, op: Op, key: Key) {
    Lookup(db, key).None? && Lookup(Apply(db, op), key).Some?
  }

  predicate Enabled(d: Discipline, s: State, step: Step) {
    match step
    case Transacts(op) =>
      forall w :: w in s.writers && (if w.NodeWriter? then d.freshNodes else d.freshSessions) ==>
        !Creates(s.db, op, w.Key())
    case Writes(w) => w in s.writers
    case _ => true
  }

  function Next(s: State, step: Step): State {
    match step
    case Transacts(op) => s.(db := Apply(s.db, op))
    case ReadsNode(id, expected, report) => s.(writers := s.writers + CapturedReport(s.db, id, expected, report))
    case ReadsSession(id, expected, session) => s.(writers := s.writers + CapturedSession(s.db, id, expected, session))
    case Writes(w) => State(Put(s.db, w), s.writers - {w})
  }

  predicate Runs(d: Discipline, s: State, steps: seq<Step>)
    decreases |steps|
  {
    steps == [] || (Enabled(d, s, steps[0]) && Runs(d, Next(s, steps[0]), steps[1..]))
  }

  function After(s: State, steps: seq<Step>): State
    decreases |steps|
  {
    if steps == [] then s else After(Next(s, steps[0]), steps[1..])
  }

  /** Reached from some tables on which no writer is under way. */
  ghost predicate Reachable(d: Discipline, s: State) {
    exists db, steps :: Runs(d, State(db, {}), steps) && After(State(db, {}), steps) == s
  }

  // ---------------------------------------------------------------- what a writer read is what it finds

  predicate CurrentNode(db: Db, w: Writer)
    requires w.NodeWriter?
  {
    && (w.id in db.nodes ==>
          && db.nodes[w.id].revision >= w.expected
          && (db.nodes[w.id].revision == w.expected ==> db.nodes[w.id].value == w.read))
    && Merged(w.read, w.report).Some?
  }

  predicate CurrentSession(db: Db, w: Writer)
    requires w.SessionWriter?
  {
    && (w.id in db.sessions ==>
          && db.sessions[w.id].revision >= w.expected
          && (db.sessions[w.id].revision == w.expected ==> db.sessions[w.id].value == w.readSession))
    && SameSessionIdentity(w.readSession, w.session)
  }

  predicate NodesCurrent(s: State) {
    forall w :: w in s.writers && w.NodeWriter? ==> CurrentNode(s.db, w)
  }

  predicate SessionsCurrent(s: State) {
    forall w :: w in s.writers && w.SessionWriter? ==> CurrentSession(s.db, w)
  }

  predicate Inv(d: Discipline, s: State) {
    (d.freshNodes ==> NodesCurrent(s)) && (d.freshSessions ==> SessionsCurrent(s))
  }

  /** The transaction a suspended write stands for. */
  function AsTransaction(w: Writer): Op {
    match w
    case NodeWriter(id, expected, report, _) => OnNode(AsOp(id, expected, report))
    case SessionWriter(id, expected, session, _) => OnSession(SetsSession(id, session, expected))
  }

  /** A report merged into the row that is there is the transaction; over a later row or none both change nothing. */
  lemma MergedIsReport(db: Db, id: Id, expected: nat, report: Report, read: ClusterNode)
    requires id in db.nodes && db.nodes[id].revision == expected ==> db.nodes[id].value == read
    requires Merged(read, report).Some?
    ensures PutNode(db, id, expected, report, Merged(read, report).value).0 == WriteReport(db, id, expected, report).0
  {
  }

  lemma ReportIsOp(db: Db, id: Id, expected: nat, report: Report)
    ensures Apply(db, OnNode(AsOp(id, expected, report))) == WriteReport(db, id, expected, report).0
  {
  }

  /** A write over the row that was read is one transaction, and one over a later row or none changes nothing. */
  lemma ReportIsTransaction(db: Db, w: Writer)
    requires w.NodeWriter? && CurrentNode(db, w)
    ensures Put(db, w) == Apply(db, AsTransaction(w))
  {
    MergedIsReport(db, w.id, w.expected, w.report, w.read);
    ReportIsOp(db, w.id, w.expected, w.report);
  }

  lemma SessionWriteIsTransaction(db: Db, w: Writer)
    requires w.SessionWriter? && CurrentSession(db, w)
    ensures Put(db, w) == Apply(db, AsTransaction(w))
  {
  }

  /** A transaction that does not create the row leaves it alone, raises its revision, or deletes it. */
  lemma RowAdvances(db: Db, op: Op, key: Key)
    requires !Creates(db, op, key)
    ensures Lookup(Apply(db, op), key).Some? ==>
              Lookup(db, key).Some? && Advanced(Lookup(db, key), Lookup(Apply(db, op), key))
  {
    if !Deletes(op, key) {
      StepAdvances(db, op, key);
    } else {
      DeletionAdvances(db, op, key);
    }
  }

  lemma DeletionAdvances(db: Db, op: Op, key: Key)
    requires Deletes(op, key)
    ensures Lookup(Apply(db, op), key).None? || Lookup(Apply(db, op), key) == Lookup(db, key)
  {
  }

  lemma NodeStaysCurrent(db: Db, op: Op, w: Writer)
    requires w.NodeWriter? && CurrentNode(db, w) && !Creates(db, op, NodeKey(w.id))
    ensures CurrentNode(Apply(db, op), w)
  {
    RowAdvances(db, op, NodeKey(w.id));
  }

  lemma SessionStaysCurrent(db: Db, op: Op, w: Writer)
    requires w.SessionWriter? && CurrentSession(db, w) && !Creates(db, op, SessionKey(w.id))
    ensures CurrentSession(Apply(db, op), w)
  {
    RowAdvances(db, op, SessionKey(w.id));
  }

  /** Writing never creates a row, and only advances the one it writes. */
  lemma PutAdvances(db: Db, put: Writer)
    ensures forall id :: id in Put(db, put).nodes ==>
              id in db.nodes
              && (Put(db, put).nodes[id] == db.nodes[id] || Put(db, put).nodes[id].revision > db.nodes[id].revision)
    ensures forall id :: id in Put(db, put).sessions ==>
              id in db.sessions
              && (Put(db, put).sessions[id] == db.sessions[id]
                  || Put(db, put).sessions[id].revision > db.sessions[id].revision)
  {
  }

  lemma StepKeepsInv(d: Discipline, s: State, step: Step)
    requires Inv(d, s) && Enabled(d, s, step)
    ensures Inv(d, Next(s, step))
  {
    match step
    case Transacts(op) =>
      forall w | w in s.writers && w.NodeWriter? && d.freshNodes ensures CurrentNode(Apply(s.db, op), w) {
        NodeStaysCurrent(s.db, op, w);
      }
      forall w | w in s.writers && w.SessionWriter? && d.freshSessions ensures CurrentSession(Apply(s.db, op), w) {
        SessionStaysCurrent(s.db, op, w);
      }
    case ReadsNode(_, _, _) =>
    case ReadsSession(_, _, _) =>
    case Writes(put) =>
      PutAdvances(s.db, put);
  }

  lemma {:induction false} RunKeepsInv(d: Discipline, s: State, steps: seq<Step>)
    requires Inv(d, s) && Runs(d, s, steps)
    ensures Inv(d, After(s, steps))
    decreases |steps|
  {
    if steps != [] {
      StepKeepsInv(d, s, steps[0]);
      RunKeepsInv(d, Next(s, steps[0]), steps[1..]);
    }
  }

  lemma ReachableInv(d: Discipline, s: State)
    requires Reachable(d, s)
    ensures Inv(d, s)
  {
    var db, steps :| Runs(d, State(db, {}), steps) && After(State(db, {}), steps) == s;
    RunKeepsInv(d, State(db, {}), steps);
  }

  // ---------------------------------------------------------------- such a run is a run of whole transactions

  /** The transaction a step is, if it changes the tables at all. */
  function Effect(step: Step): seq<Op> {
    match step
    case Transacts(op) => [op]
    case Writes(w) => [AsTransaction(w)]
    case _ => []
  }

  function Effects(steps: seq<Step>): seq<Op>
    decreases |steps|
  {
    if steps == [] then [] else Effect(steps[0]) + Effects(steps[1..])
  }

  predicate Writing(d: Discipline, w: Writer) {
    if w.NodeWriter? then d.freshNodes else d.freshSessions
  }

  lemma StepIsTransaction(d: Discipline, s: State, step: Step)
    requires Inv(d, s) && Enabled(d, s, step) && (step.Writes? ==> Writing(d, step.writer))
    ensures Next(s, step).db == ApplyAll(s.db, Effect(step))
  {
    match step
    case Transacts(op) => assert [op][1..] == [];
    case ReadsNode(_, _, _) =>
    case ReadsSession(_, _, _) =>
    case Writes(w) =>
      assert [AsTransaction(w)][1..] == [];
      if w.NodeWriter? {
        ReportIsTransaction(s.db, w);
      } else {
        SessionWriteIsTransaction(s.db, w);
      }
  }

  const Fresh := Discipline(true, true)

  /** Every run with fresh identifiers is a run of whole transactions, so all that holds of those holds of it. */
  lemma {:induction false} RunIsTransactions(s: State, steps: seq<Step>)
    requires Inv(Fresh, s) && Runs(Fresh, s, steps)
    ensures After(s, steps).db == ApplyAll(s.db, Effects(steps))
    decreases |steps|
  {
    if steps != [] {
      StepIsTransaction(Fresh, s, steps[0]);
      StepKeepsInv(Fresh, s, steps[0]);
      RunIsTransactions(Next(s, steps[0]), steps[1..]);
      AppliedInTurn(s.db, Effect(steps[0]), Effects(steps[1..]));
    }
  }

  // ---------------------------------------------------------------- revoked until removed

  /** Exactly which writes bring a revoked node back: those of an unrevoked row at its revision, unguarded. */
  lemma WriteKeepsRevoked(db: Db, w: Writer)
    requires w.NodeWriter? && RevokedNode(db, w.id) && Merged(w.read, w.report).Some?
    ensures RevokedNode(Put(db, w), w.id) <==>
            db.nodes[w.id].revision != w.expected || w.report.Operate? || w.read.state.Revoked?
  {
  }

  /** A revoked node leaves that state by removal only. */
  ghost predicate RevokedUntilRemoval(d: Discipline) {
    forall s, step, id :: Reachable(d, s) && Enabled(d, s, step) && RevokedNode(s.db, id) ==>
      RevokedNode(Next(s, step).db, id) || (step.Transacts? && Removes(step.op, id))
  }

  lemma RevokedWhenFresh(d: Discipline, s: State, step: Step, id: Id)
    requires d.freshNodes && Reachable(d, s) && Enabled(d, s, step) && RevokedNode(s.db, id)
    ensures RevokedNode(Next(s, step).db, id) || (step.Transacts? && Removes(step.op, id))
  {
    ReachableInv(d, s);
    match step
    case Transacts(op) => StepKeepsRevoked(s.db, op, id);
    case ReadsNode(_, _, _) =>
    case ReadsSession(_, _, _) =>
    case Writes(w) =>
      if w.NodeWriter? {
        ReportIsTransaction(s.db, w);
        StepKeepsRevoked(s.db, AsTransaction(w), id);
      }
  }

  const OnlineNode := ClusterNode({Edge}, NodeState.Online, 0, None, 0)
  const Stale := NodeWriter(7, 2, Heartbeat(0, ReportOnline, None), OnlineNode)

  function OneNode(node: Versioned<ClusterNode>): Db {
    EmptyDb.(nodes := map[7 := node])
  }

  /** An online node is read, revoked, removed, registered anew and revoked again: it stands at the revision read. */
  const Removal := [Transacts(OnNode(RevokesNode(7, 2, 0))), Transacts(OnNode(RemovesNode(7, 3)))]
  const Return := [Transacts(OnNode(EnsuresLocalNode(7, OnlineNode))), Transacts(OnNode(RevokesNode(7, 1, 0)))]

  lemma RemovalRuns(d: Discipline)
    ensures var s := State(OneNode(Versioned(OnlineNode, 2)), {Stale});
            Runs(d, s, Removal) && After(s, Removal) == State(EmptyDb, {Stale})
  {
    var s := State(OneNode(Versioned(OnlineNode, 2)), {Stale});
    var s1 := Next(s, Removal[0]);
    assert s1.db == OneNode(Versioned(OnlineNode.(state := Revoked), 3));
    assert !NodeInUse(s1.db, 7);
    var s2 := Next(s1, Removal[1]);
    assert s2.db == EmptyDb;
    assert Removal[1..] == [Removal[1]] && [Removal[1]][1..] == [];
    assert Runs(d, s2, []) && After(s2, []) == s2;
    assert Runs(d, s1, [Removal[1]]) && After(s1, [Removal[1]]) == s2;
  }

  lemma ReturnRuns(d: Discipline)
    requires !d.freshNodes
    ensures var s := State(EmptyDb, {Stale});
            && Runs(d, s, Return)
            && After(s, Return) == State(OneNode(Versioned(OnlineNode.(state := Revoked), 2)), {Stale})
  {
    var s1 := Next(State(EmptyDb, {Stale}), Return[0]);
    assert s1.db == OneNode(Versioned(OnlineNode, 1));
    var s2 := Next(s1, Return[1]);
    assert s2.db == OneNode(Versioned(OnlineNode.(state := Revoked), 2));
    assert Return[1..] == [Return[1]] && [Return[1]][1..] == [];
    assert Runs(d, s2, []) && After(s2, []) == s2;
    assert Runs(d, s1, [Return[1]]) && After(s1, [Return[1]]) == s2;
  }

  lemma {:induction false} RunsOn(d: Discipline, s: State, a: seq<Step>, b: seq<Step>)
    requires Runs(d, s, a) && Runs(d, After(s, a), b)
    ensures Runs(d, s, a + b) && After(s, a + b) == After(After(s, a), b)
    decreases |a|
  {
    if a == [] {
      assert a + b == b;
    } else {
      assert (a + b)[1..] == a[1..] + b;
      RunsOn(d, Next(s, a[0]), a[1..], b);
    }
  }

  /** The node is revoked again while the report that read it online is still under way. */
  lemma RevokedAgain(d: Discipline)
    requires !d.freshNodes
    ensures Reachable(d, State(OneNode(Versioned(OnlineNode.(state := Revoked), 2)), {Stale}))
  {
    var s, read := State(OneNode(Versioned(OnlineNode, 2)), {}), ReadsNode(7, 2, Stale.report);
    var waiting := Next(s, read);
    assert waiting.writers == {Stale};
    assert [read][1..] == [] && Runs(d, waiting, []) && After(waiting, []) == State(s.db, {Stale});
    assert Runs(d, s, [read]) && After(s, [read]) == waiting;
    RemovalRuns(d);
    ReturnRuns(d);
    RunsOn(d, s, [read], Removal);
    RunsOn(d, s, [read] + Removal, Return);
  }

  /** The heartbeat then writes the state it read over the revoked row. */
  lemma StaleHeartbeatRevives(d: Discipline)
    requires !d.freshNodes
    ensures !RevokedUntilRemoval(d)
  {
    var s := State(OneNode(Versioned(OnlineNode.(state := Revoked), 2)), {Stale});
    RevokedAgain(d);
    WriteKeepsRevoked(s.db, Stale);
    assert Enabled(d, s, Writes(Stale)) && RevokedNode(s.db, Stale.id);
    assert !RevokedNode(Next(s, Writes(Stale)).db, Stale.id);
  }

  lemma RevokedExactlyWhenFresh(d: Discipline)
    ensures RevokedUntilRemoval(d) <==> d.freshNodes
  {
    if d.freshNodes {
      forall s, step, id | Reachable(d, s) && Enabled(d, s, step) && RevokedNode(s.db, id)
        ensures RevokedNode(Next(s, step).db, id) || (step.Transacts? && Removes(step.op, id))
      {
        RevokedWhenFresh(d, s, step, id);
      }
    } else {
      StaleHeartbeatRevives(d);
    }
  }
}
