/**
 Custody of binding credentials. The secret lives in the worker's own store, the row that names it in the controller's
 tables. An attempt to bind stages its secret first, under a reference of its own, and cleans up only what its row does
 not name; a deletion marks the row, has the worker erase the secret, or has an administrator acknowledge that a revoked
 or missing node cannot, and only then removes the row. Every call may fail, commit and then fail, or never return.
 */
module BindingCustody {
  import opened Prelude

  datatype Row = Row(secretRef: Id, nodeId: Id, pending: bool, revision: nat)

  /** An attempt is named by its secret reference, which is drawn afresh. */
  datatype Phase =
    | Drawn                      // before the secret is put
    | Staged                     // the secret is stored; the row is about to be inserted
    | Refused(existing: Option<Row>, matches: bool)
    | Failed                     // the insert raised an exception
    | Cleaning                   // about to erase its own secret
  datatype Attempt = Attempt(bindingId: Id, nodeId: Id, phase: Phase)

  datatype Flow =
    | Begun(bindingId: Id, expected: nat)
    | Confirmed(bindingId: Id, expected: nat)        // the worker erased the secret
    | Acknowledged(bindingId: Id, expected: nat)     // an administrator accepts the orphan

  /** Rows and secrets; what was removed, and which orphans were acknowledged. */
  datatype Store = Store(rows: map<Id, Row>, secrets: set<Id>, removed: map<Id, Row>, acknowledged: set<Id>)

  datatype World = World(
    store: Store,
    nodes: map<Id, bool>,                 // registered nodes; true when revoked
    attempts: map<Id, Attempt>, flows: map<Id, Flow>,
    drawn: set<Id>,                       // every reference ever drawn
    undecided: map<Id, Attempt>)          // inserts that raised but may still commit

  datatype Fault = Fine | CommittedThenFailed | NotCommitted

  datatype Step =
    | BindBegins(ref: Id, bindingId: Id, nodeId: Id)
    | Stages(ref: Id, fault: Fault)
    | Inserts(ref: Id, refused: bool, matches: bool, fault: Fault, undecided: bool)
    | CommitsLate(ref: Id)
    | Settles(ref: Id)                    // the branch after a refusal
    | Rereads(ref: Id, readable: bool)    // the branch after an exception
    | Cleans(ref: Id, fault: Fault)
    | AttemptDies(ref: Id)
    | DeletionBegins(flow: Id, bindingId: Id, lost: bool)
    | WorkerErases(flow: Id, fault: Fault)
    | OrphanAcknowledged(flow: Id)
    | Finalizes(flow: Id, lost: bool)
    | FlowDies(flow: Id)
    | BindingTouched(bindingId: Id)       // a validation writes the row under its revision
    | NodeRegistered(nodeId: Id)
    | NodeRevoked(nodeId: Id)
    | NodeRemoved(nodeId: Id)

  predicate NodeGone(nodes: map<Id, bool>, nodeId: Id) {
    nodeId in nodes ==> nodes[nodeId]
  }

  /** `decided`: when an insert raises, its outcome is final. A removed binding id is never bound again. */
  predicate Enabled(decided: bool, w: World, s: Step) {
    var rows := w.store.rows;
    match s
    case BindBegins(ref, _, _) => ref !in w.drawn
    case Stages(ref, _) => ref in w.attempts && w.attempts[ref].phase.Drawn?
    case Inserts(ref, _, _, fault, undecided) =>
      && ref in w.attempts && w.attempts[ref].phase.Staged? && w.attempts[ref].bindingId !in w.store.removed
      && (undecided ==> !decided && fault.NotCommitted?)
    case CommitsLate(ref) => ref in w.undecided && w.undecided[ref].bindingId !in w.store.removed
    case Settles(ref) => ref in w.attempts && w.attempts[ref].phase.Refused?
    case Rereads(ref, _) => ref in w.attempts && w.attempts[ref].phase.Failed?
    case Cleans(ref, _) => ref in w.attempts && w.attempts[ref].phase.Cleaning?
    case AttemptDies(ref) => ref in w.attempts
    case DeletionBegins(flow, id, _) => flow !in w.flows && id in rows
    case WorkerErases(flow, _) => flow in w.flows && w.flows[flow].Begun?
    case OrphanAcknowledged(flow) =>
      flow in w.flows && w.flows[flow].Begun? && w.flows[flow].bindingId in rows
        && NodeGone(w.nodes, rows[w.flows[flow].bindingId].nodeId)
    case Finalizes(flow, _) => flow in w.flows && !w.flows[flow].Begun?
    case FlowDies(flow) => flow in w.flows
    case BindingTouched(id) => id in rows && !rows[id].pending
    case NodeRegistered(id) => id !in w.nodes
    case NodeRevoked(id) => id in w.nodes
    case NodeRemoved(id) => id in w.nodes && w.nodes[id] && forall b :: b in rows ==> rows[b].nodeId != id
  }

  // ---------------------------------------------------------------- what the steps do to rows and secrets

  function Put(s: Store, ref: Id): Store {
    s.(secrets := s.secrets + {ref})
  }

  function Erased(s: Store, ref: Id): Store {
    s.(secrets := s.secrets - {ref})
  }

  /** The insert's own transaction: an existing row wins. */
  function Inserted(s: Store, ref: Id, a: Attempt): Store {
    if a.bindingId in s.rows then s else s.(rows := s.rows[a.bindingId := Row(ref, a.nodeId, false, 1)])
  }

  function Marked(row: Row): Row {
    if row.pending then row else row.(pending := true, revision := row.revision + 1)
  }

  function Bumped(rows: map<Id, Row>, nodeId: Id): map<Id, Row> {
    map b | b in rows :: if rows[b].nodeId == nodeId then rows[b].(revision := rows[b].revision + 1) else rows[b]
  }

  function Dropped(s: Store, id: Id): Store
    requires id in s.rows
  {
    s.(rows := s.rows - {id}, removed := s.removed[id := s.rows[id]])
  }

  function InPhase(w: World, ref: Id, phase: Phase): World
    requires ref in w.attempts
  {
    w.(attempts := w.attempts[ref := w.attempts[ref].(phase := phase)])
  }

  function AttemptEnds(w: World, ref: Id): World {
    w.(attempts := w.attempts - {ref})
  }

  function AfterAttemptStep(decided: bool, w: World, s: Step): World
    requires Enabled(decided, w, s) && OnAttempt(s)
  {
    match s
    case BindBegins(ref, id, node) => w.(drawn := w.drawn + {ref},
      attempts := w.attempts[ref := Attempt(id, node, Drawn)])
    case Stages(ref, fault) =>
      var stored := if fault.NotCommitted? then w else w.(store := Put(w.store, ref));
      if fault.Fine? then InPhase(stored, ref, Staged) else AttemptEnds(stored, ref)
    case Inserts(ref, refused, matches, fault, undecided) =>
      var a := w.attempts[ref];
      if fault.NotCommitted? then InPhase(w, ref, Failed).(undecided := if undecided then w.undecided[ref := a]
        else w.undecided)
      else if a.bindingId in w.store.rows || refused then
        InPhase(w, ref, if fault.Fine? then Refused(Get(w.store.rows, a.bindingId), matches) else Failed)
      else
        var inserted := w.(store := Inserted(w.store, ref, a));
        if fault.Fine? then AttemptEnds(inserted, ref) else InPhase(inserted, ref, Failed)
    case CommitsLate(ref) => w.(store := Inserted(w.store, ref, w.undecided[ref]), undecided := w.undecided - {ref})
    case Settles(ref) =>
      var p := w.attempts[ref].phase;
      if p.existing.Some? && !p.existing.value.pending && p.matches && p.existing.value.secretRef == ref
      then AttemptEnds(w, ref) else InPhase(w, ref, Cleaning)
    case Rereads(ref, readable) =>
      var current := Get(w.store.rows, w.attempts[ref].bindingId);
      if !readable || (current.Some? && !current.value.pending && current.value.secretRef == ref)
        then AttemptEnds(w, ref)
      else InPhase(w, ref, Cleaning)
    case Cleans(ref, fault) => AttemptEnds(if fault.NotCommitted? then w else w.(store := Erased(w.store, ref)), ref)
    case AttemptDies(ref) => AttemptEnds(w, ref)
  }

  function FlowEnds(w: World, flow: Id): World {
    w.(flows := w.flows - {flow})
  }

  function AfterDeletionStep(decided: bool, w: World, s: Step): World
    requires Enabled(decided, w, s) && !OnAttempt(s)
  {
    var rows := w.store.rows;
    match s
    case DeletionBegins(flow, id, lost) =>
      var marked := w.(store := w.store.(rows := rows[id := Marked(rows[id])]));
      if lost then marked else marked.(flows := w.flows[flow := Begun(id, Marked(rows[id]).revision)])
    case WorkerErases(flow, fault) =>
      var f := w.flows[flow];
      if f.bindingId !in rows || !rows[f.bindingId].pending || fault.NotCommitted? then FlowEnds(w, flow)
      else
        var erased := w.(store := Erased(w.store, rows[f.bindingId].secretRef));
        if fault.Fine? then erased.(flows := w.flows[flow := Confirmed(f.bindingId, f.expected)])
          else FlowEnds(erased, flow)
    case OrphanAcknowledged(flow) =>
      var f := w.flows[flow];
      w.(flows := w.flows[flow := Acknowledged(f.bindingId, f.expected)],
         store := w.store.(acknowledged := w.store.acknowledged + {f.bindingId}))
    case Finalizes(flow, lost) =>
      // one round: remove under the expected revision, else re-enter the idempotent begin
      var f := w.flows[flow];
      if f.bindingId !in rows then FlowEnds(w, flow)
      else if rows[f.bindingId].revision == f.expected && rows[f.bindingId].pending then
        var dropped := w.(store := Dropped(w.store, f.bindingId));
        if lost then dropped else FlowEnds(dropped, flow)
      else
        var row := Marked(rows[f.bindingId]);
        w.(store := w.store.(rows := rows[f.bindingId := row]), flows := w.flows[flow := f.(expected := row.revision)])
    case FlowDies(flow) => FlowEnds(w, flow)
    case BindingTouched(id) => w.(store := w.store.(rows := rows[id := rows[id].(revision := rows[id].revision + 1)]))
    case NodeRegistered(id) => w.(nodes := w.nodes[id := false])
    case NodeRevoked(id) => w.(nodes := w.nodes[id := true], store := w.store.(rows := Bumped(rows, id)))
    case NodeRemoved(id) => w.(nodes := w.nodes - {id})
  }

  predicate OnAttempt(s: Step) {
    s.BindBegins? || s.Stages? || s.Inserts? || s.CommitsLate? || s.Settles? || s.Rereads? || s.Cleans? ||
    s.AttemptDies?
  }

  function Next(decided: bool, w: World, s: Step): World
    requires Enabled(decided, w, s)
  {
    if OnAttempt(s) then AfterAttemptStep(decided, w, s) else AfterDeletionStep(decided, w, s)
  }

  // ---------------------------------------------------------------- the invariant

  /** Every binding that is not being deleted has its secret. */
  ghost predicate CustodyHolds(s: Store) {
    forall b :: b in s.rows && !s.rows[b].pending ==> s.rows[b].secretRef in s.secrets
  }

  /** A removed binding's secret is erased, or its orphan was acknowledged. */
  ghost predicate RemovalsJustified(s: Store) {
    forall b :: b in s.removed ==> b !in s.rows && (s.removed[b].secretRef !in s.secrets || b in s.acknowledged)
  }

  ghost predicate StoreSound(s: Store) {
    && CustodyHolds(s) && RemovalsJustified(s)
    && forall b, c :: b in s.rows && c in s.rows && s.rows[b].secretRef == s.rows[c].secretRef ==> b == c
  }

  ghost predicate Unnamed(s: Store, ref: Id) {
    && (forall b :: b in s.rows ==> s.rows[b].secretRef != ref)
    && (forall b :: b in s.removed ==> s.removed[b].secretRef != ref)
  }

  ghost predicate AttemptSound(s: Store, ref: Id, a: Attempt) {
    match a.phase
    case Drawn => Unnamed(s, ref)
    case Staged => Unnamed(s, ref) && ref in s.secrets
    case Refused(_, _) => Unnamed(s, ref)
    case Cleaning => forall b :: b in s.rows && s.rows[b].secretRef == ref ==> s.rows[b].pending
    case Failed => forall b :: b in s.rows && s.rows[b].secretRef == ref ==> b == a.bindingId
  }

  predicate FlowSound(s: Store, f: Flow) {
    && (!f.Acknowledged? && f.bindingId in s.rows ==> s.rows[f.bindingId].pending)
    && (f.Confirmed? && f.bindingId in s.rows ==> s.rows[f.bindingId].secretRef !in s.secrets)
    && (f.Acknowledged? ==> f.bindingId in s.acknowledged)
    && (f.bindingId in s.rows || f.bindingId in s.removed)
  }

  ghost predicate RowsDrawn(s: Store, drawn: set<Id>) {
    && (forall b :: b in s.rows ==> s.rows[b].secretRef in drawn)
    && (forall b :: b in s.removed ==> s.removed[b].secretRef in drawn)
  }

  ghost predicate AllDrawn(w: World) {
    RowsDrawn(w.store, w.drawn) && forall r :: r in w.attempts ==> r in w.drawn
  }

  ghost predicate Inv(w: World) {
    && StoreSound(w.store) && AllDrawn(w) && w.undecided == map[]
    && (forall r :: r in w.attempts ==> AttemptSound(w.store, r, w.attempts[r]))
    && (forall f :: f in w.flows ==> FlowSound(w.store, w.flows[f]))
  }

  /** What a change of the store leaves intact: every flow, and every attempt except possibly `but`. */
  ghost predicate Leaves(before: Store, after: Store, but: Option<Id>) {
    && StoreSound(after)
    && (forall r: Id, a: Attempt :: but != Some(r) && AttemptSound(before, r, a) ==> AttemptSound(after, r, a))
    && (forall f: Flow :: FlowSound(before, f) ==> FlowSound(after, f))
  }

  lemma PutLeaves(s: Store, ref: Id)
    requires StoreSound(s) && Unnamed(s, ref)
    ensures Leaves(s, Put(s, ref), None)
  {
  }

  lemma EraseLeaves(s: Store, ref: Id)
    requires StoreSound(s) && forall b :: b in s.rows && s.rows[b].secretRef == ref ==> s.rows[b].pending
    ensures Leaves(s, Erased(s, ref), Some(ref))
    ensures forall a: Attempt :: !a.phase.Staged? && AttemptSound(s, ref, a) ==> AttemptSound(Erased(s, ref), ref, a)
  {
  }

  lemma InsertLeaves(s: Store, ref: Id, a: Attempt)
    requires StoreSound(s) && Unnamed(s, ref) && ref in s.secrets && a.bindingId !in s.removed
    ensures Leaves(s, Inserted(s, ref, a), Some(ref))
    ensures AttemptSound(Inserted(s, ref, a), ref, a.(phase := Failed))
  {
  }

  /** Marking and revision bumps. */
  ghost predicate Remarked(before: map<Id, Row>, after: map<Id, Row>) {
    && before.Keys == after.Keys
    && forall b :: b in before ==>
      after[b].secretRef == before[b].secretRef && after[b].nodeId == before[b].nodeId
        && (before[b].pending ==> after[b].pending)
  }

  lemma RemarkLeaves(s: Store, rows: map<Id, Row>)
    requires StoreSound(s) && Remarked(s.rows, rows)
    ensures Leaves(s, s.(rows := rows), None)
  {
  }

  lemma DropLeaves(s: Store, id: Id)
    requires StoreSound(s) && id in s.rows && (s.rows[id].secretRef !in s.secrets || id in s.acknowledged)
    ensures Leaves(s, Dropped(s, id), None)
  {
  }

  lemma AcknowledgeLeaves(s: Store, id: Id)
    requires StoreSound(s)
    ensures Leaves(s, s.(acknowledged := s.acknowledged + {id}), None)
  {
  }

  /** One attempt moves on or ends, and the store changes soundly for everything else. */
  function AttemptMoves(w: World, store: Store, ref: Id, phase: Option<Phase>): World
    requires ref in w.attempts
  {
    w.(store := store,
       attempts :=
         if phase.Some? then w.attempts[ref := w.attempts[ref].(phase := phase.value)] else w.attempts - {ref})
  }

  lemma AttemptMovesKeepInv(w: World, store: Store, ref: Id, phase: Option<Phase>)
    requires Inv(w) && ref in w.attempts && Leaves(w.store, store, Some(ref)) && RowsDrawn(store, w.drawn)
    requires phase.Some? ==> AttemptSound(store, ref, w.attempts[ref].(phase := phase.value))
    ensures Inv(AttemptMoves(w, store, ref, phase))
  {
  }

  /** One deletion moves on, begins or ends, and the store changes soundly. */
  function FlowMoves(w: World, store: Store, flow: Id, f: Option<Flow>): World {
    w.(store := store, flows := if f.Some? then w.flows[flow := f.value] else w.flows - {flow})
  }

  lemma FlowMovesKeepInv(w: World, store: Store, flow: Id, f: Option<Flow>)
    requires Inv(w) && Leaves(w.store, store, None) && RowsDrawn(store, w.drawn)
    requires f.Some? ==> FlowSound(store, f.value)
    ensures Inv(FlowMoves(w, store, flow, f))
  {
  }

  lemma StandingStill(s: Store)
    requires StoreSound(s)
    ensures Leaves(s, s, None)
  {
  }

  lemma InsertKeepsInv(w: World, s: Step)
    requires Inv(w) && Enabled(true, w, s) && s.Inserts?
    ensures Inv(Next(true, w, s))
  {
    var ref, a := s.ref, w.attempts[s.ref];
    assert AttemptSound(w.store, ref, a);
    if s.fault.NotCommitted? || a.bindingId in w.store.rows || s.refused {
      var phase := if s.fault.Fine? then Refused(Get(w.store.rows, a.bindingId), s.matches) else Failed;
      StandingStill(w.store);
      AttemptMovesKeepInv(w, w.store, ref, Some(phase));
      assert Next(true, w, s) == AttemptMoves(w, w.store, ref, Some(phase));
    } else {
      var phase := if s.fault.Fine? then None else Some(Failed);
      InsertLeaves(w.store, ref, a);
      AttemptMovesKeepInv(w, Inserted(w.store, ref, a), ref, phase);
      assert Next(true, w, s) == AttemptMoves(w, Inserted(w.store, ref, a), ref, phase);
    }
  }

  lemma StageKeepsInv(w: World, s: Step)
    requires Inv(w) && Enabled(true, w, s) && s.Stages?
    ensures Inv(Next(true, w, s))
  {
    assert AttemptSound(w.store, s.ref, w.attempts[s.ref]);
    var store := if s.fault.NotCommitted? then w.store else Put(w.store, s.ref);
    var phase := if s.fault.Fine? then Some(Staged) else None;
    StandingStill(w.store);
    PutLeaves(w.store, s.ref);
    AttemptMovesKeepInv(w, store, s.ref, phase);
    assert Next(true, w, s) == AttemptMoves(w, store, s.ref, phase);
  }

  lemma CleanKeepsInv(w: World, s: Step)
    requires Inv(w) && Enabled(true, w, s) && s.Cleans?
    ensures Inv(Next(true, w, s))
  {
    assert AttemptSound(w.store, s.ref, w.attempts[s.ref]);
    var store := if s.fault.NotCommitted? then w.store else Erased(w.store, s.ref);
    StandingStill(w.store);
    EraseLeaves(w.store, s.ref);
    AttemptMovesKeepInv(w, store, s.ref, None);
    assert Next(true, w, s) == AttemptMoves(w, store, s.ref, None);
  }

  lemma SettlementKeepsInv(w: World, s: Step)
    requires Inv(w) && Enabled(true, w, s) && (s.Settles? || s.Rereads?)
    ensures Inv(Next(true, w, s))
  {
    assert AttemptSound(w.store, s.ref, w.attempts[s.ref]);
    var phase := if s.ref in Next(true, w, s).attempts then Some(Cleaning) else None;
    StandingStill(w.store);
    AttemptMovesKeepInv(w, w.store, s.ref, phase);
    assert Next(true, w, s) == AttemptMoves(w, w.store, s.ref, phase);
  }

  lemma QuietKeepsInv(w: World, s: Step)
    requires Inv(w) && Enabled(true, w, s)
    requires s.BindBegins? || s.AttemptDies? || s.FlowDies? || s.NodeRegistered? || s.NodeRemoved?
    ensures Inv(Next(true, w, s))
  {
    assert Next(true, w, s).store == w.store;
  }

  lemma ErasedForFlow(w: World, id: Id)
    requires Inv(w) && id in w.store.rows && w.store.rows[id].pending
    ensures
      var erased := Erased(w.store, w.store.rows[id].secretRef);
      && StoreSound(erased) && (forall r :: r in w.attempts ==> AttemptSound(erased, r, w.attempts[r]))
      && (forall f: Flow :: FlowSound(w.store, f) ==> FlowSound(erased, f))
  {
    var ref := w.store.rows[id].secretRef;
    EraseLeaves(w.store, ref);
    if ref in w.attempts {
      assert AttemptSound(w.store, ref, w.attempts[ref]);
    }
  }

  lemma EraseKeepsInv(w: World, s: Step)
    requires Inv(w) && Enabled(true, w, s) && s.WorkerErases?
    ensures Inv(Next(true, w, s))
  {
    var f := w.flows[s.flow];
    assert FlowSound(w.store, f);
    if f.bindingId !in w.store.rows || !w.store.rows[f.bindingId].pending || s.fault.NotCommitted? {
      StandingStill(w.store);
      FlowMovesKeepInv(w, w.store, s.flow, None);
      assert Next(true, w, s) == FlowMoves(w, w.store, s.flow, None);
    } else {
      var erased := Erased(w.store, w.store.rows[f.bindingId].secretRef);
      var moved := if s.fault.Fine? then Some(Confirmed(f.bindingId, f.expected)) else None;
      ErasedForFlow(w, f.bindingId);
      assert RowsDrawn(erased, w.drawn);
      assert Next(true, w, s) == FlowMoves(w, erased, s.flow, moved);
    }
  }

  lemma AcknowledgementKeepsInv(w: World, s: Step)
    requires Inv(w) && Enabled(true, w, s) && s.OrphanAcknowledged?
    ensures Inv(Next(true, w, s))
  {
    var f := w.flows[s.flow];
    var store := w.store.(acknowledged := w.store.acknowledged + {f.bindingId});
    assert FlowSound(w.store, f);
    AcknowledgeLeaves(w.store, f.bindingId);
    FlowMovesKeepInv(w, store, s.flow, Some(Acknowledged(f.bindingId, f.expected)));
    assert Next(true, w, s) == FlowMoves(w, store, s.flow, Some(Acknowledged(f.bindingId, f.expected)));
  }

  lemma MarkedRow(w: World, id: Id)
    requires Inv(w) && id in w.store.rows
    ensures var store := w.store.(rows := w.store.rows[id := Marked(w.store.rows[id])]);
            Leaves(w.store, store, None) && RowsDrawn(store, w.drawn)
  {
    RemarkLeaves(w.store, w.store.rows[id := Marked(w.store.rows[id])]);
  }

  lemma FinalizeKeepsInv(w: World, s: Step)
    requires Inv(w) && Enabled(true, w, s) && s.Finalizes?
    ensures Inv(Next(true, w, s))
  {
    var f, rows := w.flows[s.flow], w.store.rows;
    assert FlowSound(w.store, f);
    if f.bindingId !in rows {
      StandingStill(w.store);
      FlowMovesKeepInv(w, w.store, s.flow, None);
      assert Next(true, w, s) == FlowMoves(w, w.store, s.flow, None);
    } else if rows[f.bindingId].revision == f.expected && rows[f.bindingId].pending {
      var dropped, left := Dropped(w.store, f.bindingId), if s.lost then Some(f) else None;
      DropLeaves(w.store, f.bindingId);
      FlowMovesKeepInv(w, dropped, s.flow, left);
      assert w.flows[s.flow := f] == w.flows;
      assert Next(true, w, s) == FlowMoves(w, dropped, s.flow, left);
    } else {
      var row := Marked(rows[f.bindingId]);
      var store := w.store.(rows := rows[f.bindingId := row]);
      MarkedRow(w, f.bindingId);
      FlowMovesKeepInv(w, store, s.flow, Some(f.(expected := row.revision)));
      assert Next(true, w, s) == FlowMoves(w, store, s.flow, Some(f.(expected := row.revision)));
    }
  }

  lemma MarkKeepsInv(w: World, s: Step)
    requires Inv(w) && Enabled(true, w, s) && s.DeletionBegins?
    ensures Inv(Next(true, w, s))
  {
    var row := Marked(w.store.rows[s.bindingId]);
    var store := w.store.(rows := w.store.rows[s.bindingId := row]);
    var begun := if s.lost then None else Some(Begun(s.bindingId, row.revision));
    MarkedRow(w, s.bindingId);
    FlowMovesKeepInv(w, store, s.flow, begun);
    assert w.flows - {s.flow} == w.flows;
    assert Next(true, w, s) == FlowMoves(w, store, s.flow, begun);
  }

  lemma BumpKeepsInv(w: World, s: Step)
    requires Inv(w) && Enabled(true, w, s) && (s.BindingTouched? || s.NodeRevoked?)
    ensures Inv(Next(true, w, s))
  {
    RemarkLeaves(w.store, Next(true, w, s).store.rows);
    assert RowsDrawn(Next(true, w, s).store, w.drawn);
  }

  lemma StepKeepsInv(w: World, s: Step)
    requires Inv(w) && Enabled(true, w, s)
    ensures Inv(Next(true, w, s))
  {
    match s
    case Inserts(_, _, _, _, _) => InsertKeepsInv(w, s);
    case Stages(_, _) => StageKeepsInv(w, s);
    case Cleans(_, _) => CleanKeepsInv(w, s);
    case Settles(_) => SettlementKeepsInv(w, s);
    case Rereads(_, _) => SettlementKeepsInv(w, s);
    case WorkerErases(_, _) => EraseKeepsInv(w, s);
    case Finalizes(_, _) => FinalizeKeepsInv(w, s);
    case OrphanAcknowledged(_) => AcknowledgementKeepsInv(w, s);
    case DeletionBegins(_, _, _) => MarkKeepsInv(w, s);
    case BindingTouched(_) => BumpKeepsInv(w, s);
    case NodeRevoked(_) => BumpKeepsInv(w, s);
    case CommitsLate(_) =>
    case _ => QuietKeepsInv(w, s);
  }

  // ---------------------------------------------------------------- runs

  const Initial := World(Store(map[], {}, map[], {}), map[], map[], map[], {}, map[])

  ghost predicate Runs(decided: bool, w: World, steps: seq<Step>)
    decreases |steps|
  {
    steps == [] || (Enabled(decided, w, steps[0]) && Runs(decided, Next(decided, w, steps[0]), steps[1..]))
  }

  function After(decided: bool, w: World, steps: seq<Step>): World
    requires Runs(decided, w, steps)
    decreases |steps|
  {
    if steps == [] then w else After(decided, Next(decided, w, steps[0]), steps[1..])
  }

  lemma {:induction false} RunKeepsInv(w: World, steps: seq<Step>)
    requires Inv(w) && Runs(true, w, steps)
    ensures Inv(After(true, w, steps))
    decreases |steps|
  {
    if steps != [] {
      StepKeepsInv(w, steps[0]);
      RunKeepsInv(Next(true, w, steps[0]), steps[1..]);
    }
  }

  ghost predicate CustodyAlways(decided: bool) {
    forall steps: seq<Step> :: Runs(decided, Initial, steps) ==> CustodyHolds(After(decided, Initial, steps).store)
  }

  /** A binding row goes only once its secret is erased, or once the orphan on a revoked or missing node was
      acknowledged. */
  lemma RemovalOnlyAfterCleanup(steps: seq<Step>)
    requires Runs(true, Initial, steps)
    ensures CustodyHolds(After(true, Initial, steps).store) && RemovalsJustified(After(true, Initial, steps).store)
  {
    RunKeepsInv(Initial, steps);
  }

  lemma AttemptsAcknowledgeNothing(w: World, s: Step)
    requires Enabled(true, w, s) && OnAttempt(s)
    ensures Next(true, w, s).store.acknowledged == w.store.acknowledged
  {
  }

  /** Only the administrator's step acknowledges, and it needs the node revoked or missing. */
  lemma AcknowledgedOnlyForGoneNodes(w: World, s: Step)
    requires Enabled(true, w, s)
    ensures Next(true, w, s).store.acknowledged != w.store.acknowledged ==>
      && s.OrphanAcknowledged?
      && var id := w.flows[s.flow].bindingId;
         id in w.store.rows && NodeGone(w.nodes, w.store.rows[id].nodeId)
           && Next(true, w, s).store.acknowledged == w.store.acknowledged + {id}
  {
    if OnAttempt(s) {
      AttemptsAcknowledgeNothing(w, s);
    }
  }

  // ---------------------------------------------------------------- exactly when

  /** The insert raises before its commit lands: the cleanup finds no row, erases the secret, and the row appears
      after. */
  function LateCommit(): seq<Step> {
    [BindBegins(1, 5, 9), Stages(1, Fine), Inserts(1, false, false, NotCommitted, true), Rereads(1, true),
      Cleans(1, Fine), CommitsLate(1)]
  }

  lemma Unrolled(w: World, s: Step, rest: seq<Step>)
    requires Enabled(false, w, s) && Runs(false, Next(false, w, s), rest)
    ensures Runs(false, w, [s] + rest) && After(false, w, [s] + rest) == After(false, Next(false, w, s), rest)
  {
    assert ([s] + rest)[1..] == rest;
  }

  /** From the exception on: nothing found, the secret erased, and the commit landing last. */
  lemma ErasedTooEarly(w3: World)
    requires w3 == World(Store(map[], {1}, map[], {}), map[], map[1 := Attempt(5, 9, Failed)], map[], {1},
        map[1 := Attempt(5, 9, Staged)])
    ensures Runs(false, w3, LateCommit()[3..]) && !CustodyHolds(After(false, w3, LateCommit()[3..]).store)
  {
    var s := LateCommit();
    var w4 := Next(false, w3, s[3]);
    var w5 := Next(false, w4, s[4]);
    var w6 := Next(false, w5, s[5]);
    assert w6.store.rows == map[5 := Row(1, 9, false, 1)] && w6.store.secrets == {};
    Unrolled(w5, s[5], []);
    Unrolled(w4, s[4], [s[5]]);
    Unrolled(w3, s[3], [s[4]] + [s[5]]);
    assert s[3..] == [s[3]] + ([s[4]] + [s[5]]);
  }

  lemma LateCommitLosesSecret()
    ensures Runs(false, Initial, LateCommit()) && !CustodyHolds(After(false, Initial, LateCommit()).store)
  {
    var s := LateCommit();
    var w1 := Next(false, Initial, s[0]);
    var w2 := Next(false, w1, s[1]);
    var w3 := Next(false, w2, s[2]);
    ErasedTooEarly(w3);
    Unrolled(w2, s[2], s[3..]);
    Unrolled(w1, s[1], [s[2]] + s[3..]);
    Unrolled(Initial, s[0], [s[1]] + ([s[2]] + s[3..]));
    assert s == [s[0]] + ([s[1]] + ([s[2]] + s[3..]));
  }

  /** Every live binding keeps its secret if and only if an exception is raised only once the commit is decided. */
  lemma CustodyExactlyWhenDecided(decided: bool)
    ensures CustodyAlways(decided) <==> decided
  {
    if decided {
      forall steps: seq<Step> | Runs(true, Initial, steps)
        ensures CustodyHolds(After(true, Initial, steps).store)
      {
        RunKeepsInv(Initial, steps);
      }
    } else {
      LateCommitLosesSecret();
    }
  }
}
