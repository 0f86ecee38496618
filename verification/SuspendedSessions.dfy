/**
 What suspended session writes mean for the references between tables and for a provider marked for deletion. Both are
 kept over all runs exactly when no session is created under an identifier that a suspended writer still holds. The
 service draws session identifiers at random; the repository itself does not see to it.
 */
module SuspendedSessions {
  import opened Prelude
  import opened Repository
  import opened RepositoryIntegrity
  import opened SuspendedWriters

  // ---------------------------------------------------------------- references

  /** The step writes no owner unchecked, or a known one. */
  predicate OwnerWrittenBy(s: State, step: Step) {
    match step
    case Transacts(op) => OwnerWritten(s.db, op)
    case Writes(w) => w.SessionWriter? ==> OwnerWritten(s.db, AsTransaction(w))
    case _ => true
  }

  /** A suspended report changes documents of nodes that are there. */
  lemma ReportKeepsReferences(db: Db, w: Writer)
    requires w.NodeWriter? && Referential(db)
    ensures Referential(Put(db, w))
  {
    assert Put(db, w) == db.(nodes := Put(db, w).nodes);
    assert forall id :: id in db.nodes ==> id in Put(db, w).nodes;
  }

  lemma StepKeepsReferencesExactly(d: Discipline, s: State, step: Step)
    requires d.freshSessions && Inv(d, s) && Enabled(d, s, step) && Referential(s.db)
    ensures Referential(Next(s, step).db) <==> OwnerWrittenBy(s, step)
  {
    match step
    case Transacts(op) => StepKeepsReferences(s.db, op);
    case ReadsNode(_, _, _) =>
    case ReadsSession(_, _, _) =>
    case Writes(w) =>
      if w.NodeWriter? {
        ReportKeepsReferences(s.db, w);
      } else {
        SessionWriteIsTransaction(s.db, w);
        StepKeepsReferences(s.db, AsTransaction(w));
      }
  }

  ghost predicate HoldThroughout(s: State, steps: seq<Step>)
    decreases |steps|
  {
    Referential(s.db) && (steps != [] ==> HoldThroughout(Next(s, steps[0]), steps[1..]))
  }

  predicate OwnersWritten(s: State, steps: seq<Step>)
    decreases |steps|
  {
    steps == [] || (OwnerWrittenBy(s, steps[0]) && OwnersWritten(Next(s, steps[0]), steps[1..]))
  }

  /** With fresh session identifiers, references hold after every step if and only if each unchecked owner was known. */
  lemma {:induction false} HoldThroughoutExactly(d: Discipline, s: State, steps: seq<Step>)
    requires d.freshSessions && Inv(d, s) && Runs(d, s, steps) && Referential(s.db)
    ensures HoldThroughout(s, steps) <==> OwnersWritten(s, steps)
    decreases |steps|
  {
    if steps != [] {
      var next := Next(s, steps[0]);
      StepKeepsInv(d, s, steps[0]);
      StepKeepsReferencesExactly(d, s, steps[0]);
      if Referential(next.db) {
        HoldThroughoutExactly(d, next, steps[1..]);
      }
    }
  }

  /** Callers that keep owners: also a suspended writer writes the owner of the session it read. */
  predicate KeepsOwnerBy(s: State, step: Step) {
    match step
    case Transacts(op) => KeepsOwner(s.db, op)
    case ReadsSession(id, expected, session) => KeepsOwner(s.db, OnSession(SetsSession(id, session, expected)))
    case _ => true
  }

  predicate OwnersKept(s: State, steps: seq<Step>)
    decreases |steps|
  {
    steps == [] || (KeepsOwnerBy(s, steps[0]) && OwnersKept(Next(s, steps[0]), steps[1..]))
  }

  predicate WritersKeepOwners(s: State) {
    forall w :: w in s.writers && w.SessionWriter? ==> w.session.ownerId == w.readSession.ownerId
  }

  lemma {:induction false} RunKeepsReferences(d: Discipline, s: State, steps: seq<Step>)
    requires d.freshSessions && Inv(d, s) && WritersKeepOwners(s) && Referential(s.db)
    requires Runs(d, s, steps) && OwnersKept(s, steps)
    ensures Referential(After(s, steps).db)
    decreases |steps|
  {
    if steps != [] {
      var step := steps[0];
      StepKeepsInv(d, s, step);
      StepKeepsReferencesExactly(d, s, step);
      if step.Transacts? {
        KeptOwnerIsKnown(s.db, step.op);
      } else if step.Writes? && step.writer.SessionWriter? {
        KeptOwnerIsKnown(s.db, AsTransaction(step.writer));
      }
      RunKeepsReferences(d, Next(s, step), steps[1..]);
    }
  }

  /** In no run by callers that keep owners does a reference dangle. */
  ghost predicate NeverDangles(d: Discipline) {
    forall db, steps :: Referential(db) && Runs(d, State(db, {}), steps) && OwnersKept(State(db, {}), steps) ==>
      Referential(After(State(db, {}), steps).db)
  }

  // ---------------------------------------------------------------- a provider marked for deletion

  predicate VodSourceOnly(step: Step) {
    step.Transacts? ==> SourceOnlyForVod(step.op)
  }

  predicate FinalizesBy(s: State, step: Step, id: Id) {
    step.Transacts? && Finalizes(s.db, step.op, id)
  }

  /** What one step does to a provider that is marked and without dependents. */
  ghost predicate StillWaits(s: State, step: Step, id: Id) {
    var db := Next(s, step).db;
    if FinalizesBy(s, step, id) then id !in db.providers
    else PendingWithoutDependents(db, id) && Get(db.providers, id) == Get(s.db.providers, id)
  }

  /** It keeps its row, gains no dependent, and goes only by its own finalization. */
  ghost predicate ProvidersWait(d: Discipline) {
    forall s, step, id ::
      Reachable(d, s) && Enabled(d, s, step) && VodSourceOnly(step) && PendingWithoutDependents(s.db, id) ==>
        StillWaits(s, step, id)
  }

  lemma WaitsWhenFresh(d: Discipline, s: State, step: Step, id: Id)
    requires d.freshSessions && Reachable(d, s) && Enabled(d, s, step) && VodSourceOnly(step)
    requires PendingWithoutDependents(s.db, id)
    ensures StillWaits(s, step, id)
  {
    ReachableInv(d, s);
    match step
    case Transacts(op) => PendingProviderWaits(s.db, op, id);
    case ReadsNode(_, _, _) =>
    case ReadsSession(_, _, _) =>
    case Writes(w) =>
      if w.NodeWriter? {
        assert Put(s.db, w) == s.db.(nodes := Put(s.db, w).nodes);
      } else {
        SessionWriteIsTransaction(s.db, w);
        PendingProviderWaits(s.db, AsTransaction(w), id);
      }
  }

  // ---------------------------------------------------------------- exactly when

  function Recording(provider: Id): Session {
    Session(Vod, Some(MediaSource(provider, 0, 0, 0, 0, 0)), None, 0, 0, None, 0, None, false, 0, false, None)
  }

  const Held := SessionWriter(7, 1, Recording(1), Recording(1))
  const Library := ProviderRow(Provider(0, 0, false, 0, 0), 1, false)
  const Playing := State(EmptyDb.(providers := map[1 := Library, 2 := Library],
                                  sessions := map[7 := Versioned(Recording(1), 1)]), {})

  /** A run by callers that keep owners, and where it ends. */
  predicate Reaches(d: Discipline, s: State, steps: seq<Step>, end: State) {
    Runs(d, s, steps) && OwnersKept(s, steps) && After(s, steps) == end
  }

  lemma ReachesBefore(d: Discipline, s: State, step: Step, rest: seq<Step>, end: State)
    requires Enabled(d, s, step) && KeepsOwnerBy(s, step) && Reaches(d, Next(s, step), rest, end)
    ensures Reaches(d, s, [step] + rest, end)
  {
    assert ([step] + rest)[1..] == rest;
  }

  function Deleted(): State {
    State(Playing.db.(sessions := map[]), {Held})
  }

  function Recreated(): State {
    State(Playing.db.(sessions := map[7 := Versioned(Recording(2), 1)], grants := map[3 := Grant(7, None)]), {Held})
  }

  function Reused(): State {
    Recreated().(db := Recreated().db.(providers :=
      map[1 := Library.(revision := 2, deletionPending := true), 2 := Library]))
  }

  /** Session 7 is read, deleted and created again over another provider, and the first provider is marked. */
  const Creation := Transacts(OnSession(CreatesSession(7, Recording(2), 3, Grant(7, None), None)))
  const Marking := Transacts(OnCatalog(BeginsProviderDeletion(1)))
  const Reuse := [ReadsSession(7, 1, Recording(1))] + ([Transacts(OnSession(DeletesSession(7, 0)))]
                 + ([Creation] + ([Marking] + [])))

  lemma ReadAndDeleted(d: Discipline)
    ensures Reaches(d, Playing, Reuse, Reused()) <== Reaches(d, Deleted(), [Creation] + ([Marking] + []), Reused())
  {
    var read := ReadsSession(7, 1, Recording(1));
    var delete := Transacts(OnSession(DeletesSession(7, 0)));
    assert Next(Playing, read).writers == {Held};
    assert Next(Next(Playing, read), delete).db.grants == map[];
    assert Next(Next(Playing, read), delete) == Deleted();
    if Reaches(d, Deleted(), [Creation] + ([Marking] + []), Reused()) {
      ReachesBefore(d, Next(Playing, read), delete, [Creation] + ([Marking] + []), Reused());
      ReachesBefore(d, Playing, read, [delete] + ([Creation] + ([Marking] + [])), Reused());
    }
  }

  /** Every caller keeps the owner. */
  lemma ReuseRuns(d: Discipline)
    requires !d.freshSessions
    ensures Reaches(d, Playing, Reuse, Reused())
  {
    assert Next(Deleted(), Creation) == Recreated();
    assert !HasDependents(Recreated().db, 1);
    assert Next(Recreated(), Marking) == Reused();
    ReachesBefore(d, Recreated(), Marking, [], Reused());
    ReachesBefore(d, Deleted(), Creation, [Marking] + [], Reused());
    ReadAndDeleted(d);
  }

  /** The suspended write then puts the first provider back. */
  lemma WriteAfterReuse()
    ensures var db := Next(Reused(), Writes(Held)).db; !Referential(db) && HasDependents(db, 1)
  {
    var db := Next(Reused(), Writes(Held)).db;
    assert 7 in db.sessions && db.sessions[7].value == Recording(1) && UsesProvider(db.sessions[7].value, 1);
  }

  lemma {:induction false} ReachesOn(d: Discipline, s: State, steps: seq<Step>, end: State, step: Step)
    requires Reaches(d, s, steps, end) && Enabled(d, end, step) && KeepsOwnerBy(end, step)
    ensures Reaches(d, s, steps + [step], Next(end, step))
    decreases |steps|
  {
    if steps == [] {
      assert steps + [step] == [step] && [step][1..] == [];
    } else {
      assert (steps + [step])[1..] == steps[1..] + [step];
      ReachesOn(d, Next(s, steps[0]), steps[1..], end, step);
    }
  }

  lemma PlayingIsSound()
    ensures Referential(Playing.db) && Playing == State(Playing.db, {})
  {
  }

  lemma ReusedSessionDangles(d: Discipline)
    requires !d.freshSessions
    ensures !NeverDangles(d)
  {
    ReuseRuns(d);
    ReachesOn(d, Playing, Reuse, Reused(), Writes(Held));
    PlayingIsSound();
    WriteAfterReuse();
    var steps := Reuse + [Writes(Held)];
    assert Runs(d, State(Playing.db, {}), steps) && !Referential(After(State(Playing.db, {}), steps).db);
  }

  lemma ReusedSessionBringsDependent(d: Discipline)
    requires !d.freshSessions
    ensures !ProvidersWait(d)
  {
    assert Reachable(d, Reused()) by {
      ReuseRuns(d);
      PlayingIsSound();
    }
    assert PendingWithoutDependents(Reused().db, 1);
    WriteAfterReuse();
    assert Enabled(d, Reused(), Writes(Held)) && !StillWaits(Reused(), Writes(Held), 1);
  }

  /** References hold over all runs exactly when no session is created under an identifier a suspended writer holds. */
  lemma ReferencesHoldExactlyWhenFresh(d: Discipline)
    ensures NeverDangles(d) <==> d.freshSessions
  {
    if d.freshSessions {
      forall db, steps | Referential(db) && Runs(d, State(db, {}), steps) && OwnersKept(State(db, {}), steps)
        ensures Referential(After(State(db, {}), steps).db)
      {
        RunKeepsReferences(d, State(db, {}), steps);
      }
    } else {
      ReusedSessionDangles(d);
    }
  }

  /** So does a marked provider wait undisturbed. */
  lemma ProvidersWaitExactlyWhenFresh(d: Discipline)
    ensures ProvidersWait(d) <==> d.freshSessions
  {
    if d.freshSessions {
      forall s, step, id |
        Reachable(d, s) && Enabled(d, s, step) && VodSourceOnly(step) && PendingWithoutDependents(s.db, id)
        ensures StillWaits(s, step, id)
      {
        WaitsWhenFresh(d, s, step, id);
      }
    } else {
      ReusedSessionBringsDependent(d);
    }
  }
}
