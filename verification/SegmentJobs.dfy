/**
 Segment jobs. A job is one document that many processes change through compare-and-set retry loops: each loop
 reads the document, computes a replacement, and writes it if the revision and the state still allow it. Here every
 accepted replacement is named by the update it stands for, so that what the loops did is a sequence of updates.
 */
module SegmentJobs {
  import opened Prelude

  datatype JobState = Queued | Leased | Running | Complete | Failed | Cancelled
  datatype AttemptState = InProgress | Succeeded | Unsuccessful | Aborted
  datatype Attempt = Attempt(number: nat, nodeId: Id, state: AttemptState)
  datatype Job = Job(
    state: JobState, attempts: nat, history: seq<Attempt>,
    owner: Option<Id>, leaseExpiresAt: Option<Millis>, completedAt: Option<Millis>, error: Option<Id>)

  /** The loops of the coordinator, by what they want to write. */
  datatype Update =
    | Create(initial: Job)
    | Start(owner: Option<Id>, leaseExpiresAt: Millis)
    | Renew(leaseExpiresAt: Millis)
    | BeginAttempt(number: nat, nodeId: Id)
    | EndAttempt(outcome: AttemptState)
    | Finish(completedAt: Millis)
    | Fail(error: Id)
    | Cancel
    | Recover
    | Retry

  function FinishLatestAttempt(job: Job, outcome: AttemptState): Job {
    var n := |job.history|;
    if n > 0 && job.history[n - 1].state.InProgress?
    then job.(history := job.history[n - 1 := job.history[n - 1].(state := outcome)])
    else job
  }

  function Write(u: Update, job: Job): Job {
    match u
    case Create(initial) => initial
    case Start(owner, lease) => Job(Running, job.attempts, job.history, owner, Some(lease), None, None)
    case Renew(lease) => job.(leaseExpiresAt := Some(lease))
    case BeginAttempt(number, node) =>
      job.(owner := Some(node), attempts := number, history := job.history + [Attempt(number, node, InProgress)])
    case EndAttempt(outcome) => FinishLatestAttempt(job, outcome)
    case Finish(at) => FinishLatestAttempt(job, Succeeded).(state := Complete, leaseExpiresAt := None,
      completedAt := Some(at))
    case Fail(error) => FinishLatestAttempt(job, Unsuccessful).(state := Failed, error := Some(error))
    case Cancel => FinishLatestAttempt(job, Aborted).(state := Cancelled, leaseExpiresAt := None)
    case Recover => FinishLatestAttempt(job, Unsuccessful).(state := Queued, owner := None, leaseExpiresAt := None,
      error := None)
    case Retry => job.(state := Queued, attempts := 0, owner := None, leaseExpiresAt := None, completedAt := None,
      error := None)
  }

  /** The states a write declares as allowed; the store refuses it in any other. */
  function Allowed(u: Update): set<JobState> {
    match u
    case Create(_) => {}
    case Start(_, _) => {Queued, Leased, Running, Failed, Complete}
    case Renew(_) => {Leased, Running}
    case BeginAttempt(_, _) => {Leased, Running}
    case EndAttempt(_) => {Leased, Running}
    case Finish(_) => {Leased, Running}
    case Fail(_) => {Queued, Leased, Running}
    case Cancel => {Queued, Leased, Running, Failed}
    case Recover => {Leased, Running}
    case Retry => {Failed, Cancelled}
  }

  // ---------------------------------------------------------------- accepted updates in order

  /** The job after the accepted updates, applied one after the other. */
  function Fold(log: seq<Update>): Job
    requires |log| > 0
  {
    var last := log[|log| - 1];
    if |log| == 1 || last.Create? then Write(last, Job(Queued, 0, [], None, None, None, None))
    else Write(last, Fold(log[..|log| - 1]))
  }

  /** The first update creates the job, and each later one found it in a state that allows it. */
  predicate Legal(log: seq<Update>) {
    && |log| > 0
    && (if |log| == 1 then log[0].Create?
        else
          var before, last := log[..|log| - 1], log[|log| - 1];
          Legal(before) && !last.Create? && Fold(before).state in Allowed(last))
  }

  lemma FoldAppends(log: seq<Update>, u: Update)
    requires Legal(log) && !u.Create? && Fold(log).state in Allowed(u)
    ensures Legal(log + [u]) && Fold(log + [u]) == Write(u, Fold(log))
  {
    assert (log + [u])[..|log|] == log;
  }

  lemma {:induction false} LegalBefore(log: seq<Update>, i: nat)
    requires Legal(log) && 0 < i <= |log|
    ensures Legal(log[..i])
    decreases |log|
  {
    if i < |log| {
      assert log[..|log| - 1][..i] == log[..i];
      LegalBefore(log[..|log| - 1], i);
    } else {
      assert log[..i] == log;
    }
  }

  lemma StepOfLog(log: seq<Update>, i: nat)
    requires Legal(log) && 0 < i < |log|
    ensures !log[i].Create?
    ensures Fold(log[..i + 1]) == Write(log[i], Fold(log[..i])) && Fold(log[..i]).state in Allowed(log[i])
  {
    LegalBefore(log, i + 1);
    assert log[..i + 1][..i] == log[..i];
  }

  /** A cancelled job leaves that state by a manual retry, and in no other way. */
  lemma CancelledIsLeftOnlyByRetry(log: seq<Update>, i: nat)
    requires Legal(log) && 0 < i < |log| && Fold(log[..i]).state.Cancelled?
    ensures log[i].Retry? && Fold(log[..i + 1]).state.Queued?
  {
    StepOfLog(log, i);
  }

  /** A complete job leaves that state by a new start: a late failure, cancellation or recovery is refused. */
  lemma CompleteIsLeftOnlyByStart(log: seq<Update>, i: nat)
    requires Legal(log) && 0 < i < |log| && Fold(log[..i]).state.Complete?
    ensures log[i].Start? && Fold(log[..i + 1]).state.Running?
  {
    StepOfLog(log, i);
  }

  /** No attempt is lost or rewritten: the history only grows, and an ended attempt keeps its outcome. */
  predicate HistoryKept(before: seq<Attempt>, after: seq<Attempt>) {
    && |before| <= |after|
    && forall k :: 0 <= k < |before| ==>
      && after[k].number == before[k].number && after[k].nodeId == before[k].nodeId
      && (!before[k].state.InProgress? ==> after[k].state == before[k].state)
  }

  lemma WriteKeepsHistory(u: Update, job: Job)
    requires !u.Create?
    ensures HistoryKept(job.history, Write(u, job).history)
  {
  }

  lemma KeptAndKept(a: seq<Attempt>, b: seq<Attempt>, c: seq<Attempt>)
    requires HistoryKept(a, b) && HistoryKept(b, c)
    ensures HistoryKept(a, c)
  {
  }

  lemma {:induction false} HistoryIsNeverLost(log: seq<Update>, i: nat, j: nat)
    requires Legal(log) && 0 < i <= j <= |log|
    ensures HistoryKept(Fold(log[..i]).history, Fold(log[..j]).history)
    decreases j
  {
    if i < j {
      var before, after := Fold(log[..j - 1]), Fold(log[..j]);
      assert log[..j - 1 + 1] == log[..j];
      StepOfLog(log, j - 1);
      WriteKeepsHistory(log[j - 1], before);
      HistoryIsNeverLost(log, i, j - 1);
      KeptAndKept(Fold(log[..i]).history, before.history, after.history);
    }
  }

  // ---------------------------------------------------------------- the store and the loops over it

  datatype WriteResult = Applied(record: Versioned<Job>) | NotFound | RevisionConflict | InvalidState(current: Job)

  datatype JobError = JobNotFound | JobCancelled | JobConflict | JobContended

  datatype Outcome =
    | Wrote(job: Job)            // the update of this call was accepted
    | Left(job: Job)             // nothing written; the job is already where it is
    | Nothing                    // nothing written, nothing to report
    | Threw(error: JobError)     // nothing written

  const MAX_ATOMIC_WRITE_ATTEMPTS := 5

  lemma SameRevisionSameLog(read: seq<Update>, log: seq<Update>)
    requires read <= log && |read| == |log|
    ensures read == log
  {
  }

  class JobDocument {
    var row: Option<Versioned<Job>>
    /** Every update ever accepted, in order, and the positions of those accepted for the caller at hand. */
    ghost var log: seq<Update>
    ghost var own: set<nat>

    /** The stored job is the sequential application of the accepted updates; the revision counts them. */
    ghost predicate Valid()
      reads this
    {
      && (row.None? <==> log == [])
      && (row.Some? ==> Legal(log) && row.value == Versioned(Fold(log), |log|))
    }

    /** Since the old state only others had updates accepted. */
    twostate predicate OthersOnly()
      reads this
    {
      old(log) <= log && own == old(own)
    }

    /** Since the old state this caller had exactly `u` accepted, last, and nothing else. */
    twostate predicate OwnLast(u: Update)
      reads this
    {
      old(log) < log && log[|log| - 1] == u && own == old(own) + {|log| - 1}
    }

    /** What an error says about the job it leaves: contention needs as many updates by others as there were
        attempts. */
    twostate predicate ThrownFor(error: JobError, allowed: set<JobState>)
      reads this
    {
      && OthersOnly()
      && match error
         case JobNotFound => row.None?
         case JobCancelled => row.Some? && row.value.value.state.Cancelled?
         case JobConflict => row.Some? && row.value.value.state !in allowed
         case JobContended => |log| >= |old(log)| + MAX_ATOMIC_WRITE_ATTEMPTS
    }

    constructor ()
      ensures Valid() && row.None?
    {
      row, log, own := None, [], {};
    }

    /** A suspension point: its callers know only that others may have had updates accepted. */
    method Suspend()
      requires Valid()
      modifies this
      ensures Valid() && OthersOnly()
    {
    }

    method Read() returns (record: Option<Versioned<Job>>)
      requires Valid()
      modifies this
      ensures Valid() && OthersOnly() && record == row
    {
      Suspend();
      record := row;
    }

    method CreateSegmentJob(initial: Job) returns (created: bool, record: Versioned<Job>)
      requires Valid()
      modifies this
      ensures Valid() && row == Some(record)
      ensures if created then OwnLast(Create(initial)) && record.value == initial else OthersOnly()
    {
      Suspend();
      created := row.None?;
      if created {
        row, log, own := Some(Versioned(initial, 1)), [Create(initial)], own + {0};
      }
      record := row.value;
    }

    /** The conditional UPDATE, some time after the document was read; `u` names what the replacement stands for. */
    method CompareAndSet(job: Job, expected: nat, allowed: set<JobState>, ghost u: Update) returns (r: WriteResult)
      requires Valid() && !u.Create? && allowed == Allowed(u)
      requires row.Some? && expected == row.value.revision && job == Write(u, row.value.value)
      modifies this
      ensures Valid() && row.Some?
      ensures if r.Applied? then OwnLast(u) && r.record.value == job == Fold(log) else OthersOnly()
      // no update came between the read and the write
      ensures r.Applied? ==> |log| > 1 && Fold(log[..|log| - 1]) == old(row.value.value)
      ensures r.InvalidState? ==> r.current == row.value.value && r.current.state !in allowed
      ensures r.RevisionConflict? ==> |log| > |old(log)|
      ensures !r.NotFound?
    {
      ghost var read := log;
      Suspend();
      if row.Some? && row.value.revision == expected && row.value.value.state in allowed {
        SameRevisionSameLog(read, log);
        FoldAppends(log, u);
        assert (log + [u])[..|log|] == log;
        row, log, own := Some(Versioned(job, row.value.revision + 1)), log + [u], own + {|log|};
        return Applied(Versioned(job, expected + 1));
      }
      if row.None? {
        return NotFound;
      }
      if row.value.revision != expected {
        return RevisionConflict;
      }
      return InvalidState(row.value.value);
    }

    /** Runs a job: creates it, or restarts it keeping its attempts and history. A cancelled job is not started. */
    method StartJob(initial: Job) returns (r: Outcome, ghost u: Update)
      requires Valid() && initial.leaseExpiresAt.Some? && initial.state.Running? && initial.completedAt.None?
          && initial.error.None?
      modifies this
      ensures Valid() && (u == Create(initial) || u == Start(initial.owner, initial.leaseExpiresAt.value))
      ensures if r.Wrote? then OwnLast(u) && r.job == Fold(log)
          else r.Threw? && ThrownFor(r.error, {Queued, Leased, Running, Failed, Complete})
      ensures r.Threw? ==> r.error != JobNotFound
    {
      u := Start(initial.owner, initial.leaseExpiresAt.value);
      var created, record := CreateSegmentJob(initial);
      if created {
        return Wrote(record.value), Create(initial);
      }
      var attempt := 0;
      while attempt < MAX_ATOMIC_WRITE_ATTEMPTS
        invariant 0 <= attempt <= MAX_ATOMIC_WRITE_ATTEMPTS && |log| >= |old(log)| + attempt
        invariant Valid() && row.Some? && OthersOnly()
        invariant attempt == 0 ==> row == Some(record)
      {
        if attempt > 0 {
          var current := Read();
          record := current.value;
        }
        if record.value.state.Cancelled? {
          return Threw(JobCancelled), u;
        }
        var running := initial.(attempts := record.value.attempts, history := record.value.history);
        var result := CompareAndSet(running, record.revision, {Queued, Leased, Running, Failed, Complete}, u);
        if result.Applied? {
          return Wrote(result.record.value), u;
        }
        if result.InvalidState? {
          return Threw(if result.current.state.Cancelled? then JobCancelled else JobConflict), u;
        }
        attempt := attempt + 1;
      }
      return Threw(JobContended), u;
    }

    /** Progress on an active job: lease renewal, attempt start or attempt end. */
    method TransitionActiveJob(u: Update) returns (r: Outcome)
      requires Valid() && (u.Renew? || u.BeginAttempt? || u.EndAttempt?)
      modifies this
      ensures Valid()
      ensures if r.Wrote? then OwnLast(u) && r.job == Fold(log) else r.Threw? && ThrownFor(r.error, {Leased, Running})
    {
      var attempt := 0;
      while attempt < MAX_ATOMIC_WRITE_ATTEMPTS
        invariant 0 <= attempt <= MAX_ATOMIC_WRITE_ATTEMPTS && |log| >= |old(log)| + attempt
        invariant Valid() && OthersOnly()
      {
        var current := Read();
        if current.None? {
          return Threw(JobNotFound);
        }
        if current.value.value.state.Cancelled? {
          return Threw(JobCancelled);
        }
        if current.value.value.state !in {Leased, Running} {
          return Threw(JobConflict);
        }
        var result := CompareAndSet(Write(u, current.value.value), current.value.revision, {Leased, Running}, u);
        if result.Applied? {
          return Wrote(result.record.value);
        }
        if result.InvalidState? {
          return Threw(if result.current.state.Cancelled? then JobCancelled else JobConflict);
        }
        attempt := attempt + 1;
      }
      return Threw(JobContended);
    }

    method CompleteJob(completedAt: Millis) returns (r: Outcome)
      requires Valid()
      modifies this
      ensures Valid()
      ensures if r.Wrote? then OwnLast(Finish(completedAt)) && r.job == Fold(log)
          else OthersOnly() && (r.Left? || r.Threw?)
      ensures r.Left? ==> row.Some? && row.value.value == r.job && r.job.state.Complete?
      ensures r.Threw? ==> ThrownFor(r.error, {Leased, Running, Complete})
    {
      var attempt := 0;
      while attempt < MAX_ATOMIC_WRITE_ATTEMPTS
        invariant 0 <= attempt <= MAX_ATOMIC_WRITE_ATTEMPTS && |log| >= |old(log)| + attempt
        invariant Valid() && OthersOnly()
      {
        var current := Read();
        if current.None? {
          return Threw(JobNotFound);
        }
        if current.value.value.state.Cancelled? {
          return Threw(JobCancelled);
        }
        if current.value.value.state.Complete? {
          return Left(current.value.value);
        }
        var complete := FinishLatestAttempt(current.value.value, Succeeded);
        complete := complete.(state := Complete, leaseExpiresAt := None, completedAt := Some(completedAt));
        var result := CompareAndSet(complete, current.value.revision, {Leased, Running}, Finish(completedAt));
        match result
        case Applied(record) => return Wrote(record.value);
        case InvalidState(found) =>
          if found.state.Cancelled? {
            return Threw(JobCancelled);
          }
          if found.state.Complete? {
            return Left(found);
          }
          return Threw(JobConflict);
        case _ =>
        attempt := attempt + 1;
      }
      return Threw(JobContended);
    }

    method FailJob(error: Id) returns (r: Outcome)
      requires Valid()
      modifies this
      ensures Valid()
      ensures if r.Wrote? then OwnLast(Fail(error)) && r.job == Fold(log) else OthersOnly() && (r.Left? || r.Threw?)
      ensures r.Left? ==> row.Some? && row.value.value == r.job && r.job.state in {Cancelled, Complete, Failed}
      ensures r.Threw? ==> r.error in {JobNotFound, JobContended} && ThrownFor(r.error, {})
    {
      var attempt := 0;
      while attempt < MAX_ATOMIC_WRITE_ATTEMPTS
        invariant 0 <= attempt <= MAX_ATOMIC_WRITE_ATTEMPTS && |log| >= |old(log)| + attempt
        invariant Valid() && OthersOnly()
      {
        var current := Read();
        if current.None? {
          return Threw(JobNotFound);
        }
        if current.value.value.state in {Cancelled, Complete, Failed} {
          return Left(current.value.value);
        }
        var failed := FinishLatestAttempt(current.value.value, Unsuccessful).(state := Failed, error := Some(error));
        var result := CompareAndSet(failed, current.value.revision, {Queued, Leased, Running}, Fail(error));
        if result.Applied? {
          return Wrote(result.record.value);
        }
        if result.InvalidState? {
          assert result.current.state.Cancelled? || result.current.state.Complete? || result.current.state.Failed?;
          return Left(result.current);
        }
        attempt := attempt + 1;
      }
      return Threw(JobContended);
    }

    method CancelJob() returns (r: Outcome)
      requires Valid()
      modifies this
      ensures Valid()
      ensures if r.Wrote? then OwnLast(Cancel) && r.job == Fold(log)
          else OthersOnly() && (r == Nothing || r == Threw(JobContended))
      ensures r == Nothing ==> row.Some? ==> row.value.value.state in {Complete, Failed, Cancelled}
      ensures r.Threw? ==> ThrownFor(r.error, {})
    {
      var attempt := 0;
      while attempt < MAX_ATOMIC_WRITE_ATTEMPTS
        invariant 0 <= attempt <= MAX_ATOMIC_WRITE_ATTEMPTS && |log| >= |old(log)| + attempt
        invariant Valid() && OthersOnly()
      {
        var current := Read();
        if current.None? || current.value.value.state in {Complete, Failed, Cancelled} {
          return Nothing;
        }
        var cancelled := FinishLatestAttempt(current.value.value, Aborted).(state := Cancelled, leaseExpiresAt := None);
        var result := CompareAndSet(cancelled, current.value.revision, {Queued, Leased, Running, Failed}, Cancel);
        if result.Applied? {
          return Wrote(result.record.value);
        }
        if result.InvalidState? {
          assert result.current.state.Complete? || result.current.state.Cancelled?;
          return Nothing;
        }
        attempt := attempt + 1;
      }
      return Threw(JobContended);
    }

    /** One listed job of the recovery sweep: requeued only if its lease has run out at the moment of the decision. */
    method RecoverExpiredJob(now: Millis) returns (r: Outcome)
      requires Valid()
      modifies this
      ensures Valid()
      ensures if r.Wrote? then OwnLast(Recover) && r.job == Fold(log)
          else OthersOnly() && (r == Nothing || r == Threw(JobContended))
      ensures r == Nothing ==> row.Some? ==> !LeaseExpired(row.value.value, now)
      ensures r.Threw? ==> ThrownFor(r.error, {})
      ensures r.Wrote? ==> |log| > 1 && LeaseExpired(Fold(log[..|log| - 1]), now)
    {
      var attempt := 0;
      while attempt < MAX_ATOMIC_WRITE_ATTEMPTS
        invariant 0 <= attempt <= MAX_ATOMIC_WRITE_ATTEMPTS && |log| >= |old(log)| + attempt
        invariant Valid() && OthersOnly()
      {
        var current := Read();
        if current.None? || !LeaseExpired(current.value.value, now) {
          return Nothing;
        }
        var queued := FinishLatestAttempt(current.value.value, Unsuccessful);
        queued := queued.(state := Queued, owner := None, leaseExpiresAt := None, error := None);
        var result := CompareAndSet(queued, current.value.revision, {Leased, Running}, Recover);
        if result.Applied? {
          return Wrote(result.record.value);
        }
        if result.InvalidState? {
          return Nothing;
        }
        attempt := attempt + 1;
      }
      return Threw(JobContended);
    }

    method RetryJobTransition() returns (r: Outcome)
      requires Valid()
      modifies this
      ensures Valid()
      ensures if r.Wrote? then OwnLast(Retry) && r.job == Fold(log)
          else r.Threw? && ThrownFor(r.error, {Failed, Cancelled})
    {
      var attempt := 0;
      while attempt < MAX_ATOMIC_WRITE_ATTEMPTS
        invariant 0 <= attempt <= MAX_ATOMIC_WRITE_ATTEMPTS && |log| >= |old(log)| + attempt
        invariant Valid() && OthersOnly()
      {
        var current := Read();
        if current.None? {
          return Threw(JobNotFound);
        }
        if current.value.value.state !in {Failed, Cancelled} {
          return Threw(JobConflict);
        }
        var queued := current.value.value.(state := Queued, attempts := 0, owner := None, leaseExpiresAt := None,
            completedAt := None, error := None);
        var result := CompareAndSet(queued, current.value.revision, {Failed, Cancelled}, Retry);
        if result.Applied? {
          return Wrote(result.record.value);
        }
        if result.InvalidState? {
          return Threw(JobConflict);
        }
        attempt := attempt + 1;
      }
      return Threw(JobContended);
    }
  }

  predicate LeaseExpired(job: Job, now: Millis) {
    job.state in {Leased, Running} && (job.leaseExpiresAt.Some? ==> job.leaseExpiresAt.value <= now)
  }
}
