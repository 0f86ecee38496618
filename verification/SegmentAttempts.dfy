/**
 Attempt accounting of one segment job. One runner at a time works on the job (the lease of its content key sees to
 that); it may crash at any point, or have a write committed and its acknowledgement lost. Around it an administrator
 cancels and retries, and the recovery sweep requeues jobs whose lease ran out.
 */
module SegmentAttempts {
  import opened Prelude
  import opened SegmentJobs

  const MAX_AUTOMATIC_ATTEMPTS := 3

  /**
   `known` is the number of attempts in the runner's local copy of the job, from which it numbers the next one; `left`
   is how often its loop will try again.
   */
  datatype Runner = Idle | Ready(known: nat, left: nat) | Working(left: nat) | Delivered | Failing

  /** `answers` are the attempt counts in the records of lease renewals that were written and whose answer is under way;
      `retriedAt` is the length the history had at the last manual retry. */
  datatype World = World(job: Option<Job>, runner: Runner, answers: set<nat>, retriedAt: nat)

  const Initial := World(None, Idle, {}, 0)

  /** `lost` marks a write that committed although the runner saw an error. */
  datatype Step =
    | Starts(owner: Option<Id>, lease: Millis, lost: bool)
    | BeginsAttempt(nodeId: Id, lost: bool)
    | EndsAttempt(delivered: bool, lost: bool)
    | Finishes(at: Millis, lost: bool)
    | GivesUp
    | Fails(error: Id)
    | Crashes
    | Renews(lease: Millis)
    | RenewalAnswered(attempts: nat)
    | Recovers
    | Cancels
    | Retries

  predicate In(w: World, states: set<JobState>) {
    w.job.Some? && w.job.value.state in states
  }

  predicate Enabled(w: World, s: Step) {
    match s
    case Starts(_, _, _) => w.runner.Idle?
    case BeginsAttempt(_, _) => w.runner.Ready?
    case EndsAttempt(_, _) => w.runner.Working?
    case Finishes(_, _) => w.runner.Working? || w.runner.Delivered?
    case GivesUp => w.runner.Ready? || w.runner.Working? || w.runner.Delivered?
    case Fails(_) => w.runner.Failing?
    case Crashes => true
    case Renews(_) => !w.runner.Idle?
    case RenewalAnswered(attempts) => !w.runner.Idle? && attempts in w.answers
    case Recovers => In(w, {Leased, Running})
    case Cancels => In(w, {Queued, Leased, Running})
    case Retries => In(w, {Failed, Cancelled})
  }

  /** The write is accepted where the store allows it and leaves the job alone elsewhere. */
  function Written(w: World, u: Update): World {
    if In(w, Allowed(u)) then w.(job := Some(Write(u, w.job.value))) else w
  }

  /** The automatic attempts a run has left when it starts. */
  function Remaining(attempts: nat): nat {
    if attempts < MAX_AUTOMATIC_ATTEMPTS then MAX_AUTOMATIC_ATTEMPTS - attempts else 0
  }

  function Next(w: World, s: Step): World
    requires Enabled(w, s)
  {
    match s
    case Starts(owner, lease, lost) =>
      if w.job.None? then
        World(Some(Job(Running, 0, [], owner, Some(lease), None, None)), if lost then Idle
          else Ready(0, Remaining(0)), {}, 0)
      else
        var started := Written(w, Start(owner, lease)).(answers := {});
        var attempts := started.job.value.attempts;
        if lost || w.job.value.state.Cancelled? then started
          else started.(runner := Ready(attempts, Remaining(attempts)))
    case BeginsAttempt(node, lost) =>
      if w.runner.left == 0 || !In(w, {Leased, Running}) then w.(runner := Failing)
      else Written(w, BeginAttempt(w.runner.known + 1, node)).(runner := if lost then Failing
        else Working(w.runner.left - 1))
    case EndsAttempt(delivered, lost) =>
      if delivered then
        if lost || !In(w, {Leased, Running}) then Written(w, EndAttempt(Succeeded))
        else Written(w, EndAttempt(Succeeded)).(runner := Delivered)
      else
        Written(w, EndAttempt(Unsuccessful)).(runner :=
          if lost || !In(w, {Leased, Running}) then Failing else Ready(w.job.value.attempts, w.runner.left))
    case Finishes(at, lost) =>
      Written(w, Finish(at)).(runner := if lost || In(w, {Queued, Failed}) then Failing else Idle)
    case GivesUp => w.(runner := Failing)
    case Fails(error) => Written(w, Fail(error)).(runner := Idle)
    case Crashes => w.(runner := Idle)
    case Renews(lease) =>
      if In(w, {Leased, Running}) then Written(w, Renew(lease)).(answers := w.answers + {w.job.value.attempts}) else w
    case RenewalAnswered(attempts) =>
      w.(answers := w.answers - {attempts}, runner := if w.runner.Ready? then Ready(attempts, w.runner.left)
        else w.runner)
    case Recovers => Written(w, Recover)
    case Cancels => Written(w, Cancel)
    case Retries => Written(w, Retry).(retriedAt := |w.job.value.history|)
  }

  // ---------------------------------------------------------------- what holds of the stored job

  predicate InProgressAt(job: Job, k: nat) {
    k < |job.history| && job.history[k].state.InProgress?
  }

  predicate LatestInProgress(job: Job) {
    |job.history| > 0 && InProgressAt(job, |job.history| - 1)
  }

  ghost predicate Accounted(job: Job, retriedAt: nat) {
    && job.attempts <= MAX_AUTOMATIC_ATTEMPTS
    && job.attempts + retriedAt == |job.history|
    && (forall k: nat :: InProgressAt(job, k) ==> k == |job.history| - 1 && job.state in {Leased, Running})
  }

  /** Between its attempts, while the job is active, the runner's copy is current and nothing is in progress. */
  predicate RunnerInStep(job: Job, runner: Runner) {
    job.state in {Leased, Running} ==>
      && (runner.Ready? ==> runner.known == job.attempts)
      && (runner.Ready? || runner.Working? ==> job.attempts + runner.left <= MAX_AUTOMATIC_ATTEMPTS)
      && (runner.Ready? || runner.Delivered? ==> !LatestInProgress(job))
  }

  ghost predicate Inv(w: World) {
    if w.job.None? then !w.runner.Ready? && !w.runner.Working? && !w.runner.Delivered?
    else Accounted(w.job.value, w.retriedAt) && RunnerInStep(w.job.value, w.runner)
  }

  /** The crashed attempt, if there is one, has been requeued by the sweep before the job is started again. */
  predicate RecoveredFirst(w: World, s: Step) {
    s.Starts? && w.job.Some? && !w.job.value.state.Cancelled? ==> !LatestInProgress(w.job.value)
  }

  /** The answer to a renewal does not arrive after an attempt that was begun since the renewal was written. */
  predicate AnsweredInOrder(w: World, s: Step) {
    s.RenewalAnswered? && w.runner.Ready? ==> s.attempts == w.runner.known
  }

  predicate Orderly(w: World, s: Step) {
    RecoveredFirst(w, s) && AnsweredInOrder(w, s)
  }

  lemma WriteKeepsAccounts(job: Job, u: Update, retriedAt: nat)
    requires Accounted(job, retriedAt) && !u.Create? && !u.BeginAttempt? && job.state in Allowed(u)
    requires u.EndAttempt? ==> !u.outcome.InProgress?
    ensures Accounted(Write(u, job), if u.Retry? then |job.history| else retriedAt)
    ensures u.EndAttempt? || u.Finish? || u.Fail? || u.Cancel? || u.Recover? ==> !LatestInProgress(Write(u, job))
    ensures Write(u, job).attempts == (if u.Retry? then 0 else job.attempts)
  {
    var after := Write(u, job);
    forall k: nat | InProgressAt(after, k)
      ensures k == |after.history| - 1 && after.state in {Leased, Running}
    {
      assert InProgressAt(job, k);
    }
  }

  lemma AttemptKeepsAccounts(job: Job, number: nat, node: Id, retriedAt: nat)
    requires Accounted(job, retriedAt) && !LatestInProgress(job) && job.state in {Leased, Running}
    requires number == job.attempts + 1 <= MAX_AUTOMATIC_ATTEMPTS
    ensures Accounted(Write(BeginAttempt(number, node), job), retriedAt)
  {
    var after := Write(BeginAttempt(number, node), job);
    forall k: nat | InProgressAt(after, k)
      ensures k == |after.history| - 1
    {
      if k < |job.history| {
        assert InProgressAt(job, k);
      }
    }
  }

  lemma AttemptStepKeepsInv(w: World, s: Step)
    requires Inv(w) && Enabled(w, s) && (s.BeginsAttempt? || s.EndsAttempt?)
    ensures Inv(Next(w, s))
  {
    if In(w, {Leased, Running}) {
      var job := w.job.value;
      if s.EndsAttempt? {
        WriteKeepsAccounts(job, EndAttempt(if s.delivered then Succeeded else Unsuccessful), w.retriedAt);
      } else if w.runner.left > 0 {
        AttemptKeepsAccounts(job, w.runner.known + 1, s.nodeId, w.retriedAt);
      }
    }
  }

  lemma StepKeepsInv(w: World, s: Step)
    requires Inv(w) && Enabled(w, s) && Orderly(w, s)
    ensures Inv(Next(w, s))
  {
    if w.job.Some? {
      var job := w.job.value;
      match s
      case Starts(owner, lease, _) =>
        if !job.state.Cancelled? {
          WriteKeepsAccounts(job, Start(owner, lease), w.retriedAt);
        }
      case BeginsAttempt(_, _) => AttemptStepKeepsInv(w, s);
      case EndsAttempt(_, _) => AttemptStepKeepsInv(w, s);
      case Finishes(at, _) => if In(w, {Leased, Running}) { WriteKeepsAccounts(job, Finish(at), w.retriedAt); }
      case Fails(error) => if In(w, {Queued, Leased, Running}) { WriteKeepsAccounts(job, Fail(error), w.retriedAt); }
      case Renews(lease) => if In(w, {Leased, Running}) { WriteKeepsAccounts(job, Renew(lease), w.retriedAt); }
      case Recovers => WriteKeepsAccounts(job, Recover, w.retriedAt);
      case Cancels => WriteKeepsAccounts(job, Cancel, w.retriedAt);
      case Retries => WriteKeepsAccounts(job, Retry, w.retriedAt);
      case _ =>
    }
  }

  ghost predicate Runs(w: World, steps: seq<Step>)
    decreases |steps|
  {
    steps == [] || (Enabled(w, steps[0]) && Orderly(w, steps[0]) && Runs(Next(w, steps[0]), steps[1..]))
  }

  function After(w: World, steps: seq<Step>): World
    requires Runs(w, steps)
    decreases |steps|
  {
    if steps == [] then w else After(Next(w, steps[0]), steps[1..])
  }

  /**
   Over every run: at most three attempts between manual retries, one history entry for each, and at most the last
   entry in progress, and only while the job is active.
   */
  lemma {:induction false} AttemptsAreAccounted(w: World, steps: seq<Step>)
    requires Inv(w) && Runs(w, steps)
    ensures Inv(After(w, steps))
    ensures After(w, steps).job.Some? ==> Accounted(After(w, steps).job.value, After(w, steps).retriedAt)
    decreases |steps|
  {
    if steps != [] {
      StepKeepsInv(w, steps[0]);
      AttemptsAreAccounted(Next(w, steps[0]), steps[1..]);
    }
  }

  /** The same from the moment the job does not exist yet. */
  lemma EveryHistoryIsAccounted(steps: seq<Step>)
    requires Runs(Initial, steps)
    ensures After(Initial, steps).job.Some? ==> Accounted(After(Initial, steps).job.value,
        After(Initial, steps).retriedAt)
  {
    AttemptsAreAccounted(Initial, steps);
  }

  /**
   The condition on restarts is needed wherever a further attempt is possible: a job restarted over an attempt still in
   progress keeps that entry in progress for good, behind the next one.
   */
  lemma RestartOverCrashedAttempt(w: World, owner: Option<Id>, lease: Millis, node: Id)
    requires Inv(w) && w.runner.Idle? && w.job.Some? && !w.job.value.state.Cancelled?
        && w.job.value.attempts < MAX_AUTOMATIC_ATTEMPTS
    ensures
      var restarted := Next(w, Starts(owner, lease, false));
      && Enabled(restarted, BeginsAttempt(node, false))
      && var again := Next(restarted, BeginsAttempt(node, false));
         again.job.Some? && (RecoveredFirst(w, Starts(owner, lease, false)) <==>
           Accounted(again.job.value, w.retriedAt))
  {
    var restarted := Next(w, Starts(owner, lease, false));
    var again := Next(restarted, BeginsAttempt(node, false));
    if LatestInProgress(w.job.value) {
      assert InProgressAt(again.job.value, |w.job.value.history| - 1);
    } else {
      StepKeepsInv(w, Starts(owner, lease, false));
      StepKeepsInv(restarted, BeginsAttempt(node, false));
    }
  }

  /**
   So is the condition on answers: a renewal answered after a later attempt has ended puts an old count back into the
   runner's copy, and the next attempt is numbered like the one before it.
   */
  lemma LateAnswerMiscounts(w: World, attempts: nat, node: Id)
    requires Inv(w) && In(w, {Leased, Running}) && w.runner.Ready? && w.runner.left > 0 && attempts in w.answers
    ensures
      var answered := Next(w, RenewalAnswered(attempts));
      && Enabled(answered, BeginsAttempt(node, false))
      && var again := Next(answered, BeginsAttempt(node, false));
         again.job.Some? && (AnsweredInOrder(w, RenewalAnswered(attempts)) <==> Accounted(again.job.value, w.retriedAt))
  {
    if attempts == w.runner.known {
      AttemptKeepsAccounts(w.job.value, attempts + 1, node, w.retriedAt);
    }
  }

  /** Such a state is reached: an attempt fails while the answer to a renewal from before it is still under way. */
  lemma LateAnswerIsReachable(lease: Millis, node: Id)
    ensures
      var steps := [Starts(None, lease, false), Renews(lease), BeginsAttempt(node, false), EndsAttempt(false, false)];
      && Runs(Initial, steps)
      && var w := After(Initial, steps);
         w.runner == Ready(1, 2) && In(w, {Running}) && 0 in w.answers && !AnsweredInOrder(w, RenewalAnswered(0))
  {
    var steps := [Starts(None, lease, false), Renews(lease), BeginsAttempt(node, false), EndsAttempt(false, false)];
    var w1 := Next(Initial, steps[0]);
    var w2 := Next(w1, steps[1]);
    var w3 := Next(w2, steps[2]);
    var w4 := Next(w3, steps[3]);
    assert steps[1..][1..] == steps[2..] && steps[2..][1..] == steps[3..] && steps[3..][1..] == [];
    assert Runs(w4, []) && After(w4, []) == w4;
    assert Runs(w3, steps[3..]) && After(w3, steps[3..]) == w4;
    assert Runs(w2, steps[2..]) && After(w2, steps[2..]) == w4;
    assert Runs(w1, steps[1..]) && After(w1, steps[1..]) == w4;
  }

  /** Nothing but the loops of module `SegmentJobs` writes here: each step performs at most one update its state
      allows. */
  lemma StepIsAnAllowedUpdate(w: World, s: Step)
    requires Enabled(w, s) && w.job.Some? && Next(w, s).job != w.job
    ensures Next(w, s).job.Some?
    ensures exists u: Update :: w.job.value.state in Allowed(u) && Next(w, s).job.value == Write(u, w.job.value)
  {
    var job := w.job.value;
    match s
    case Starts(owner, lease, _) => assert Next(w, s).job.value == Write(Start(owner, lease), job);
    case BeginsAttempt(node, _) => assert Next(w, s).job.value == Write(BeginAttempt(w.runner.known + 1, node), job);
    case EndsAttempt(delivered, _) => assert Next(w, s).job.value == Write(EndAttempt(if delivered then Succeeded
      else Unsuccessful), job);
    case Finishes(at, _) => assert Next(w, s).job.value == Write(Finish(at), job);
    case Fails(error) => assert Next(w, s).job.value == Write(Fail(error), job);
    case Renews(lease) => assert Next(w, s).job.value == Write(Renew(lease), job);
    case Recovers => assert Next(w, s).job.value == Write(Recover, job);
    case Cancels => assert Next(w, s).job.value == Write(Cancel, job);
    case Retries => assert Next(w, s).job.value == Write(Retry, job);
    case _ =>
  }
}
