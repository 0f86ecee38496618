/**
 The promise chains that serialize operations. An operation waits for the chain it found, leaves behind a chain that
 ends after it, and on its way out removes that chain if nobody has queued behind it meanwhile.
 */
module OperationQueue {
  import opened Prelude

  datatype Phase = Waiting | Running | Released

  /** `previous` is the operation whose chain was found on entry; none if there was no chain. */
  datatype Operation = Operation(previous: Option<nat>, phase: Phase)

  /** All operations in order of entry, and the operation whose chain is registered. */
  datatype Queue = Queue(operations: seq<Operation>, tail: Option<nat>)

  const Empty := Queue([], None)

  datatype Step = Enters | Starts(k: nat) | Leaves(k: nat)

  /** A chain has ended when its operation has been released and the chain before it has ended. */
  predicate Ended(q: Queue, k: nat)
    requires k < |q.operations|
    decreases k
  {
    && q.operations[k].phase.Released?
    && match q.operations[k].previous
       case None => true
       case Some(p) => p < k && Ended(q, p)
  }

  predicate Enabled(q: Queue, s: Step) {
    match s
    case Enters => true
    case Starts(k) =>
      && k < |q.operations| && q.operations[k].phase.Waiting?
      && (q.operations[k].previous.Some? ==>
            q.operations[k].previous.value < k && Ended(q, q.operations[k].previous.value))
    case Leaves(k) => k < |q.operations| && q.operations[k].phase.Running?
  }

  function Next(q: Queue, s: Step): Queue
    requires Enabled(q, s)
  {
    match s
    case Enters => Queue(q.operations + [Operation(q.tail, Waiting)], Some(|q.operations|))
    case Starts(k) => q.(operations := q.operations[k := q.operations[k].(phase := Running)])
    case Leaves(k) =>
      Queue(q.operations[k := q.operations[k].(phase := Released)], if q.tail == Some(k) then None else q.tail)
  }

  /** Whatever has started found everything before it released; whatever waits is linked to its predecessor or has none
      left. */
  ghost predicate Inv(q: Queue) {
    && (forall k: nat :: k < |q.operations| && !q.operations[k].phase.Waiting? ==> AllReleased(q, k))
    && (forall k: nat :: k < |q.operations| ==>
         match q.operations[k].previous
         case None => AllReleased(q, k)
         case Some(p) => p + 1 == k)
    && (match q.tail
        case None => AllReleased(q, |q.operations|)
        case Some(t) => t + 1 == |q.operations|)
  }

  ghost predicate AllReleased(q: Queue, n: nat) {
    n <= |q.operations| && forall j :: 0 <= j < n ==> q.operations[j].phase.Released?
  }

  lemma EndedMeansReleased(q: Queue, k: nat)
    requires Inv(q) && k < |q.operations| && Ended(q, k)
    ensures AllReleased(q, k + 1)
  {
    assert !q.operations[k].phase.Waiting?;
    assert AllReleased(q, k);
  }

  lemma StepKeepsInv(q: Queue, s: Step)
    requires Inv(q) && Enabled(q, s)
    ensures Inv(Next(q, s))
  {
    var after := Next(q, s);
    match s
    case Enters =>
      assert forall n: nat :: AllReleased(q, n) ==> AllReleased(after, n);
    case Starts(k) =>
      if q.operations[k].previous.Some? {
        EndedMeansReleased(q, q.operations[k].previous.value);
      }
      assert AllReleased(q, k);
      assert forall n: nat :: n <= |q.operations| && AllReleased(q, n) ==> n <= k && AllReleased(after, n);
    case Leaves(k) =>
      assert AllReleased(q, k);
      assert forall n: nat :: AllReleased(q, n) ==> AllReleased(after, n);
      if q.tail == Some(k) {
        assert AllReleased(after, |after.operations|);
      }
  }

  ghost predicate Runs(q: Queue, steps: seq<Step>)
    decreases |steps|
  {
    steps == [] || (Enabled(q, steps[0]) && Runs(Next(q, steps[0]), steps[1..]))
  }

  function After(q: Queue, steps: seq<Step>): Queue
    requires Runs(q, steps)
    decreases |steps|
  {
    if steps == [] then q else After(Next(q, steps[0]), steps[1..])
  }

  lemma {:induction false} RunKeepsInv(q: Queue, steps: seq<Step>)
    requires Inv(q) && Runs(q, steps)
    ensures Inv(After(q, steps))
    decreases |steps|
  {
    if steps != [] {
      StepKeepsInv(q, steps[0]);
      RunKeepsInv(Next(q, steps[0]), steps[1..]);
    }
  }

  /** At any time at most one operation runs, and operations start in the order in which they entered. */
  lemma OneAtATimeInOrder(steps: seq<Step>, j: nat, k: nat)
    requires Runs(Empty, steps) && j < k < |After(Empty, steps).operations|
    requires !After(Empty, steps).operations[k].phase.Waiting?
    ensures After(Empty, steps).operations[j].phase.Released?
  {
    RunKeepsInv(Empty, steps);
    assert AllReleased(After(Empty, steps), k);
  }

  /** Nothing is forgotten: when nothing runs, the first waiting operation may start. */
  lemma SomebodyMayStart(steps: seq<Step>, k: nat)
    requires Runs(Empty, steps)
    requires var q := After(Empty, steps); k < |q.operations| && q.operations[k].phase.Waiting? && AllReleased(q, k)
    ensures Enabled(After(Empty, steps), Starts(k))
  {
    RunKeepsInv(Empty, steps);
    var q := After(Empty, steps);
    if q.operations[k].previous.Some? {
      ReleasedMeansEnded(q, q.operations[k].previous.value);
    }
  }

  lemma {:induction false} ReleasedMeansEnded(q: Queue, k: nat)
    requires Inv(q) && AllReleased(q, k + 1)
    ensures Ended(q, k)
    decreases k
  {
    if q.operations[k].previous.Some? {
      ReleasedMeansEnded(q, q.operations[k].previous.value);
    }
  }
}
