/** The restarting fixed window that bounds agent protocol messages. */
module MessageRate {
  import opened Prelude

  const WINDOW_MS: Millis := 60_000

  datatype Window = Window(startedAt: Millis, count: nat)

  function Counted(w: Window, now: Millis): Window {
    if now - w.startedAt >= WINDOW_MS then Window(now, 1) else w.(count := w.count + 1)
  }

  class RateWindow {
    var messageWindowStartedAt: Millis
    var messageCount: nat

    constructor (now: Millis)
      ensures View() == Window(now, 0)
    {
      messageWindowStartedAt := now;
      messageCount := 0;
    }

    function View(): Window reads this {
      Window(messageWindowStartedAt, messageCount)
    }

    /** `false` is the rate-limit error, which closes the connection. */
    method CountMessage(now: Millis, maximum: nat) returns (allowed: bool)
      modifies this
      ensures View() == Counted(old(View()), now)
      ensures allowed <==> View().count <= maximum
    {
      if now - messageWindowStartedAt >= WINDOW_MS {
        messageWindowStartedAt := now;
        messageCount := 0;
      }
      messageCount := messageCount + 1;
      allowed := messageCount <= maximum;
    }
  }

  /** Arrivals are in order and none precedes the window. */
  predicate InOrder(w: Window, arrivals: seq<Millis>) {
    (forall i :: 0 <= i < |arrivals| ==> w.startedAt <= arrivals[i]) &&
    (forall i, j :: 0 <= i < j < |arrivals| ==> arrivals[i] <= arrivals[j])
  }

  /** How many of the arrivals in [from, from + 60 s) get past the limit. */
  function PassedWithin(w: Window, arrivals: seq<Millis>, maximum: nat, from: Millis): nat
    decreases |arrivals|
  {
    if arrivals == [] then 0
    else
      var w' := Counted(w, arrivals[0]);
      (if w'.count <= maximum && from <= arrivals[0] < from + WINDOW_MS then 1 else 0)
      + PassedWithin(w', arrivals[1..], maximum, from)
  }

  /** What a window in state `w` can still let through inside the interval. */
  function Allowance(w: Window, maximum: nat, from: Millis): nat {
    var left := if w.count <= maximum then maximum - w.count else 0;
    if w.startedAt >= from + WINDOW_MS then 0
    else if w.startedAt >= from then left
    else if w.startedAt + WINDOW_MS > from then left + maximum
    else 2 * maximum
  }

  lemma {:induction false} WithinAllowance(w: Window, arrivals: seq<Millis>, maximum: nat, from: Millis)
    requires InOrder(w, arrivals)
    ensures PassedWithin(w, arrivals, maximum, from) <= Allowance(w, maximum, from)
    decreases |arrivals|
  {
    if arrivals != [] {
      var w' := Counted(w, arrivals[0]);
      assert InOrder(w', arrivals[1..]);
      WithinAllowance(w', arrivals[1..], maximum, from);
    }
  }

  /** No half-open minute lets more than twice the maximum past, whatever came before it. */
  lemma RateBound(w: Window, arrivals: seq<Millis>, maximum: nat, from: Millis)
    requires InOrder(w, arrivals)
    ensures PassedWithin(w, arrivals, maximum, from) <= 2 * maximum
  {
    WithinAllowance(w, arrivals, maximum, from);
  }

  lemma {:induction false} BurstPasses(w: Window, at: Millis, n: nat, rest: seq<Millis>, maximum: nat, from: Millis)
    requires w.startedAt <= at < w.startedAt + WINDOW_MS && from <= at < from + WINDOW_MS
    requires w.count + n <= maximum
    ensures PassedWithin(w, seq(n, _ => at) + rest, maximum, from)
         == n + PassedWithin(Window(w.startedAt, w.count + n), rest, maximum, from)
    decreases n
  {
    var arrivals := seq(n, _ => at) + rest;
    if n == 0 {
      assert arrivals == rest;
    } else {
      assert arrivals[1..] == seq(n - 1, _ => at) + rest;
      BurstPasses(Window(w.startedAt, w.count + 1), at, n - 1, rest, maximum, from);
    }
  }

  /** The factor two is attained: one burst at the end of a window and one at the start of the next. */
  lemma BoundIsAttained(maximum: nat)
    requires maximum > 0
    ensures var arrivals := seq(maximum, _ => 59_999) + seq(maximum, _ => 60_000);
            InOrder(Window(0, 0), arrivals) && PassedWithin(Window(0, 0), arrivals, maximum, 59_999) == 2 * maximum
  {
    var second: seq<Millis> := seq(maximum, _ => 60_000);
    BurstPasses(Window(0, 0), 59_999, maximum, second, maximum, 59_999);
    var tail: seq<Millis> := seq(maximum - 1, _ => 60_000) + [];
    assert second[1..] == tail;
    BurstPasses(Window(60_000, 1), 60_000, maximum - 1, [], maximum, 59_999);
  }
}
