/** The delay line between what a connection has sent and what may be shown of it. */
module ReplayDelays {

  /** `N` of the original: cycles a length spends in the queue, with times in whole units. */
  function Cycles(delay: nat, sleep: nat): nat
    requires sleep > 0
  {
    (delay + sleep - 1) / sleep
  }

  lemma CeilingIsRounded(a: nat, b: nat)
    requires b > 0
    ensures a - b < a / b * b <= a
  {
    assert a / b * b + a % b == a;
  }

  lemma {:induction false} TimesIsMonotone(m: nat, n: nat, k: nat)
    requires m <= n
    ensures m * k <= n * k
    ensures (n + 1) * k == n * k + k
    decreases n
  {
    if m < n { TimesIsMonotone(m, n - 1, k); }
  }

  /** It is the least number of cycles that last at least the delay. */
  lemma CyclesAreEnough(delay: nat, sleep: nat, n: nat)
    requires sleep > 0
    ensures n * sleep >= delay <==> n >= Cycles(delay, sleep)
  {
    var c := Cycles(delay, sleep);
    CeilingIsRounded(delay + sleep - 1, sleep);
    if n >= c {
      TimesIsMonotone(c, n, sleep);
    } else {
      TimesIsMonotone(n + 1, c, sleep);
    }
  }

  /** What the latest push returns: the length pushed `n` pushes before, or the very first one. */
  function DelayedAt(pushed: seq<nat>, n: nat): nat
    requires pushed != []
  {
    var k := |pushed| - 1;
    pushed[if k < n then 0 else k - n]
  }

  /** The length of the previous cycle, zero before the first one. */
  function LastPushed(pushed: seq<nat>): nat {
    if pushed == [] then 0 else pushed[|pushed| - 1]
  }

  class PositionHistory {
    const historySize: nat
    var queue: seq<nat>

    /** Every length pushed so far. */
    ghost var pushed: seq<nat>

    ghost predicate Valid()
      reads this
    {
      && historySize > 0
      && queue == if |pushed| <= historySize then pushed else pushed[|pushed| - historySize..]
    }

    constructor (delay: nat, sleep: nat)
      requires sleep > 0
      ensures Valid() && pushed == [] && historySize == Cycles(delay, sleep) + 1
    {
      historySize, queue, pushed := Cycles(delay, sleep) + 1, [], [];
    }

    method PushAndGetDelayed(currentLen: nat) returns (delayed: nat)
      requires Valid()
      modifies this
      ensures Valid() && pushed == old(pushed) + [currentLen]
      ensures delayed == DelayedAt(pushed, historySize - 1)
    {
      queue := queue + [currentLen];
      pushed := pushed + [currentLen];
      if |queue| > historySize {
        queue := queue[1..];
      }
      delayed := queue[0];
    }
  }

  ghost predicate Sorted(s: seq<nat>) {
    forall i, j :: 0 <= i <= j < |s| ==> s[i] <= s[j]
  }

  lemma SortedSnoc(s: seq<nat>, next: nat)
    requires Sorted(s) && (s != [] ==> s[|s| - 1] <= next)
    ensures Sorted(s + [next])
  {
  }

  /** Growing lengths come out in order, and never ahead of the current length. */
  lemma DelayedIsMonotone(pushed: seq<nat>, next: nat, n: nat)
    requires Sorted(pushed + [next])
    ensures DelayedAt(pushed + [next], n) <= next
    ensures pushed != [] ==> DelayedAt(pushed, n) <= DelayedAt(pushed + [next], n)
  {
    var more := pushed + [next];
    var k := |pushed|;
    assert more[if k < n then 0 else k - n] <= more[k];
    if k > 0 {
      assert more[if k - 1 < n then 0 else k - 1 - n] <= more[if k < n then 0 else k - n];
    }
  }

  /**
   * The length returned by a push was current at least the delay ago, and less than one cycle more;
   * only while the queue fills up it is the first one pushed, which came out at once.
   */
  lemma ReturnedLengthIsOldEnough(pushed: seq<nat>, delay: nat, sleep: nat)
    requires sleep > 0 && pushed != []
    ensures var (k, n) := (|pushed| - 1, Cycles(delay, sleep));
            var j := if k < n then 0 else k - n;
            && DelayedAt(pushed, n) == pushed[j]
            && (k >= n ==> delay <= (k - j) * sleep < delay + sleep)
            && (k < n ==> k * sleep < delay)
  {
    var (k, n) := (|pushed| - 1, Cycles(delay, sleep));
    CyclesAreEnough(delay, sleep, n);
    CyclesAreEnough(delay, sleep, k);
    if n > 0 {
      CyclesAreEnough(delay, sleep, n - 1);
      assert (n - 1) * sleep == n * sleep - sleep;
    }
  }

  /** The loop that moves a replay's delayed position, one cycle at a time. */
  class UpdateLoop {
    const posQueue: PositionHistory
    var prevCurrent: nat
    var prevDelayed: nat

    ghost predicate Valid()
      reads this, posQueue
    {
      && posQueue.Valid() && Sorted(posQueue.pushed)
      && (posQueue.pushed == [] ==> prevCurrent == 0 && prevDelayed == 0)
      && (posQueue.pushed != [] ==>
            && prevCurrent == posQueue.pushed[|posQueue.pushed| - 1]
            && prevDelayed == DelayedAt(posQueue.pushed, posQueue.historySize - 1))
    }

    constructor (delay: nat, sleep: nat)
      requires sleep > 0
      ensures Valid() && fresh(posQueue) && prevCurrent == 0 && prevDelayed == 0
      ensures posQueue.pushed == [] && posQueue.historySize == Cycles(delay, sleep) + 1
    {
      posQueue := new PositionHistory(delay, sleep);
      prevCurrent, prevDelayed := 0, 0;
    }

    lemma KnowsLastPushed()
      requires Valid()
      ensures prevCurrent == LastPushed(posQueue.pushed)
    {
    }

    lemma ShowsDelayed()
      requires Valid() && posQueue.pushed != []
      ensures posQueue.historySize > 0 && prevDelayed == DelayedAt(posQueue.pushed, posQueue.historySize - 1)
    {
    }

    /** The delayed position for the current length, and whether there is anything to report. */
    method Cycle(current: nat) returns (delayed: nat, changed: bool)
      requires Valid() && prevCurrent <= current
      modifies this, posQueue
      ensures Valid() && prevCurrent == current && prevDelayed == delayed
      ensures posQueue.pushed == old(posQueue.pushed) + [current]
      ensures delayed == DelayedAt(posQueue.pushed, posQueue.historySize - 1)
      ensures old(prevDelayed) <= delayed <= current
      ensures changed <==> current != old(prevCurrent) || delayed != old(prevDelayed)
    {
      hide Sorted;
      hide DelayedAt;
      hide PositionHistory.Valid;
      ghost var pushed := posQueue.pushed;
      SortedSnoc(pushed, current);
      delayed := posQueue.PushAndGetDelayed(current);
      DelayedIsMonotone(pushed, current, posQueue.historySize - 1);
      changed := current != prevCurrent || delayed != prevDelayed;
      prevCurrent, prevDelayed := current, delayed;
    }
  }
}
