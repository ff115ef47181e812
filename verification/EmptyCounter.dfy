/** A counter of connections, and waiting until it has been zero for some time. */
module EmptyCounters {
  import opened Bytes

  /** A waiter: the count it last saw, the change it last saw, when its sleep ends, and whether it is through. */
  datatype Wait = Wait(last: nat, seen: nat, deadline: Option<nat>, done: bool)

  /** Nothing more happens until the count changes or time passes. */
  predicate Parked(w: Wait, version: nat, now: nat) {
    || w.done
    || (w.seen == version && (w.last != 0 || (w.deadline.Some? && now < w.deadline.value)))
  }

  /**
   * One turn of the loop. With a count of zero it races the next change against a sleep; when both are
   * ready either may be taken. After the sleep the count is looked at once more.
   */
  function Turn(w: Wait, count: nat, version: nat, now: nat, timeout: nat, sleepFirst: bool): Wait {
    if w.last != 0 then w.(last := count, seen := version)
    else
      var deadline := if w.deadline.Some? then w.deadline.value else now + timeout;
      if version > w.seen && !(deadline <= now && sleepFirst) then Wait(count, version, None, false)
      else if deadline <= now then
        if count == 0 then w.(done := true) else w.(last := count, deadline := None)
      else w.(deadline := Some(deadline))
  }

  /** The waiter knows the count unless there is a change it has not seen. */
  predicate Consistent(w: Wait, count: nat, version: nat) {
    && w.seen <= version
    && (w.seen == version ==> w.last == count)
    && (w.last != 0 ==> w.deadline.None?)
  }

  /** Turns until the waiter is parked. */
  function Polled(w: Wait, count: nat, version: nat, now: nat, timeout: nat, sleepFirst: bool): (p: Wait)
    requires Consistent(w, count, version)
    ensures Consistent(p, count, version) && Parked(p, version, now)
    decreases version - w.seen, if w.last == 0 then 1 else 0, if w.deadline.None? then 1 else 0
  {
    if Parked(w, version, now) then w
    else
      var turned := Turn(w, count, version, now, timeout, sleepFirst);
      if turned.done then turned else Polled(turned, count, version, now, timeout, sleepFirst)
  }

  class EmptyCounter {
    var count: nat
    /** Number of changes so far. */
    var version: nat

    constructor ()
      ensures count == 0 && version == 0
    {
      count, version := 0, 0;
    }

    method Inc()
      modifies this
      ensures count == old(count) + 1 && version == old(version) + 1
    {
      count, version := count + 1, version + 1;
    }

    method Dec()
      requires count > 0
      modifies this
      ensures count == old(count) - 1 && version == old(version) + 1
    {
      count, version := count - 1, version + 1;
    }
  }

  /** The future returned by `wait_until_empty_for`. */
  class EmptyWait {
    const counter: EmptyCounter
    const timeout: nat
    var w: Wait

    ghost predicate Valid()
      reads this, counter
    {
      w.done || Consistent(w, counter.count, counter.version)
    }

    /** The watcher is a clone of one that has not seen any change yet; the count is read at once. */
    constructor (counter: EmptyCounter, timeout: nat)
      requires counter.version == 0 ==> counter.count == 0
      ensures Valid() && this.counter == counter && this.timeout == timeout
      ensures w == Wait(counter.count, 0, None, false)
    {
      this.counter, this.timeout, w := counter, timeout, Wait(counter.count, 0, None, false);
    }

    /** Runs until it is through or has to wait. It never comes through while the count is not zero. */
    method Poll(now: nat, sleepFirst: bool) returns (ready: bool)
      requires Valid() && !w.done
      modifies this
      ensures Valid() && ready == w.done
      ensures w == old(Polled(w, counter.count, counter.version, now, timeout, sleepFirst))
      ensures ready ==> counter.count == 0
    {
      var version := counter.version;
      while !Parked(w, version, now)
        invariant Consistent(w, counter.count, version) && version == counter.version
        invariant Polled(w, counter.count, version, now, timeout, sleepFirst) ==
                  old(Polled(w, counter.count, counter.version, now, timeout, sleepFirst))
        invariant w.done ==> counter.count == 0
        decreases version - w.seen, if w.last == 0 then 1 else 0, if w.deadline.None? then 1 else 0,
                  if w.done then 0 else 1
      {
        w := Turn(w, counter.count, version, now, timeout, sleepFirst);
      }
      ready := w.done;
    }
  }

  // ---- Time ----

  /**
   * `quiet` is for how long no time has passed with a count above zero, `calm` for how long there has
   * been no change at all.
   */
  datatype Timeline = Timeline(now: nat, count: nat, version: nat, quiet: nat, calm: nat, w: Wait)

  datatype Event = Inc | Dec | Pass(time: nat) | Poll(sleepFirst: bool)

  function Begin(now: nat, count: nat, version: nat): Timeline {
    Timeline(now, count, version, 0, 0, Wait(count, 0, None, false))
  }

  /** Time passes only while the waiter is parked, that is after every change it gets its turn first. */
  ghost predicate Takes(s: Timeline, e: Event, timeout: nat, t: Timeline) {
    !s.w.done &&
    match e
    case Inc => t == s.(count := s.count + 1, version := s.version + 1, calm := 0)
    case Dec => s.count > 0 && t == s.(count := s.count - 1, version := s.version + 1, calm := 0)
    case Pass(d) =>
      && Parked(s.w, s.version, s.now)
      && t == s.(now := s.now + d, calm := s.calm + d,
                 quiet := if s.count == 0 then s.quiet + d else if d == 0 then s.quiet else 0)
    case Poll(first) =>
      && Consistent(s.w, s.count, s.version)
      && t == s.(w := Polled(s.w, s.count, s.version, s.now, timeout, first))
  }

  ghost predicate Step(timeout: nat, s: Timeline, t: Timeline) {
    exists e :: Takes(s, e, timeout, t)
  }

  ghost predicate IsRun(timeout: nat, run: seq<Timeline>) {
    && run != [] && (exists now, count, version ::
          (version == 0 ==> count == 0) && run[0] == Begin(now, count, version))
    && forall i :: 0 < i < |run| ==> Step(timeout, run[i - 1], run[i])
  }

  /** A sleep that is under way began after the last change, and has been quiet ever since. */
  ghost predicate WaitOk(w: Wait, s: Timeline, timeout: nat) {
    if w.done then s.count == 0 && s.quiet >= timeout
    else
      && Consistent(w, s.count, s.version)
      && (w.seen < s.version || (w.last == 0 && w.deadline.None?) ==> s.calm == 0)
      && (w.deadline.Some? ==>
            && s.now + timeout <= s.quiet + w.deadline.value
            && w.deadline.value + s.calm <= s.now + timeout)
  }

  lemma {:induction false} PolledKeeps(w: Wait, s: Timeline, timeout: nat, sleepFirst: bool)
    requires Consistent(w, s.count, s.version) && WaitOk(w, s, timeout)
    ensures WaitOk(Polled(w, s.count, s.version, s.now, timeout, sleepFirst), s, timeout)
    decreases s.version - w.seen, if w.last == 0 then 1 else 0, if w.deadline.None? then 1 else 0
  {
    if !Parked(w, s.version, s.now) {
      var turned := Turn(w, s.count, s.version, s.now, timeout, sleepFirst);
      assert WaitOk(turned, s, timeout);
      if !turned.done {
        PolledKeeps(turned, s, timeout, sleepFirst);
      }
    }
  }

  lemma StepKeepsWait(timeout: nat, s: Timeline, t: Timeline)
    requires WaitOk(s.w, s, timeout) && Step(timeout, s, t)
    ensures WaitOk(t.w, t, timeout)
  {
    var e :| Takes(s, e, timeout, t);
    if e.Poll? {
      PolledKeeps(s.w, s, timeout, e.sleepFirst);
      assert forall w :: WaitOk(w, s, timeout) ==> WaitOk(w, t, timeout);
    }
  }

  lemma {:induction false} RunKeepsWait(timeout: nat, run: seq<Timeline>)
    requires IsRun(timeout, run)
    ensures WaitOk(run[|run| - 1].w, run[|run| - 1], timeout)
    decreases |run|
  {
    var n := |run| - 1;
    if n > 0 {
      assert IsRun(timeout, run[..n]);
      RunKeepsWait(timeout, run[..n]);
      StepKeepsWait(timeout, run[n - 1], run[n]);
    }
  }

  /**
   * A waiter that gets its turn after every change comes through only when the count is zero and no
   * time has passed with a higher count for as long as asked; and it does come through at its first
   * turn after that long without a change.
   */
  lemma WaitEndsExactly(timeout: nat, run: seq<Timeline>, sleepFirst: bool, t: Timeline)
    requires IsRun(timeout, run) && Takes(run[|run| - 1], Poll(sleepFirst), timeout, t)
    ensures t.w.done ==> t.count == 0 && t.quiet >= timeout
    ensures t.count == 0 && t.calm >= timeout ==> t.w.done
  {
    var s := run[|run| - 1];
    RunKeepsWait(timeout, run);
    assert Step(timeout, s, t);
    StepKeepsWait(timeout, s, t);
  }

  lemma TimelineGoesOn(timeout: nat, run: seq<Timeline>, e: Event, t: Timeline)
    requires IsRun(timeout, run) && Takes(run[|run| - 1], e, timeout, t)
    ensures IsRun(timeout, run + [t])
  {
    var longer := run + [t];
    assert longer[0] == run[0];
    forall i | 0 < i < |longer| ensures Step(timeout, longer[i - 1], longer[i]) {
      if i < |run| {
        assert Step(timeout, run[i - 1], run[i]);
      }
    }
  }

  /** With nothing to sleep for, a waiter comes through at its first turn with a count of zero. */
  lemma {:induction false} ZeroWaitEnds(w: Wait, count: nat, version: nat, now: nat, sleepFirst: bool)
    requires Consistent(w, count, version) && (w.deadline.Some? ==> w.deadline.value <= now)
    ensures var p := Polled(w, count, version, now, 0, sleepFirst);
            && (p.deadline.Some? ==> p.deadline.value <= now)
            && (p.done <==> w.done || count == 0)
    decreases version - w.seen, if w.last == 0 then 1 else 0, if w.deadline.None? then 1 else 0
  {
    if !Parked(w, version, now) {
      var turned := Turn(w, count, version, now, 0, sleepFirst);
      if !turned.done {
        ZeroWaitEnds(turned, count, version, now, sleepFirst);
      }
    }
  }
}
