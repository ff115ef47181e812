/** How C's delayed position follows those of the quorum. */
module QuorumDelays {
  import opened Bytes
  import opened QuorumMachine
  import opened QuorumInvariant
  import opened QuorumTheorems

  /** All members of the current quorum have a delayed position at or past that of C. */
  ghost predicate MembersArePast(w: State) {
    && w.mode.Quorum?
    && forall id :: id in w.mode.members ==>
         id in w.replays && w.canonDelayed <= w.replays[id].delayed
  }

  lemma ExitShowsOnlyPast(v: State, c: Choice)
    requires IdsOk(v) && v.mode.Stalemate? && ValidChoice(v, c)
    requires ExitStalemate(v, c).canonDelayed > v.canonDelayed
    ensures MembersArePast(ExitStalemate(v, c))
  {
  }

  /** Entering a stalemate shows nothing new. */
  lemma SwitchShows(v: State, w: State)
    requires WellFormed(v) && Flip(v, w) && w.canonDelayed > v.canonDelayed
    ensures v.mode.Stalemate? && exists c :: ValidChoice(v, c) && w == ExitStalemate(v, c)
  {
  }

  lemma StepShowsOnlyPast(v: State, w: State)
    requires Inv(v) && Step(v, w) && w.canonDelayed > v.canonDelayed
    ensures MembersArePast(w)
  {
    hide SetsOk;
    hide Notified;
    hide Takes;
    hide MembersArePast;
    hide ExitStalemate;
    var a :| Takes(v, a, w);
    StepKinds(v, a, w);
    if a.Switch? {
      SwitchShows(v, w);
      var c :| ValidChoice(v, c) && w == ExitStalemate(v, c);
      ExitShowsOnlyPast(v, c);
    } else {
      TickShowsOnlyPast(v, a, w);
    }
  }

  lemma TickShowsOnlyPast(v: State, a: Action, w: State)
    requires IdsOk(v) && Takes(v, a, w) && !a.Switch? && w.canonDelayed > v.canonDelayed
    ensures MembersArePast(w)
  {
    assert a.Tick?;
    var u := Delayed(v, a.id, a.delayed);
    assert w == UpdateDelayed(u);
  }

  /** A byte becomes visible only in a quorum all of whose members have a delayed position past it. */
  lemma VisibleWhenAllMembersArePast(cfg: Config, run: seq<State>, i: nat)
    requires cfg.quorumSize >= 1 && IsRun(cfg, run) && 0 < i < |run|
    ensures run[i].canonDelayed > run[i - 1].canonDelayed ==> MembersArePast(run[i])
  {
    RunPrefix(cfg, run, i);
    RunInvariant(cfg, run[..i]);
    assert Step(run[i - 1], run[i]);
    if run[i].canonDelayed > run[i - 1].canonDelayed {
      StepShowsOnlyPast(run[i - 1], run[i]);
    }
  }

  /** Between callbacks: nothing is hidden in a stalemate, something still is in a quorum. */
  lemma SettledDelay(cfg: Config, run: seq<State>)
    requires cfg.quorumSize >= 1 && IsRun(cfg, run) && !ShouldChange(Last(run))
    ensures var v := Last(run);
            && (v.mode.Stalemate? ==> v.canonDelayed == |v.canon|)
            && (v.mode.Quorum? ==> v.canonDelayed < |v.canon|)
  {
    RunInvariant(cfg, run);
  }

  /** The delayed position that the comment on the quorum state promises for C. */
  ghost function LeastShown(v: State): nat
    requires WellFormed(v) && v.mode.Quorum?
  {
    Min(|v.canon|, LeastDelayed(v.replays, v.mode.members))
  }

  /** In every reachable state of a quorum, C's delayed position is at least that. */
  lemma DelayedAtLeastMinimum(cfg: Config, run: seq<State>)
    requires cfg.quorumSize >= 1 && IsRun(cfg, run) && Last(run).mode.Quorum?
    ensures WellFormed(Last(run)) && LeastShown(Last(run)) <= Last(run).canonDelayed
  {
    RunInvariant(cfg, run);
  }

  // ---- Along a quorum ----

  /** The last state is in the quorum that replaced the stalemate of state `j`. */
  ghost predicate QuorumSince(run: seq<State>, j: nat) {
    j + 1 < |run| && run[j].mode.Stalemate? && forall k :: j < k < |run| ==> run[k].mode.Quorum?
  }

  /** Every quorum goes back to some stalemate. */
  lemma {:induction false} QuorumHasOrigin(cfg: Config, run: seq<State>) returns (j: nat)
    requires cfg.quorumSize >= 1 && IsRun(cfg, run) && Last(run).mode.Quorum?
    ensures QuorumSince(run, j)
    decreases |run|
  {
    hide IsRun;
    var n := |run| - 1;
    StartsInStalemate(cfg, run);
    if run[n - 1].mode.Stalemate? {
      j := n - 1;
    } else {
      RunPrefix(cfg, run, n);
      j := QuorumHasOrigin(cfg, run[..n]);
      assert forall k :: j < k < n ==> run[..n][k] == run[k];
    }
  }

  lemma StartsInStalemate(cfg: Config, run: seq<State>)
    requires IsRun(cfg, run)
    ensures run != [] && run[0].mode.Stalemate?
  {
  }

  /** Any step within a quorum other than a report of a member leaves the delayed positions alone. */
  ghost predicate SameShown(v: State, w: State) {
    && v.mode.Quorum? && w.mode == v.mode && w.canon == v.canon && w.canonDelayed == v.canonDelayed
    && v.mode.members <= v.replays.Keys && v.mode.members <= w.replays.Keys
    && forall id :: id in v.mode.members ==> w.replays[id].delayed == v.replays[id].delayed
  }

  lemma LeastGrows(r: map<nat, Replay>, s: map<nat, Replay>, ids: set<nat>)
    requires ids != {} && ids <= r.Keys && ids <= s.Keys
    requires forall id :: id in ids ==> r[id].delayed <= s[id].delayed
    ensures LeastDelayed(r, ids) <= LeastDelayed(s, ids)
  {
  }

  /** A quorum keeps its members, and C follows their least delayed position once that is ahead. */
  lemma QuorumStep(v: State, w: State, s: nat)
    requires Inv(v) && Step(v, w) && v.mode.Quorum? && w.mode.Quorum? && WellFormed(w)
    requires v.canonDelayed == Max(s, LeastShown(v))
    ensures w.canon == v.canon && w.mode == v.mode && w.canonDelayed == Max(s, LeastShown(w))
  {
    hide SetsOk;
    hide LeastDelayed;
    var a :| Takes(v, a, w);
    if a.Tick? && a.id in v.mode.members {
      var u := Delayed(v, a.id, a.delayed);
      LeastGrows(v.replays, u.replays, v.mode.members);
    } else {
      OtherStepShowsSame(v, a, w);
      SameLeastDelayed(v.replays, w.replays, v.mode.members);
    }
  }

  lemma OtherStepShowsSame(v: State, a: Action, w: State)
    requires IdsOk(v) && v.mode.Quorum? && w.mode.Quorum? && Takes(v, a, w)
    requires a.Tick? ==> a.id !in v.mode.members
    ensures SameShown(v, w)
  {
  }

  lemma QuorumBegins(v: State, w: State)
    requires Inv(v) && Step(v, w) && v.mode.Stalemate? && w.mode.Quorum? && WellFormed(w)
    ensures |v.canon| <= |w.canon| && w.canonDelayed == Max(|v.canon|, LeastShown(w))
  {
    hide SetsOk;
    hide Takes;
    hide ValidChoice;
    hide ExitStalemate;
    hide LeastShown;
    var a :| Takes(v, a, w);
    OnlySwitchBegins(v, a, w);
    var c :| ValidChoice(v, c) && w == ExitStalemate(v, c);
    ExitShows(v, c);
  }

  lemma ExitShows(v: State, c: Choice)
    requires Core(v) && v.mode.Stalemate? && ValidChoice(v, c) && WellFormed(ExitStalemate(v, c))
    ensures var w := ExitStalemate(v, c);
            |v.canon| <= |w.canon| && w.canonDelayed == Max(|v.canon|, LeastShown(w))
  {
    hide IsBest;
    hide Canon2;
    hide SetsOk;
    hide LeastDelayed;
    hide AfterExit;
    ExitExtendsCanon(v, c);
    SameLeastDelayed(v.replays, ExitStalemate(v, c).replays, Elements(c.order));
  }

  lemma OnlySwitchBegins(v: State, a: Action, w: State)
    requires WellFormed(v) && v.mode.Stalemate? && w.mode.Quorum? && Takes(v, a, w)
    ensures exists c :: ValidChoice(v, c) && w == ExitStalemate(v, c)
  {
  }

  lemma {:induction false} DelayedFollowsMinimum(cfg: Config, run: seq<State>, j: nat)
    requires cfg.quorumSize >= 1 && IsRun(cfg, run) && QuorumSince(run, j)
    ensures var (v, s) := (Last(run), |run[j].canon|);
            WellFormed(v) && s <= |v.canon| && v.canonDelayed == Max(s, LeastShown(v))
    decreases |run|
  {
    hide Inv;
    hide Step;
    hide LeastDelayed;
    var n := |run| - 1;
    RunPrefix(cfg, run, n);
    RunInvariant(cfg, run[..n]);
    RunInvariant(cfg, run);
    StillWellFormed(run[n]);
    assert Step(run[n - 1], run[n]);
    if j == n - 1 {
      QuorumBegins(run[j], run[n]);
    } else {
      assert forall k :: j < k < n ==> run[..n][k] == run[k];
      DelayedFollowsMinimum(cfg, run[..n], j);
      QuorumStep(run[n - 1], run[n], |run[j].canon|);
    }
  }

  lemma StillWellFormed(v: State)
    requires Inv(v)
    ensures WellFormed(v)
  {
  }

  /**
   * In every state of a quorum C's delayed position is the promised minimum or, while that lies behind
   * it, the length C had when the quorum was formed. So it is exactly the minimum if and only if every
   * member's delayed position has reached that length.
   */
  lemma DelayedIsMinimumExactlyWhen(cfg: Config, run: seq<State>, j: nat)
    requires cfg.quorumSize >= 1 && IsRun(cfg, run) && QuorumSince(run, j)
    ensures var (v, s) := (Last(run), |run[j].canon|);
            && WellFormed(v) && v.canonDelayed == Max(s, LeastShown(v))
            && (v.canonDelayed == LeastShown(v) <==>
                  forall id :: id in v.mode.members ==> s <= v.replays[id].delayed)
  {
    DelayedFollowsMinimum(cfg, run, j);
  }
}
