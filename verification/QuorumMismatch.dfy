/** When candidates and members match C, when only its recent part, when growth is supported: exactly. */
module QuorumMismatch {
  import opened Bytes
  import opened CommonPrefix
  import opened QuorumMachine
  import opened QuorumInvariant
  import opened QuorumLimits
  import opened QuorumMatching
  import opened QuorumOverrun
  import opened QuorumTheorems

  // Three replays of three bytes. The first two differ in the last byte, where the comparison of the
  // first with the third runs on to the end again.
  const EVEN: seq<byte> := [0, 0, 0]
  const ODD: seq<byte> := [0, 0, 1]

  ghost predicate SendsThree(v: State) {
    && v.replays.Keys == {0, 1, 2} && v.token == 3
    && v.replays[0].log == EVEN && v.replays[1].log == ODD && v.replays[2].log == EVEN
  }

  lemma ThreePrefix(replays: map<nat, Replay>)
    requires {0, 1, 2} <= replays.Keys
    requires replays[0].log == EVEN && replays[1].log == ODD && replays[2].log == EVEN
    ensures Elements(ORDER) == {0, 1, 2} && QuorumPrefix(replays, ORDER, 1) == 3
  {
    OrderElements();
    MatchEndUnique(EVEN, ODD, 1, 3, 2);
    assert QuorumPrefix(replays, [0, 1], 1) == 2;
    MatchEndUnique(EVEN, EVEN, 1, 3, 3);
  }

  // ---- The run ----

  /** The first replay sends one byte that is shown at once, and the rest later. */
  lemma FirstSendsTwice(cfg: Config) returns (w: State)
    requires cfg.quorumSize >= 3
    ensures Waiting(cfg, w, map[0 := 0], {1, 2}) && w.canon == [] && w.token == 3 && w.started
    ensures w.replays.Keys == {0, 1, 2} && Open(w, 0) && Open(w, 1) && Open(w, 2)
    ensures w.replays[0].log == EVEN && w.replays[0].delayed == 1
    ensures w.replays[1] == w.replays[2] == Replay([], 0, 0, false, 0)
  {
    var v := ThreeJoin(cfg);
    var x := Send(cfg, v, 0, [0]);
    var y := Report(cfg, x, 0, 0);
    assert y.reserve == {1, 2};
    assert forall b: byte :: Group(y.mode.cand, b) <= {0};
    FewCandidates(y, {0});
    w := Send(cfg, y, 0, [0, 0]);
    assert [] + [0] + [0, 0] == EVEN;
  }

  /** All have sent everything, and one of them is shown with delay. */
  ghost predicate ThreeReported(cfg: Config, v: State) {
    && Reachable(cfg, v) && WellFormed(v) && v.cfg == cfg && !v.canonFinished && v.started
    && AllWantZero(v) && v.reserve == {} && v.canon == [] && SendsThree(v) && v.replays[0].delayed == 1
  }

  lemma AllReport(cfg: Config) returns (w: State)
    requires cfg.quorumSize >= 3
    ensures ThreeReported(cfg, w)
  {
    var v := FirstSendsTwice(cfg);
    var x := Send(cfg, v, 1, ODD);
    var y := Report(cfg, x, 1, 0);
    assert y.reserve == {2};
    assert forall b: byte :: Group(y.mode.cand, b) <= {0, 1};
    FewCandidates(y, {0, 1});
    var z := Send(cfg, y, 2, EVEN);
    w := Report(cfg, z, 2, 0);
    assert w.reserve == {};
    assert [] + ODD == ODD && [] + EVEN == EVEN;
  }

  /** The three form a quorum, and C follows the one that differs from the other two. */
  lemma OddExit(v: State) returns (w: State)
    requires WellFormed(v) && v.cfg.quorumSize >= 3 && v.started && SendsThree(v) && v.replays[0].delayed == 1
    requires AllWantZero(v) && v.reserve == {} && v.canon == [] && v.canonDelayed == 0
    ensures CanExitStalemate(v) && Flip(v, w) && SendsThree(w)
    ensures w.canon == ODD && w.canonDelayed <= 1 && w.mode == Quorum({0, 1, 2}) && w.canonFinished == v.canonFinished
  {
    hide IsBest;
    hide CanExitStalemate;
    hide Group;
    hide Elements;
    hide ExitStalemate;
    OverrunCanExit(v);
    ThreePrefix(v.replays);
    ThreeChoice(v);
    w := ExitStalemate(v, CHOICE);
    ExitOfAll(v, CHOICE);
    ThreeCanon(v, CHOICE);
    assert [0] + ODD[1..3] == ODD;
  }

  lemma ThreeExit(cfg: Config, v: State) returns (w: State)
    requires cfg.quorumSize >= 3 && ThreeReported(cfg, v)
    ensures Step(v, w) && Reachable(cfg, w) && WellFormed(w) && SendsThree(w)
    ensures w.canon == ODD && w.mode == Quorum({0, 1, 2}) && !ShouldChange(w)
  {
    hide Flip;
    hide CanExitStalemate;
    ReachIsInvariant(cfg, v);
    w := OddExit(v);
    assert Takes(v, Switch, w);
    ReachStep(cfg, v, Switch, w);
  }

  // ---- Matching all of C ----

  /** A reachable state, of replays no longer than `limit`, in which some candidate or member differs from C. */
  ghost predicate Mismatch(cfg: Config, limit: nat, v: State) {
    Reachable(cfg, v) && Short(v, limit) && !ActiveMatch(v)
  }

  ghost predicate Settled(v: State) {
    v.mode.Quorum? && !ShouldChange(v)
  }

  /** A member has been taken for a match after a comparison that did not reach back far enough. */
  lemma StrangerMismatch(cfg: Config, limit: nat)
    requires cfg.quorumSize >= 1 && cfg.cmpDistance + 2 <= limit <= USIZE_MAX
    ensures exists v :: Mismatch(cfg, limit, v) && Settled(v)
  {
    var zeros := Zeros(cfg.cmpDistance + 1);
    var x := StrangerJoins(cfg, zeros);
    StrangerIsTaken(cfg, x.replays[1].(log := [1] + zeros), zeros, [1] + zeros);
    var w := SlowStranger(cfg, x, zeros, [1] + zeros);
    assert w.canon[0] == 0 && w.replays[1].log[0] == 1;
    assert 1 in Active(w);
    assert Mismatch(cfg, limit, w) && Settled(w);
  }

  lemma ThreeMismatch(cfg: Config, limit: nat)
    requires cfg.quorumSize >= 3 && limit >= 3
    ensures exists v :: Mismatch(cfg, limit, v) && Settled(v)
  {
    hide ThreeReported;
    hide ShouldChange;
    hide Step;
    hide Reachable;
    var v := AllReport(cfg);
    var w := ThreeExit(cfg, v);
    assert w.canon[2] != w.replays[0].log[2] && 0 in Active(w);
    assert Mismatch(cfg, limit, w) && Settled(w);
  }

  lemma CanonIsShort(cfg: Config, v: State, limit: nat)
    requires cfg.quorumSize >= 1 && Reachable(cfg, v) && Short(v, limit)
    ensures |v.canon| <= limit
  {
    ReachIsInvariant(cfg, v);
    if v.canon != [] {
      var id :| id in v.replays && |v.canon| <= |v.replays[id].log|;
    }
  }

  /**
   * Whatever bound on the length of a replay is given: in all reachable states every candidate and
   * member holds all of C if and only if the comparison distance covers all but the last byte of the
   * longest replay, and the quorum size is at most two or no replay is longer than two bytes. The same
   * condition is necessary for the members of quorums between callbacks.
   */
  lemma ActiveMatchExactlyWhen(cfg: Config, limit: nat)
    requires cfg.quorumSize >= 1 && limit <= USIZE_MAX
    ensures (forall v :: !Mismatch(cfg, limit, v)) <==>
            (limit <= cfg.cmpDistance + 1 && (cfg.quorumSize <= 2 || limit <= 2))
    ensures (forall v :: Mismatch(cfg, limit, v) ==> !Settled(v)) <==>
            (limit <= cfg.cmpDistance + 1 && (cfg.quorumSize <= 2 || limit <= 2))
  {
    hide Settled;
    hide ActiveMatch;
    if limit > cfg.cmpDistance + 1 {
      StrangerMismatch(cfg, limit);
    } else if cfg.quorumSize >= 3 && limit >= 3 {
      ThreeMismatch(cfg, limit);
    } else {
      forall v ensures !Mismatch(cfg, limit, v) {
        if Mismatch(cfg, limit, v) {
          CanonIsShort(cfg, v, limit);
          var run :| IsRun(cfg, run) && Last(run) == v;
          WholeCanonMatches(cfg, run);
        }
      }
    }
  }

  // ---- Matching the recent part of C ----

  /** A reachable state in which some replay that has not been dropped is marked wrongly. */
  ghost predicate WronglyMarked(cfg: Config, limit: nat, v: State) {
    Reachable(cfg, v) && Short(v, limit) && !MarksHoldRecent(v)
  }

  /** Marks cover nothing that could be wrong when nothing is ever compared. */
  lemma NothingIsMarked(cfg: Config, v: State)
    requires Reachable(cfg, v) && cfg.quorumSize >= 1 && cfg.cmpDistance == 0
    ensures MarksHoldRecent(v)
  {
    hide Dropped;
    ReachIsInvariant(cfg, v);
    forall id | id in v.replays ensures HoldsRecent(v.cfg, v.canon, v.replays[id], v.replays[id].matched) {
      MarkIsHeld(v, id);
    }
  }

  lemma MarkIsHeld(v: State, id: nat)
    requires Core(v) && id in v.replays
    ensures v.replays[id].matched <= Min(|v.canon|, |v.replays[id].log|)
  {
    assert ReplayOk(|v.canon|, v.replays[id]);
  }

  lemma ThreeAreWronglyMarked(cfg: Config, limit: nat)
    requires cfg.quorumSize >= 3 && limit >= 3 && cfg.cmpDistance > 0
    ensures exists v :: WronglyMarked(cfg, limit, v)
  {
    hide ThreeReported;
    hide ShouldChange;
    hide Step;
    hide Reachable;
    hide MarksHoldRecent;
    var v := AllReport(cfg);
    var w := ThreeExit(cfg, v);
    EvenIsWronglyMarked(cfg, w);
    assert WronglyMarked(cfg, limit, w);
  }

  lemma EvenIsWronglyMarked(cfg: Config, w: State)
    requires cfg.quorumSize >= 1 && cfg.cmpDistance > 0 && Reachable(cfg, w)
    requires SendsThree(w) && w.canon == ODD && 0 in Active(w)
    ensures !MarksHoldRecent(w)
  {
    hide Reachable;
    ReachIsInvariant(cfg, w);
    ActiveIsMarked(w, 0);
    assert w.canon[2] != w.replays[0].log[2];
  }

  /** No reachable state is marked wrongly when nothing is compared or every growth is unanimous. */
  lemma NeverWronglyMarked(cfg: Config, limit: nat, v: State)
    requires cfg.quorumSize >= 1 && (cfg.quorumSize <= 2 || limit <= 2 || cfg.cmpDistance == 0)
    ensures !WronglyMarked(cfg, limit, v)
  {
    hide MarksHoldRecent;
    if WronglyMarked(cfg, limit, v) {
      if cfg.cmpDistance == 0 {
        NothingIsMarked(cfg, v);
      } else {
        CanonIsShort(cfg, v, limit);
        ReachIsInvariant(cfg, v);
        var run :| IsRun(cfg, run) && Last(run) == v;
        RecentDataMatches(cfg, run);
      }
    }
  }

  /**
   * Whatever bound on the length of a replay is given: in all reachable states every replay that has
   * not been dropped holds the last `cmpDistance` bytes of C up to its mark if and only if the quorum
   * size is at most two, or no replay is longer than two bytes, or comparisons are switched off.
   */
  lemma MarksAreTrueExactlyWhen(cfg: Config, limit: nat)
    requires cfg.quorumSize >= 1 && limit <= USIZE_MAX
    ensures (forall v :: !WronglyMarked(cfg, limit, v)) <==>
            (cfg.quorumSize <= 2 || limit <= 2 || cfg.cmpDistance == 0)
  {
    if cfg.quorumSize >= 3 && limit >= 3 && cfg.cmpDistance > 0 {
      ThreeAreWronglyMarked(cfg, limit);
    } else {
      forall v ensures !WronglyMarked(cfg, limit, v) {
        NeverWronglyMarked(cfg, limit, v);
      }
    }
  }

  // ---- Support ----

  /** C grows without support in the last step of a run of replays no longer than `limit`. */
  ghost predicate GrowsAlone(cfg: Config, limit: nat, run: seq<State>) {
    && IsRun(cfg, run) && Short(Last(run), limit) && |run| > 1
    && Last(run).canon != run[|run| - 2].canon && !Supported(run[|run| - 2], Last(run).canon)
  }

  /** Only one replay of a group of three holds all that is appended. */
  lemma OddIsAlone(v: State)
    requires v.cfg.quorumSize >= 3 && SendsThree(v) && AllWantZero(v) && v.canon == []
    ensures !Supported(v, ODD)
  {
    var group := Group(v.mode.cand, 0);
    assert group == {0, 1, 2};
    assert !Agree(EVEN, ODD, 0, 3) by { assert EVEN[2] != ODD[2]; }
    forall ids | AllHold(v, ids, ODD, 0) ensures |ids| <= 1 {
      assert ids <= {1};
      SubsetIsSmaller(ids, {1});
    }
  }

  lemma ThreeGrowAlone(cfg: Config, limit: nat)
    requires cfg.quorumSize >= 3 && limit >= 3
    ensures exists run :: GrowsAlone(cfg, limit, run)
  {
    hide Supported;
    hide ShouldChange;
    hide Step;
    var v := AllReport(cfg);
    var w := ThreeExit(cfg, v);
    OddIsAlone(v);
    var run :| IsRun(cfg, run) && Last(run) == v;
    RunSnoc(cfg, run, w);
    assert GrowsAlone(cfg, limit, run + [w]);
  }

  /**
   * Whatever bound on the length of a replay is given: C never grows without support if and only if the
   * quorum size is at most two or no replay is longer than two bytes.
   */
  lemma SupportedExactlyWhen(cfg: Config, limit: nat)
    requires cfg.quorumSize >= 1 && limit <= USIZE_MAX
    ensures (forall run :: !GrowsAlone(cfg, limit, run)) <==> (cfg.quorumSize <= 2 || limit <= 2)
  {
    if cfg.quorumSize >= 3 && limit >= 3 {
      ThreeGrowAlone(cfg, limit);
    } else {
      forall run ensures !GrowsAlone(cfg, limit, run) {
        if GrowsAlone(cfg, limit, run) {
          assert Reachable(cfg, Last(run));
          CanonIsShort(cfg, Last(run), limit);
          CanonGrowsWithSupport(cfg, run, |run| - 1);
        }
      }
    }
  }
}
