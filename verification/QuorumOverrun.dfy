/** Why a quorum of three or more may append bytes that not all members hold; exactly when C is one sent replay. */
module QuorumOverrun {
  import opened Bytes
  import opened CommonPrefix
  import opened QuorumMachine
  import opened QuorumInvariant
  import opened QuorumMatching
  import opened QuorumLimits

  // Three replays: the shortest is compared with the second (they differ at position 2), then with
  // the third, where the comparison runs past that difference to the end of the chunk.
  const SHORT: seq<byte> := [0, 0, 0]
  const SECOND: seq<byte> := [0, 0, 1, 5]
  const THIRD: seq<byte> := [0, 0, 0, 7]

  ghost predicate SendsThese(v: State) {
    && v.replays.Keys == {0, 1, 2} && v.token == 3
    && v.replays[0].log == SHORT && v.replays[1].log == SECOND && v.replays[2].log == THIRD
  }

  ghost predicate ThreeCaughtUp(v: State) {
    CaughtUp(v, 0) && CaughtUp(v, 1) && CaughtUp(v, 2)
  }

  const ORDER: seq<nat> := [0, 1, 2]

  lemma OrderElements()
    ensures Elements(ORDER) == {0, 1, 2} && Elements([0, 1]) == {0, 1} && Elements([0]) == {0}
    ensures |ORDER| == 3 && ORDER[..2] == [0, 1] && [0, 1][..1] == [0]
    ensures Distinct(ORDER)
  {
    ElementsSnoc([], 0);
    ElementsSnoc([0], 1);
    ElementsSnoc([0, 1], 2);
    assert [] + [0] == [0] && [0] + [1] == [0, 1] && [0, 1] + [2] == ORDER;
    assert Elements([]) == {};
  }

  lemma PrefixOverruns(replays: map<nat, Replay>)
    requires {0, 1, 2} <= replays.Keys
    requires replays[0].log == SHORT && replays[1].log == SECOND && replays[2].log == THIRD
    ensures Elements(ORDER) == {0, 1, 2} && QuorumPrefix(replays, ORDER, 1) == 3
  {
    OrderElements();
    MatchEndUnique(SHORT, SECOND, 1, 3, 2);
    assert QuorumPrefix(replays, [0, 1], 1) == 2;
    MatchEndUnique(SHORT, THIRD, 1, 3, 3);
  }

  lemma OnlyGroupIsBest(v: State, b: byte)
    requires v.mode.Stalemate? && v.mode.cand.Keys <= v.replays.Keys && v.mode.cand != map[]
    requires forall id :: id in v.mode.cand ==> v.mode.cand[id] == b
    ensures IsBest(v, b) && Group(v.mode.cand, b) == v.mode.cand.Keys
  {
    var id :| id in v.mode.cand;
    assert id in Group(v.mode.cand, b);
    assert forall a: byte :: a != b ==> Group(v.mode.cand, a) == {};
  }

  /** All candidates agree on the next byte and fit into one quorum. */
  lemma WholeGroupIsValid(v: State, c: Choice)
    requires WellFormed(v) && v.mode.Stalemate? && IsBest(v, c.best)
    requires c.order != [] && Distinct(c.order) && Elements(c.order) == Group(v.mode.cand, c.best)
    requires |c.order| == |Elements(c.order)| <= v.cfg.quorumSize
    requires forall i :: i in Elements(c.order) ==> |v.replays[c.order[0]].log| <= |v.replays[i].log|
    requires c.source in Elements(c.order) && Appendable(v, c)
    ensures ValidChoice(v, c)
  {
  }

  ghost predicate AllWantZero(v: State) {
    v.mode == Stalemate(map[0 := 0, 1 := 0, 2 := 0])
  }

  lemma ZeroIsBest(v: State)
    requires WellFormed(v) && AllWantZero(v)
    ensures IsBest(v, 0) && Group(v.mode.cand, 0) == {0, 1, 2}
  {
    assert v.mode.cand.Keys == {0, 1, 2};
    OnlyGroupIsBest(v, 0);
  }

  const CHOICE: Choice := Choice(0, ORDER, 1)

  /** The three replays are compared in order, and their prefix turns out to be three bytes. */
  ghost predicate ThreeCompared(v: State) {
    && v.replays.Keys == {0, 1, 2} && v.canon == [] && Elements(ORDER) == {0, 1, 2}
    && QuorumPrefix(v.replays, ORDER, 1) == 3 <= |v.replays[1].log|
    && |v.replays[0].log| <= |v.replays[1].log| && |v.replays[0].log| <= |v.replays[2].log|
  }

  lemma ThreeChoice(v: State)
    requires WellFormed(v) && v.cfg.quorumSize >= 3 && AllWantZero(v) && ThreeCompared(v)
    ensures Elements(ORDER) == Group(v.mode.cand, 0) && ValidChoice(v, CHOICE)
    ensures QuorumPrefix(v.replays, ORDER, |v.canon| + 1) == 3
  {
    hide QuorumPrefix;
    OrderElements();
    ZeroIsBest(v);
    WholeGroupIsValid(v, CHOICE);
  }

  lemma ThreeCanon(v: State, c: Choice)
    requires WellFormed(v) && v.mode.Stalemate? && ValidChoice(v, c)
    requires v.canon == [] && c.best == 0 && QuorumPrefix(v.replays, c.order, |v.canon| + 1) == 3
    ensures 3 <= |v.replays[c.source].log| && Canon2(v, c) == [0] + v.replays[c.source].log[1..3]
  {
    hide IsBest;
    hide QuorumPrefix;
  }

  /** The members `SHORT` and `THIRD` end up marked as matching a C that they contradict. */
  lemma OverrunExit(v: State) returns (w: State)
    requires WellFormed(v) && v.cfg.quorumSize >= 3 && v.started && SendsThese(v) && ThreeCaughtUp(v)
    requires AllWantZero(v) && v.reserve == {} && v.canon == []
    ensures Flip(v, w) && SameStreams(v, w) && w.canonDelayed >= 3
    ensures w == v.(replays := w.replays, canon := [0, 0, 1], canonDelayed := w.canonDelayed,
                    mode := Quorum({0, 1, 2}))
  {
    hide IsBest;
    hide CanExitStalemate;
    hide Group;
    hide Elements;
    hide ExitStalemate;
    OverrunCanExit(v);
    PrefixOverruns(v.replays);
    ThreeChoice(v);
    w := ExitStalemate(v, CHOICE);
    ExitOfAll(v, CHOICE);
    ThreeCanon(v, CHOICE);
    assert [0] + SECOND[1..3] == [0, 0, 1];
    DelayedOfThree(v);
  }

  lemma OverrunCanExit(v: State)
    requires WellFormed(v) && v.started && AllWantZero(v) && v.reserve == {}
    ensures CanExitStalemate(v)
  {
    assert 0 in v.mode.cand;
  }

  lemma DelayedOfThree(v: State)
    requires WellFormed(v) && SendsThese(v) && ThreeCaughtUp(v)
    ensures {0, 1, 2} <= v.replays.Keys && LeastDelayed(v.replays, {0, 1, 2}) == 3
  {
    LeastOfThree(v.replays);
  }

  lemma ExitOfAll(v: State, c: Choice)
    requires WellFormed(v) && v.mode.Stalemate? && ValidChoice(v, c)
    requires v.reserve == {} && Elements(c.order) == Group(v.mode.cand, c.best)
    ensures var w := ExitStalemate(v, c);
            w == v.(replays := w.replays, canon := Canon2(v, c), canonDelayed := w.canonDelayed,
                    mode := Quorum(Elements(c.order)))
    ensures var (w, n) := (ExitStalemate(v, c), LeastDelayed(v.replays, Elements(c.order)));
            w.canonDelayed == Max(v.canonDelayed, Min(|w.canon|, n))
  {
    assert ExitStalemate(v, c).reserve == {};
  }

  lemma LeastOfThree(replays: map<nat, Replay>)
    requires {0, 1, 2} <= replays.Keys
    requires replays[0].delayed == 3 && replays[1].delayed == 4 && replays[2].delayed == 4
    ensures LeastDelayed(replays, {0, 1, 2}) == 3
  {
  }

  lemma OverrunVerdicts(cfg: Config, canon: seq<byte>, r: Replay)
    requires canon == [0, 0, 1] && r.matched == 3
    ensures r.log == SHORT && !r.finished ==> Judge(cfg, canon, r) == Stay
    ensures r.log == SECOND ==> Judge(cfg, canon, r) == Candidate(5)
    ensures r.log == THIRD ==> Judge(cfg, canon, r) == Candidate(7)
  {
  }

  lemma OverrunPlace(v: State)
    requires WellFormed(v) && v.mode == Stalemate(map[]) && v.reserve == {0, 1, 2}
    requires Judge(v.cfg, v.canon, v.replays[0]) == Stay
    requires Judge(v.cfg, v.canon, v.replays[1]) == Candidate(5)
    requires Judge(v.cfg, v.canon, v.replays[2]) == Candidate(7)
    ensures Place(v, {0, 1, 2}) ==
            v.(replays := Place(v, {0, 1, 2}).replays, mode := Stalemate(map[1 := 5, 2 := 7]), reserve := {0})
  {
    hide Judge;
    hide Placed;
    var w := Place(v, {0, 1, 2});
    assert w.mode.cand == map[1 := 5, 2 := 7];
    assert w.reserve == {0};
  }

  /** Back in a stalemate, nothing before position 3 is looked at again. */
  lemma OverrunEnter(v: State) returns (w: State)
    requires Core(v) && SendsThese(v) && ThreeCaughtUp(v) && HasToEnterStalemate(v)
    requires v.canon == [0, 0, 1] && v.mode == Quorum({0, 1, 2}) && v.reserve == {}
    ensures Flip(v, w) && SameStreams(v, w)
    ensures w == v.(replays := w.replays, mode := Stalemate(map[1 := 5, 2 := 7]), reserve := {0})
  {
    forall id | id in v.mode.members ensures v.replays[id].matched == 3 {
      assert MemberOk(v.canon, v.replays[id]);
    }
    OverrunVerdicts(v.cfg, v.canon, v.replays[0]);
    OverrunVerdicts(v.cfg, v.canon, v.replays[1]);
    OverrunVerdicts(v.cfg, v.canon, v.replays[2]);
    var u := v.(mode := Stalemate(map[]), reserve := {0, 1, 2});
    OverrunPlace(u);
    assert v.reserve + v.mode.members == {0, 1, 2};
    w := EnterStalemate(v);
  }

  lemma TwoGroups(v: State)
    requires v.mode == Stalemate(map[1 := 5, 2 := 7]) && SendsThese(v)
    ensures Group(v.mode.cand, 7) == {2} && IsBest(v, 7)
    ensures forall b: byte :: |Group(v.mode.cand, b)| <= 1
  {
    assert Group(v.mode.cand, 5) == {1};
    assert forall b: byte :: b != 5 && b != 7 ==> Group(v.mode.cand, b) == {};
    LongestOf(v.replays, 1);
    LongestOf(v.replays, 2);
  }

  lemma LongestOf(replays: map<nat, Replay>, id: nat)
    requires id in replays
    ensures Longest(replays, {id}) == |replays[id].log|
  {
  }

  // ---- The run ----

  lemma ThreeJoin(cfg: Config) returns (w: State)
    requires cfg.quorumSize >= 1
    ensures Waiting(cfg, w, map[], {0, 1, 2}) && w.canon == [] && w.token == 3
    ensures w.replays.Keys == {0, 1, 2}
    ensures forall id :: id in w.replays ==> w.replays[id] == Replay([], 0, 0, false, 0)
  {
    InitIsReachable(cfg);
    var u := AddCall(Init(cfg));
    ReachStep(cfg, Init(cfg), Add, u);
    var v := AddCall(u);
    ReachStep(cfg, u, Add, v);
    w := AddCall(v);
    ReachStep(cfg, v, Add, w);
  }

  lemma ThreeSend(cfg: Config) returns (w: State)
    requires cfg.quorumSize >= 1
    ensures Waiting(cfg, w, map[], {0, 1, 2}) && w.canon == [] && SendsThese(w)
    ensures Open(w, 0) && Open(w, 1) && Open(w, 2)
  {
    var v := ThreeJoin(cfg);
    var x := Send(cfg, v, 0, SHORT);
    var y := Send(cfg, x, 1, SECOND);
    w := Send(cfg, y, 2, THIRD);
    assert [] + SHORT == SHORT && [] + SECOND == SECOND && [] + THIRD == THIRD;
  }

  lemma ThreeReport(cfg: Config) returns (w: State)
    requires cfg.quorumSize >= 3
    ensures Reachable(cfg, w) && WellFormed(w) && w.cfg == cfg && !w.canonFinished && w.started
    ensures AllWantZero(w) && w.reserve == {} && w.canon == []
    ensures SendsThese(w) && ThreeCaughtUp(w)
  {
    var v := ThreeSend(cfg);
    var x := Report(cfg, v, 0, 0);
    assert forall b: byte :: Group(x.mode.cand, b) <= {0};
    FewCandidates(x, {0});
    assert x.reserve == {1, 2};
    var y := Report(cfg, x, 1, 0);
    assert forall b: byte :: Group(y.mode.cand, b) <= {0, 1};
    FewCandidates(y, {0, 1});
    assert y.reserve == {2};
    w := Report(cfg, y, 2, 0);
    assert w.reserve == {};
  }

  lemma FewCandidates(v: State, ids: set<nat>)
    requires v.mode.Stalemate? && v.reserve != {} && |ids| < v.cfg.quorumSize
    requires forall b: byte :: Group(v.mode.cand, b) <= ids
    ensures !CanExitStalemate(v)
  {
    forall b: byte ensures |Group(v.mode.cand, b)| <= |ids| {
      SubsetIsSmaller(Group(v.mode.cand, b), ids);
    }
  }

  lemma OverrunQuorum(cfg: Config) returns (w: State)
    requires cfg.quorumSize >= 3
    ensures Reachable(cfg, w) && WellFormed(w) && w.cfg == cfg && !w.canonFinished && w.started
    ensures w.canon == [0, 0, 1] && w.canonDelayed >= 3 && w.mode == Quorum({0, 1, 2}) && w.reserve == {}
    ensures SendsThese(w) && ThreeCaughtUp(w)
  {
    var v := ThreeReport(cfg);
    w := OverrunExit(v);
    ReachStep(cfg, v, Switch, w);
  }

  lemma OverrunReturns(cfg: Config) returns (w: State)
    requires cfg.quorumSize >= 3
    ensures Reachable(cfg, w) && WellFormed(w) && w.cfg == cfg && !w.canonFinished && w.started
    ensures w.mode == Stalemate(map[1 := 5, 2 := 7]) && w.reserve == {0} && w.canon == [0, 0, 1]
    ensures SendsThese(w) && ThreeCaughtUp(w)
  {
    var v := OverrunQuorum(cfg);
    ReachIsInvariant(cfg, v);
    w := OverrunEnter(v);
    ReachStep(cfg, v, Switch, w);
  }

  /** Both longer replays are candidates now, although one of them contradicts C. */
  lemma OverrunHappens(cfg: Config) returns (w: State)
    requires cfg.quorumSize >= 3
    ensures Waiting(cfg, w, map[1 := 5, 2 := 7], {0}) && w.started && w.canon == [0, 0, 1]
    ensures SendsThese(w) && ThreeCaughtUp(w)
  {
    w := OverrunReturns(cfg);
    TwoGroups(w);
  }

  /** The shortest ends, and the larger of the two next bytes wins. */
  lemma OverrunMerges(cfg: Config) returns (w: State)
    requires cfg.quorumSize >= 3
    ensures Idle(cfg, w, {2}) && w.canon == [0, 0, 1, 7] && SendsThese(w)
    ensures CaughtUp(w, 1) && CaughtUp(w, 2) && w.replays[0].finished
  {
    var v := OverrunHappens(cfg);
    var u := EndCall(Finished(v, 0), 0);
    ReachStep(cfg, v, Remove(0), u);
    ShortDrops(Finished(v, 0));
    TwoGroups(u);
    w := LoneRound(cfg, u, 2, 7);
    assert THIRD[3..] == [7];
  }

  lemma ShortDrops(v: State)
    requires WellFormed(v) && v.mode.Stalemate? && v.reserve == {0} && v.replays[0].finished
    requires |v.replays[0].log| <= |v.canon|
    ensures EndCall(v, 0) == v.(replays := EndCall(v, 0).replays, reserve := {})
  {
    assert Judge(v.cfg, v.canon, v.replays[0]).Drop?;
    assert EndCall(v, 0).mode.cand == v.mode.cand;
  }

  /** A quorum size above two: C may end up equal to none of the sent replays, for any distance. */
  lemma OverrunIsMerged(cfg: Config, limit: nat)
    requires cfg.quorumSize >= 3 && limit >= 4
    ensures exists run :: Fails(cfg, limit, run)
  {
    var v := OverrunMerges(cfg);
    var x := End(cfg, v, {2}, 2);
    assert {2} - {2} == {};
    var y := End(cfg, x, {}, 1);
    assert {} - {1} == {};
    var end := Close(cfg, y);
    assert end.canon[2] != THIRD[2] && end.canon[3] != SECOND[3] && |SHORT| == 3;
    var run :| IsRun(cfg, run) && Last(run) == end;
    assert Fails(cfg, limit, run);
  }

  /**
   * The exact condition: whatever bound on the length of a replay is given, every finished run leaves
   * C equal to one of the sent replays if and only if the comparison distance covers all but the last
   * byte of the longest replay and the quorum size is at most two, or no replay is longer than three.
   */
  lemma SentExactlyWhen(cfg: Config, limit: nat)
    requires cfg.quorumSize >= 1 && limit <= USIZE_MAX
    ensures (forall run :: !Fails(cfg, limit, run)) <==>
            (limit <= cfg.cmpDistance + 1 && (cfg.quorumSize <= 2 || limit <= 3))
  {
    if limit > cfg.cmpDistance + 1 {
      LateStrangerIsMerged(cfg, limit);
    } else if cfg.quorumSize >= 3 && limit >= 4 {
      OverrunIsMerged(cfg, limit);
    } else {
      forall run ensures !Fails(cfg, limit, run) {
        if Fails(cfg, limit, run) {
          CanonIsOneSentReplay(cfg, run);
        }
      }
    }
  }
}
