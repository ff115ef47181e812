/** Merging moves on: a switch that is due can be made, and a settled state waits for someone. */
module QuorumProgress {
  import opened Bytes
  import opened QuorumInvariant
  import opened QuorumLimits
  import opened QuorumMachine
  import opened QuorumMatching
  import opened QuorumTheorems

  // ---- There is always a choice ----

  lemma RanksCompare(v: State, a: byte, b: byte, c: byte)
    requires v.mode.Stalemate? && v.mode.cand.Keys <= v.replays.Keys
    ensures RankAtMost(v, a, b) || RankAtMost(v, b, a)
    ensures RankAtMost(v, a, b) && RankAtMost(v, b, c) ==> RankAtMost(v, a, c)
  {
    hide Group;
    hide Longest;
  }

  /** Among the bytes below `n` that candidates want there is a best one. */
  lemma {:induction false} BestBelow(v: State, n: nat, wanted: byte) returns (b: byte)
    requires v.mode.Stalemate? && v.mode.cand.Keys <= v.replays.Keys
    requires wanted < n <= 256 && Group(v.mode.cand, wanted) != {}
    ensures Group(v.mode.cand, b) != {}
    ensures forall a: byte :: a < n && Group(v.mode.cand, a) != {} ==> RankAtMost(v, a, b)
  {
    hide RankAtMost;
    var last: byte := n - 1;
    RanksCompare(v, last, last, last);
    if other: byte :| other < last && Group(v.mode.cand, other) != {} {
      b := BestBelow(v, n - 1, other);
      if Group(v.mode.cand, last) != {} && RankAtMost(v, b, last) {
        forall a: byte | a < n && Group(v.mode.cand, a) != {} ensures RankAtMost(v, a, last) {
          RanksCompare(v, a, b, last);
        }
        b := last;
      } else {
        RanksCompare(v, last, b, b);
      }
    } else {
      b := last;
    }
  }

  ghost predicate NoneLongerLeft(replays: map<nat, Replay>, group: set<nat>, taken: set<nat>)
    requires group <= replays.Keys && taken <= group
  {
    forall i, j :: i in taken && j in group - taken ==> |replays[j].log| <= |replays[i].log|
  }

  lemma LongestIn(replays: map<nat, Replay>, ids: set<nat>) returns (id: nat)
    requires ids != {} && ids <= replays.Keys
    ensures id in ids && forall i :: i in ids ==> |replays[i].log| <= |replays[id].log|
  {
    var n := Longest(replays, ids);
    assert forall i :: i in ids ==> |replays[i].log| <= n;
    id :| id in ids && |replays[id].log| == n;
  }

  lemma NothingTaken(replays: map<nat, Replay>, group: set<nat>)
    requires group <= replays.Keys
    ensures NoneLongerLeft(replays, group, {})
  {
  }

  lemma NextIsTaken(replays: map<nat, Replay>, group: set<nat>, taken: set<nat>, id: nat)
    requires group <= replays.Keys && taken <= group && id in group - taken
    requires NoneLongerLeft(replays, group, taken)
    requires forall i :: i in group - taken ==> |replays[i].log| <= |replays[id].log|
    ensures NoneLongerLeft(replays, group, taken + {id})
  {
  }

  lemma {:induction false} LongestOfGroup(replays: map<nat, Replay>, group: set<nat>, k: nat) returns (taken: set<nat>)
    requires group <= replays.Keys && k <= |group|
    ensures taken <= group && |taken| == k && NoneLongerLeft(replays, group, taken)
    decreases k
  {
    hide NoneLongerLeft;
    if k == 0 {
      NothingTaken(replays, group);
      taken := {};
    } else {
      var fewer := LongestOfGroup(replays, group, k - 1);
      var rest := group - fewer;
      assert fewer + rest == group && |fewer| + |rest| == |group|;
      var id := LongestIn(replays, rest);
      taken := fewer + {id};
      NextIsTaken(replays, group, fewer, id);
    }
  }

  lemma {:induction false} ShortestOf(replays: map<nat, Replay>, ids: set<nat>) returns (id: nat)
    requires ids != {} && ids <= replays.Keys
    ensures id in ids && forall i :: i in ids ==> |replays[id].log| <= |replays[i].log|
    decreases |ids|
  {
    id :| id in ids;
    if ids != {id} {
      var other := ShortestOf(replays, ids - {id});
      id := if |replays[id].log| <= |replays[other].log| then id else other;
    }
  }

  lemma {:induction false} ListedAfter(first: nat, ids: set<nat>) returns (order: seq<nat>)
    requires first !in ids
    ensures order != [] && order[0] == first && Distinct(order) && Elements(order) == {first} + ids
    decreases |ids|
  {
    hide Elements;
    hide Distinct;
    if ids == {} {
      order := [first];
      JustOne(first);
    } else {
      var id :| id in ids;
      var fewer := ListedAfter(first, ids - {id});
      order := fewer + [id];
      ElementsSnoc(fewer, id);
      DistinctSnoc(fewer, id);
      assert {first} + (ids - {id}) + {id} == {first} + ids;
    }
  }

  lemma JustOne(id: nat)
    ensures Elements([id]) == {id} && Distinct([id])
  {
    assert [id][0] == id;
  }

  lemma DistinctSnoc(order: seq<nat>, id: nat)
    requires Distinct(order) && id !in Elements(order)
    ensures Distinct(order + [id])
  {
  }

  /** Longest members of the best group, a shortest of them first, make a valid choice. */
  lemma ArrangedIsValid(v: State, best: byte, members: set<nat>, order: seq<nat>)
    requires Core(v) && v.mode.Stalemate? && IsBest(v, best)
    requires members <= Group(v.mode.cand, best)
    requires |members| == Min(|Group(v.mode.cand, best)|, v.cfg.quorumSize)
    requires NoneLongerLeft(v.replays, Group(v.mode.cand, best), members)
    requires order != [] && Distinct(order) && Elements(order) == members
    requires forall i :: i in members ==> order[0] in v.replays && |v.replays[order[0]].log| <= |v.replays[i].log|
    ensures ValidChoice(v, Choice(best, order, order[0]))
  {
    hide IsBest;
    hide QuorumPrefix;
    ElementsCount(order);
    assert forall id :: id in members ==> CandidateOk(v.canon, v.replays[id], v.mode.cand[id]);
    QuorumPrefixInRange(v.replays, order, |v.canon| + 1);
  }

  /** A stalemate with candidates can be resolved, whatever has to be decided. */
  lemma ThereIsAChoice(v: State)
    requires Core(v) && v.mode.Stalemate? && v.mode.cand != map[]
    ensures exists c :: ValidChoice(v, c)
  {
    hide IsBest;
    hide ValidChoice;
    hide SetsOk;
    var wanted := SomeoneWants(v);
    var best := BestBelow(v, 256, wanted);
    BestOfAll(v, best);
    var group := Group(v.mode.cand, best);
    var members := LongestOfGroup(v.replays, group, Min(|group|, v.cfg.quorumSize));
    assert members != {};
    var first := ShortestOf(v.replays, members);
    var order := ListedAfter(first, members - {first});
    assert {first} + (members - {first}) == members;
    ArrangedIsValid(v, best, members, order);
  }

  lemma SomeoneWants(v: State) returns (b: byte)
    requires v.mode.Stalemate? && v.mode.cand != map[]
    ensures Group(v.mode.cand, b) != {}
  {
    var id :| id in v.mode.cand;
    b := v.mode.cand[id];
    assert id in Group(v.mode.cand, b);
  }

  lemma BestOfAll(v: State, b: byte)
    requires v.mode.Stalemate? && v.mode.cand.Keys <= v.replays.Keys && Group(v.mode.cand, b) != {}
    requires forall a: byte :: a < 256 && Group(v.mode.cand, a) != {} ==> RankAtMost(v, a, b)
    ensures IsBest(v, b)
  {
  }

  lemma DueSwitchIsPossible(v: State)
    requires Core(v) && !v.canonFinished && ShouldChange(v)
    ensures exists w :: Step(v, w)
  {
    if v.mode.Quorum? {
      assert Takes(v, Switch, EnterStalemate(v));
      assert Step(v, EnterStalemate(v));
    } else {
      ThereIsAChoice(v);
      var c :| ValidChoice(v, c);
      assert Takes(v, Switch, ExitStalemate(v, c));
      assert Step(v, ExitStalemate(v, c));
    }
  }

  /** A switch that is due can be made in every reachable state if and only if a quorum has members. */
  lemma NeverStuckExactlyWhen(cfg: Config)
    ensures (forall v :: !Stuck(cfg, v)) <==> cfg.quorumSize >= 1
  {
    if cfg.quorumSize == 0 {
      ZeroQuorumIsStuck(cfg);
    } else {
      forall v ensures !Stuck(cfg, v) {
        if Stuck(cfg, v) {
          ReachIsInvariant(cfg, v);
          DueSwitchIsPossible(v);
        }
      }
    }
  }

  // ---- What a settled state waits for ----

  /** A replay that holds all of C and is shown past its end is a candidate, under its next byte. */
  lemma MatchingIsCandidate(v: State, id: nat)
    requires Inv(v) && v.mode.Stalemate? && id in v.replays
    requires v.canon <= v.replays[id].log && |v.canon| < v.replays[id].delayed
    ensures id in v.mode.cand && |v.canon| < |v.replays[id].log| && v.mode.cand[id] == v.replays[id].log[|v.canon|]
  {
    assert ReplayOk(|v.canon|, v.replays[id]);
    assert id in v.reserve ==> Lags(|v.canon|, v.replays[id]);
    assert Dropped(v, id) ==> Refuted(v.canon, v.replays[id]);
    assert id in v.mode.cand;
    assert CandidateOk(v.canon, v.replays[id], v.mode.cand[id]);
  }

  /** All of `ids` hold C followed by `b`, and are shown past the end of C. */
  ghost predicate Agreed(v: State, ids: set<nat>, b: byte) {
    ids <= v.replays.Keys &&
    forall id :: id in ids ==> v.canon + [b] <= v.replays[id].log && |v.canon| < v.replays[id].delayed
  }

  lemma AgreedAreGrouped(v: State, ids: set<nat>, b: byte)
    requires Inv(v) && v.mode.Stalemate? && Agreed(v, ids, b)
    ensures ids <= Group(v.mode.cand, b)
  {
    hide SetsOk;
    forall id | id in ids ensures id in Group(v.mode.cand, b) {
      assert v.canon <= v.canon + [b] && (v.canon + [b])[|v.canon|] == b;
      MatchingIsCandidate(v, id);
    }
  }

  /** So replays that agree are too few, and some other one lags behind. */
  lemma AgreedAreFew(v: State, ids: set<nat>, b: byte)
    requires Inv(v) && !ShouldChange(v) && v.mode.Stalemate? && Agreed(v, ids, b)
    ensures |ids| < v.cfg.quorumSize
    ensures ids != {} ==> exists id :: id in v.reserve && id in v.replays && Lags(|v.canon|, v.replays[id])
  {
    hide SetsOk;
    AgreedAreGrouped(v, ids, b);
    SubsetIsSmaller(ids, Group(v.mode.cand, b));
    if ids != {} {
      var id :| id in ids;
      assert id in Group(v.mode.cand, b);
      assert v.started;
    }
  }

  /** Some member of a settled quorum is not yet shown up to the end of C. */
  lemma SomeMemberIsBehind(v: State)
    requires Inv(v) && !ShouldChange(v) && v.mode.Quorum?
    ensures exists id :: id in v.mode.members && id in v.replays && v.replays[id].delayed < |v.canon|
  {
    var id :| id in v.mode.members && v.replays[id].delayed == LeastDelayed(v.replays, v.mode.members);
  }

  /**
   * Between callbacks merging waits only for a reason. In a quorum some member has not been shown up to
   * the end of C. In a stalemate all replays that agree on C and its next byte and are shown past its end
   * are fewer than a quorum needs, and if there are any, some replay that may still catch up is awaited.
   */
  lemma SettledWaits(cfg: Config, run: seq<State>)
    requires cfg.quorumSize >= 1 && IsRun(cfg, run) && !ShouldChange(Last(run))
    ensures var v := Last(run);
            v.mode.Quorum? ==>
              exists id :: id in v.mode.members && id in v.replays && v.replays[id].delayed < |v.canon|
    ensures var v := Last(run);
            v.mode.Stalemate? ==>
              forall ids, b :: Agreed(v, ids, b) ==>
                && |ids| < cfg.quorumSize
                && (ids != {} ==> exists id :: id in v.reserve && id in v.replays && Lags(|v.canon|, v.replays[id]))
  {
    hide Inv;
    hide ShouldChange;
    hide Agreed;
    var v := Last(run);
    RunInvariant(cfg, run);
    if v.mode.Quorum? {
      SomeMemberIsBehind(v);
    } else {
      forall ids, b | Agreed(v, ids, b)
        ensures |ids| < cfg.quorumSize
        ensures ids != {} ==> exists id :: id in v.reserve && id in v.replays && Lags(|v.canon|, v.replays[id])
      {
        AgreedAreFew(v, ids, b);
      }
    }
  }

  /**
   * In a stalemate, as far as replays have been shown: those that lag are open, and candidates are exactly
   * those that match C and are longer. That all candidates match takes a quorum size and a comparison
   * distance that suffice; that all that match are candidates does not.
   */
  lemma CandidatesAreExactly(cfg: Config, run: seq<State>, id: nat)
    requires cfg.quorumSize >= 1 && IsRun(cfg, run) && Last(run).mode.Stalemate? && id in Last(run).replays
    ensures var (v, r) := (Last(run), Last(run).replays[id]);
            && (id in v.reserve ==> Lags(|v.canon|, r))
            && (v.canon <= r.log && |v.canon| < r.delayed ==> id in v.mode.cand)
            && ((cfg.quorumSize <= 2 || |v.canon| <= 2) && Short(v, cfg.cmpDistance + 1) ==>
                  (id in v.mode.cand ==> v.canon < r.log))
  {
    var (v, r) := (Last(run), Last(run).replays[id]);
    RunInvariant(cfg, run);
    if v.canon <= r.log && |v.canon| < r.delayed {
      MatchingIsCandidate(v, id);
    }
    if id in v.mode.cand && (cfg.quorumSize <= 2 || |v.canon| <= 2) && Short(v, cfg.cmpDistance + 1) {
      WholeCanonMatches(cfg, run);
      assert CandidateOk(v.canon, r, v.mode.cand[id]);
    }
  }
}
