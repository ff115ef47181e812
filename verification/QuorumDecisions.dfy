/**
 * What the machine decides, in terms of logs, counts and positions alone: which bytes are compared, where a
 * replay goes, when and how a stalemate is resolved, when merging starts.
 */
module QuorumDecisions {
  import opened Bytes
  import opened CommonPrefix
  import opened QuorumInvariant
  import opened QuorumMachine
  import opened QuorumMatching
  import opened QuorumTheorems

  // ---- One replay ----

  /** A byte differs that is neither marked as compared before nor further back than the distance. */
  ghost predicate Differs(cfg: Config, canon: seq<byte>, r: Replay) {
    exists i :: r.matched <= i < |canon| <= i + cfg.cmpDistance && i < |r.log| && r.log[i] != canon[i]
  }

  lemma DivergesWhere(cfg: Config, canon: seq<byte>, r: Replay)
    requires |canon| <= |r.log|
    ensures Diverges(cfg, canon, r) <==> Differs(cfg, canon, r)
  {
  }

  /** No longer than C and open: it has to wait. */
  predicate Waits(canonLen: nat, r: Replay) {
    |r.log| <= canonLen && !r.finished
  }

  /** Longer than C, and no difference where the two are compared. */
  ghost predicate Fits(cfg: Config, canon: seq<byte>, r: Replay) {
    |canon| < |r.log| && !Differs(cfg, canon, r)
  }

  /** A replay that does neither is dropped. */
  lemma VerdictIs(cfg: Config, canon: seq<byte>, r: Replay)
    ensures Judge(cfg, canon, r).Stay? <==> Waits(|canon|, r)
    ensures Judge(cfg, canon, r).Candidate? <==> Fits(cfg, canon, r)
    ensures Judge(cfg, canon, r).Candidate? ==> Judge(cfg, canon, r).next == r.log[|canon|]
    ensures Judge(cfg, canon, r).Drop? <==>
            if |r.log| <= |canon| then r.finished else Differs(cfg, canon, r)
  {
    if |canon| < |r.log| { DivergesWhere(cfg, canon, r); }
  }

  /** All that is ever compared is still kept: of lagging replays, and what comes next of active ones. */
  lemma ComparedIsKept(cfg: Config, run: seq<State>, id: nat, i: nat)
    requires cfg.quorumSize >= 1 && IsRun(cfg, run) && id in Last(run).replays
    requires |Last(run).canon| <= i + cfg.cmpDistance
    ensures var r := Last(run).replays[id]; id in Last(run).reserve && r.matched <= i ==> r.window <= i
    ensures id in Active(Last(run)) ==> Last(run).replays[id].window <= |Last(run).canon|
  {
    var v := Last(run);
    RunInvariant(cfg, run);
    assert id in v.reserve ==> ReserveOk(cfg, |v.canon|, v.replays[id]);
    if id in Active(v) {
      assert v.mode.Stalemate? ==> CandidateOk(v.canon, v.replays[id], v.mode.cand[id]);
      assert v.mode.Quorum? ==> MemberOk(v.canon, v.replays[id]);
    }
  }

  /** Where a replay is found in a stalemate after it has been tried, and under which byte. */
  ghost predicate Filed(r: Replay, w: State, id: nat)
    requires w.mode.Stalemate?
  {
    && (id in w.reserve <==> Waits(|w.canon|, r))
    && (id in w.mode.cand <==> Fits(w.cfg, w.canon, r))
    && (id in w.mode.cand ==> w.mode.cand[id] == r.log[|w.canon|])
  }

  lemma PlacedWhere(v: State, ids: set<nat>, id: nat)
    requires WellFormed(v) && v.mode.Stalemate? && ids <= v.reserve && Active(v) !! v.reserve && id in ids
    ensures Filed(v.replays[id], Place(v, ids), id)
  {
    hide Judge;
    hide Placed;
    VerdictIs(v.cfg, v.canon, v.replays[id]);
  }

  /** A replay that is not tried stays where it was. */
  ghost predicate SamePlace(v: State, w: State, i: nat) {
    && (i in v.reserve <==> i in w.reserve) && (i in Active(v) <==> i in Active(w))
    && (v.mode.Stalemate? && w.mode.Stalemate? && i in v.mode.cand ==>
          i in w.mode.cand && w.mode.cand[i] == v.mode.cand[i])
  }

  lemma NotTried(v: State, ids: set<nat>, i: nat)
    requires WellFormed(v) && v.mode.Stalemate? && ids <= v.reserve && i !in ids
    ensures SamePlace(v, Place(v, ids), i)
  {
    hide Judge;
  }

  // ---- Reports ----

  /** What a report about the delayed position of a replay does, before any switch. */
  lemma ReportMeans(v: State, id: nat, n: nat, w: State)
    requires Core(v) && Takes(v, Tick(id, n), w)
    ensures w.canon == v.canon && forall i :: i != id ==> SamePlace(v, w, i)
    ensures w.mode.Stalemate? <==> v.mode.Stalemate?
    ensures v.mode.Stalemate? && id in v.reserve ==> Filed(v.replays[id], w, id)
    ensures !(v.mode.Stalemate? && id in v.reserve) ==> SamePlace(v, w, id)
    ensures w.started <==> v.started || (v.mode.Stalemate? && n > 0)
    ensures v.mode.Stalemate? || id !in v.mode.members ==> w.canonDelayed == v.canonDelayed
  {
    hide Place;
    hide SetsOk;
    var u := Delayed(v, id, n);
    if v.mode.Stalemate? && id in v.reserve {
      PlacedWhere(u, {id}, id);
      SameFate(u.cfg, u.canon, v.replays[id], u.replays[id]);
      forall i | i != id ensures SamePlace(v, w, i) {
        NotTried(u, {id}, i);
      }
      PlaceTouchesSetsOnly(u, {id});
    }
  }

  lemma PlaceTouchesSetsOnly(v: State, ids: set<nat>)
    requires v.mode.Stalemate? && ids <= v.replays.Keys
    ensures var w := Place(v, ids);
            && w.mode.Stalemate? && w.canon == v.canon && w.canonDelayed == v.canonDelayed
            && w.started == v.started && w.cfg == v.cfg
  {
  }

  lemma SameFate(cfg: Config, canon: seq<byte>, r: Replay, s: Replay)
    requires s.log == r.log && s.matched == r.matched && s.finished == r.finished
    ensures Waits(|canon|, r) <==> Waits(|canon|, s)
    ensures Fits(cfg, canon, r) <==> Fits(cfg, canon, s)
  {
    assert Differs(cfg, canon, r) <==> Differs(cfg, canon, s);
  }

  /** What the end of a replay does: one that still waits has no more data to come. */
  lemma EndMeans(v: State, id: nat, w: State)
    requires Core(v) && Takes(v, Remove(id), w)
    ensures w.canon == v.canon && w.canonDelayed == v.canonDelayed && w.started == v.started
    ensures w.mode.Stalemate? <==> v.mode.Stalemate?
    ensures forall i :: i != id ==> SamePlace(v, w, i)
    ensures v.mode.Stalemate? && id in v.reserve ==> Filed(v.replays[id].(finished := true), w, id)
    ensures !(v.mode.Stalemate? && id in v.reserve) ==> SamePlace(v, w, id)
  {
    hide Place;
    hide SetsOk;
    var u := Finished(v, id);
    if v.mode.Stalemate? && id in v.reserve {
      PlacedWhere(u, {id}, id);
      forall i | i != id ensures SamePlace(v, w, i) {
        NotTried(u, {id}, i);
      }
      PlaceTouchesSetsOnly(u, {id});
    }
  }

  /** Back in a stalemate, every replay of Q and Res has been tried. */
  lemma StalemateBegins(v: State, w: State)
    requires Core(v) && v.mode.Quorum? && Flip(v, w)
    ensures w.mode.Stalemate? && w.canon == v.canon && w.canonDelayed == v.canonDelayed == |v.canon|
    ensures forall id :: id in v.reserve + v.mode.members ==> Filed(v.replays[id], w, id)
    ensures forall id :: id !in v.reserve + v.mode.members ==> id !in Active(w) && id !in w.reserve
  {
    hide Place;
    hide SetsOk;
    var all := v.reserve + v.mode.members;
    var u := v.(mode := Stalemate(map[]), reserve := all);
    PlaceTouchesSetsOnly(u, all);
    forall id | id in all ensures Filed(v.replays[id], w, id) {
      PlacedWhere(u, all, id);
    }
    forall id | id !in all ensures id !in Active(w) && id !in w.reserve {
      NotTried(u, all, id);
    }
  }

  // ---- Resolving a stalemate ----

  /** Some candidate for `b` is at least as long as every candidate for `a`. */
  ghost predicate ReachesAsFar(v: State, b: byte, a: byte)
    requires v.mode.Stalemate? && v.mode.cand.Keys <= v.replays.Keys
  {
    exists i :: i in Group(v.mode.cand, b) &&
      forall j :: j in Group(v.mode.cand, a) ==> |v.replays[j].log| <= |v.replays[i].log|
  }

  /** `b` beats `a` by the number of its candidates, then by the longest of them, then by itself. */
  ghost predicate Beats(v: State, b: byte, a: byte)
    requires v.mode.Stalemate? && v.mode.cand.Keys <= v.replays.Keys
  {
    var (na, nb) := (|Group(v.mode.cand, a)|, |Group(v.mode.cand, b)|);
    na < nb || (na == nb && ReachesAsFar(v, b, a) && (ReachesAsFar(v, a, b) ==> a <= b))
  }

  lemma BestBeats(v: State, b: byte, a: byte)
    requires v.mode.Stalemate? && v.mode.cand.Keys <= v.replays.Keys && IsBest(v, b)
    requires Group(v.mode.cand, a) != {}
    ensures Beats(v, b, a)
  {
    hide Group;
    hide Longest;
    hide ReachesAsFar;
    assert RankAtMost(v, a, b);
    ReachIsLength(v, b, a);
    ReachIsLength(v, a, b);
  }

  lemma ReachIsLength(v: State, b: byte, a: byte)
    requires v.mode.Stalemate? && v.mode.cand.Keys <= v.replays.Keys && Group(v.mode.cand, b) != {}
    ensures ReachesAsFar(v, b, a) <==>
            Longest(v.replays, Group(v.mode.cand, a)) <= Longest(v.replays, Group(v.mode.cand, b))
  {
    var (ga, gb) := (Group(v.mode.cand, a), Group(v.mode.cand, b));
    var (la, lb) := (Longest(v.replays, ga), Longest(v.replays, gb));
    if la <= lb {
      var i :| i in gb && |v.replays[i].log| == lb;
      assert forall j :: j in ga ==> |v.replays[j].log| <= la;
      assert ReachesAsFar(v, b, a);
    } else {
      var j :| j in ga && |v.replays[j].log| == la;
      assert forall i :: i in gb ==> |v.replays[i].log| <= lb;
    }
  }

  /** The byte that C grows by first. */
  ghost predicate GrowsBy(v: State, w: State, b: byte) {
    v.canon + [b] <= w.canon
  }

  lemma ChosenByte(v: State, c: Choice, w: State)
    requires Core(v) && v.mode.Stalemate? && ValidChoice(v, c) && w == ExitStalemate(v, c)
    ensures GrowsBy(v, w, c.best) && forall b: byte :: GrowsBy(v, w, b) ==> b == c.best
    ensures w.mode == Quorum(Elements(c.order)) && w.canon == Canon2(v, c)
  {
    hide ValidChoice;
    hide Canon2;
    hide SetsOk;
    hide LeastDelayed;
    hide AfterExit;
    hide Elements;
    ExitExtendsCanon(v, c);
    FirstByte(v.canon, w.canon, c.best);
  }

  lemma FirstByte(canon: seq<byte>, more: seq<byte>, best: byte)
    requires canon <= more && |canon| < |more| && more[|canon|] == best
    ensures canon + [best] <= more && forall b: byte :: canon + [b] <= more ==> b == best
  {
    forall b: byte | canon + [b] <= more ensures b == best {
      assert (canon + [b])[|canon|] == b;
    }
  }

  /**
   * A stalemate is resolved only once merging has started, and either no replay is awaited or as many
   * replays as a quorum takes want the byte that wins; that byte beats every other one.
   */
  lemma StalemateEnds(v: State, w: State, b: byte)
    requires Core(v) && v.mode.Stalemate? && Flip(v, w) && GrowsBy(v, w, b)
    ensures v.started && Group(v.mode.cand, b) != {}
    ensures v.reserve == {} || |Group(v.mode.cand, b)| >= v.cfg.quorumSize
    ensures forall a: byte :: Group(v.mode.cand, a) != {} ==> Beats(v, b, a)
  {
    hide SetsOk;
    hide ExitStalemate;
    hide Group;
    hide Beats;
    var c :| ValidChoice(v, c) && w == ExitStalemate(v, c);
    ChosenByte(v, c, w);
    forall a: byte | Group(v.mode.cand, a) != {} ensures Beats(v, b, a) {
      BestBeats(v, b, a);
    }
    if v.reserve != {} {
      var a: byte :| |Group(v.mode.cand, a)| >= v.cfg.quorumSize;
      assert Group(v.mode.cand, a) != {};
      assert RankAtMost(v, a, b);
    }
  }

  /**
   * The quorum consists of as many candidates for that byte as it takes, none of them shorter than one
   * left out; those left out are kept in reserve, candidates for other bytes are dropped.
   */
  lemma QuorumIsFormed(v: State, w: State, b: byte)
    requires Core(v) && v.mode.Stalemate? && Flip(v, w) && GrowsBy(v, w, b)
    ensures w.mode.Quorum? && w.mode.members <= Group(v.mode.cand, b)
    ensures |w.mode.members| == Min(|Group(v.mode.cand, b)|, v.cfg.quorumSize)
    ensures forall i, j :: i in w.mode.members && j in Group(v.mode.cand, b) - w.mode.members ==>
              i in v.replays && j in v.replays && |v.replays[j].log| <= |v.replays[i].log|
    ensures w.reserve == v.reserve + (Group(v.mode.cand, b) - w.mode.members)
    ensures forall id :: id in v.mode.cand && v.mode.cand[id] != b ==> Dropped(w, id)
  {
    hide SetsOk;
    hide ValidChoice;
    hide ExitStalemate;
    hide GrowsBy;
    var c :| ValidChoice(v, c) && w == ExitStalemate(v, c);
    ChosenByte(v, c, w);
    MembersAreLongest(v, c);
    OthersAreLeft(v, c);
  }

  lemma MembersAreLongest(v: State, c: Choice)
    requires Core(v) && v.mode.Stalemate? && ValidChoice(v, c)
    ensures var (group, members) := (Group(v.mode.cand, c.best), Elements(c.order));
            && members <= group && |members| == Min(|group|, v.cfg.quorumSize)
            && forall i, j :: i in members && j in group - members ==>
                 i in v.replays && j in v.replays && |v.replays[j].log| <= |v.replays[i].log|
  {
    hide SetsOk;
    hide IsBest;
    hide QuorumPrefix;
    ElementsCount(c.order);
  }

  lemma OthersAreLeft(v: State, c: Choice)
    requires Core(v) && v.mode.Stalemate? && ValidChoice(v, c)
    ensures var (group, w) := (Group(v.mode.cand, c.best), ExitStalemate(v, c));
            && w.reserve == v.reserve + (group - Elements(c.order))
            && forall id :: id in v.mode.cand && v.mode.cand[id] != c.best ==> Dropped(w, id)
  {
    hide SetsOk;
    hide IsBest;
    hide Canon2;
    hide QuorumPrefix;
    hide LeastDelayed;
    hide AfterExit;
    var w := ExitStalemate(v, c);
    assert w.replays.Keys == v.replays.Keys;
  }

  /** All members hold the same bytes from `from` up to `n`. */
  ghost predicate MembersShare(v: State, members: set<nat>, from: nat, n: nat) {
    members <= v.replays.Keys &&
    forall i, j :: i in members && j in members ==> Agree(v.replays[i].log, v.replays[j].log, from, n)
  }

  lemma {:induction false} PrefixReaches(replays: map<nat, Replay>, order: seq<nat>, start: nat, n: nat)
    requires order != [] && Elements(order) <= replays.Keys && start <= n
    requires forall i :: i in Elements(order) ==> Agree(replays[order[0]].log, replays[i].log, start, n)
    ensures n <= QuorumPrefix(replays, order, start)
    decreases |order|
  {
    assert order[0] in Elements(order);
    if |order| > 1 {
      var last := |order| - 1;
      assert order[..last] + [order[last]] == order;
      ElementsSnoc(order[..last], order[last]);
      PrefixReaches(replays, order[..last], start, n);
      PrefixIsBytewise(replays[order[0]].log, replays[order[last]].log, start,
                       Some(QuorumPrefix(replays, order[..last], start)));
    }
  }

  /** C grows by data of one member, and stays within all of them. */
  lemma DataOfOneIsMerged(v: State, w: State)
    requires Core(v) && v.mode.Stalemate? && Flip(v, w)
    ensures w.mode.Quorum? && w.mode.members <= v.replays.Keys && |v.canon| < |w.canon|
    ensures forall id :: id in w.mode.members ==> |w.canon| <= |v.replays[id].log|
    ensures exists id :: id in w.mode.members && w.canon == v.canon + v.replays[id].log[|v.canon|..|w.canon|]
  {
    hide SetsOk;
    hide IsBest;
    hide Canon2;
    hide ExitStalemate;
    hide QuorumPrefix;
    var c :| ValidChoice(v, c) && w == ExitStalemate(v, c);
    ChosenByte(v, c, w);
    ExitExtendsCanon(v, c);
    SourceIsMerged(v, c);
  }

  /** It grows by everything that all members share, whatever their number. */
  lemma SharedDataIsMerged(v: State, w: State, n: nat)
    requires Core(v) && v.mode.Stalemate? && Flip(v, w)
    requires w.mode.Quorum? && MembersShare(v, w.mode.members, |v.canon|, n)
    ensures n <= |w.canon|
  {
    hide SetsOk;
    hide IsBest;
    hide Canon2;
    hide ExitStalemate;
    hide QuorumPrefix;
    var c :| ValidChoice(v, c) && w == ExitStalemate(v, c);
    ChosenByte(v, c, w);
    ExitExtendsCanon(v, c);
    if |v.canon| + 1 <= n {
      PrefixReaches(v.replays, c.order, |v.canon| + 1, n);
    }
  }

  /** One or two members share all that it grows by. */
  lemma MergedDataIsShared(v: State, w: State)
    requires Core(v) && v.mode.Stalemate? && Flip(v, w) && v.cfg.quorumSize <= 2
    ensures w.mode.Quorum? && MembersShare(v, w.mode.members, |v.canon|, |w.canon|)
  {
    hide SetsOk;
    hide IsBest;
    hide Canon2;
    hide ExitStalemate;
    hide QuorumPrefix;
    var c :| ValidChoice(v, c) && w == ExitStalemate(v, c);
    ChosenByte(v, c, w);
    UnanimousWhen(v, c);
    forall id | id in w.mode.members ensures Agree(v.replays[id].log, w.canon, |v.canon|, |w.canon|) {
      MembersHoldNewData(v, c, id);
    }
  }

  lemma SourceIsMerged(v: State, c: Choice)
    requires Core(v) && v.mode.Stalemate? && ValidChoice(v, c)
    ensures var (canon, log) := (Canon2(v, c), v.replays[c.source].log);
            |v.canon| <= |canon| <= |log| && canon == v.canon + log[|v.canon|..|canon|]
  {
    hide IsBest;
    hide QuorumPrefix;
    ExitExtendsCanon(v, c);
    assert CandidateOk(v.canon, v.replays[c.source], c.best);
  }

  // ---- Starting ----

  /** Merging has started exactly if some delayed position has been set; C is empty before. */
  ghost predicate StartedRightly(v: State) {
    && (v.started <==> exists id :: id in v.replays && v.replays[id].delayed > 0)
    && (v.canon != [] || v.mode.Quorum? ==> v.started)
  }

  lemma StepStarts(v: State, w: State)
    requires Inv(v) && Inv(w) && Step(v, w) && StartedRightly(v)
    ensures StartedRightly(w)
  {
    hide SetsOk;
    hide Place;
    hide Flip;
    var a :| Takes(v, a, w);
    StepIsLater(v, w);
    CanonChangesAtExit(v, w);
    if v.started {
      var id :| id in v.replays && v.replays[id].delayed > 0;
      assert Grown(v.replays[id], w.replays[id]);
      StaysStarted(v, a, w);
    } else if w.started {
      StartsByReport(v, a, w);
    }
  }

  lemma StaysStarted(v: State, a: Action, w: State)
    requires Core(v) && Takes(v, a, w) && v.started
    ensures w.started
  {
    hide SetsOk;
    hide IsBest;
    hide LeastDelayed;
  }

  lemma StartsByReport(v: State, a: Action, w: State)
    requires Core(v) && Takes(v, a, w) && !v.started && w.started
    ensures exists id :: id in w.replays && w.replays[id].delayed > 0
  {
    hide SetsOk;
    hide IsBest;
    hide LeastDelayed;
    assert a.Tick?;
    assert a.id in w.replays && SameStream(Delayed(v, a.id, a.delayed).replays[a.id], w.replays[a.id]);
  }

  lemma {:induction false} RunStarts(cfg: Config, run: seq<State>)
    requires cfg.quorumSize >= 1 && IsRun(cfg, run)
    ensures StartedRightly(Last(run))
    decreases |run|
  {
    hide Inv;
    hide Step;
    var n := |run| - 1;
    if n > 0 {
      RunPrefix(cfg, run, n);
      RunInvariant(cfg, run);
      RunInvariant(cfg, run[..n]);
      RunStarts(cfg, run[..n]);
      StepStarts(run[n - 1], run[n]);
    }
  }

  /** As long as no delayed position has been set, the first stalemate stays and C is empty. */
  lemma NothingIsMergedEarly(cfg: Config, run: seq<State>)
    requires cfg.quorumSize >= 1 && IsRun(cfg, run)
    requires forall id :: id in Last(run).replays ==> Last(run).replays[id].delayed == 0
    ensures Last(run).mode.Stalemate? && Last(run).canon == [] && !ShouldChange(Last(run))
  {
    RunStarts(cfg, run);
  }
}
