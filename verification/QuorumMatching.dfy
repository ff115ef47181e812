/** What is marked as matching does match: how far back, for which quorums, and what follows for C. */
module QuorumMatching {
  import opened Bytes
  import opened CommonPrefix
  import opened QuorumMachine
  import opened QuorumInvariant
  import opened QuorumTheorems

  // ---- Unanimous quorums ----

  /** One member, or the two members of a quorum, hold exactly the prefix that was computed. */
  lemma SmallQuorumAgrees(replays: map<nat, Replay>, order: seq<nat>, start: nat, id: nat, other: nat)
    requires 1 <= |order| <= 2 && Elements(order) <= replays.Keys
    requires forall i :: i in Elements(order) ==> start <= |replays[i].log|
    requires forall i :: i in Elements(order) ==> |replays[order[0]].log| <= |replays[i].log|
    requires id in Elements(order) && other in Elements(order)
    ensures Agree(replays[id].log, replays[other].log, start, QuorumPrefix(replays, order, start))
  {
    QuorumPrefixInRange(replays, order, start);
    if |order| == 2 {
      var (a, b) := (replays[order[0]].log, replays[order[1]].log);
      assert order[..1] == [order[0]];
      PrefixIsLongest(a, b, start, Some(|a|));
    }
  }

  /** However many members there are, all agree on the first byte of a prefix that has one. */
  lemma {:induction false} FirstByteIsShared(replays: map<nat, Replay>, order: seq<nat>, start: nat, id: nat)
    requires order != [] && Elements(order) <= replays.Keys && id in Elements(order)
    requires forall i :: i in Elements(order) ==> start <= |replays[i].log|
    requires QuorumPrefix(replays, order, start) > start
    ensures Agree(replays[id].log, replays[order[0]].log, start, start + 1)
    decreases |order|
  {
    QuorumPrefixInRange(replays, order, start);
    if |order| > 1 {
      var last := |order| - 1;
      assert order[..last] + [order[last]] == order;
      ElementsSnoc(order[..last], order[last]);
      if id != order[last] {
        FirstByteIsShared(replays, order[..last], start, id);
      }
    }
  }

  /** What is appended on leaving the stalemate is held by every member. */
  ghost predicate Unanimous(v: State, c: Choice)
    requires WellFormed(v) && v.mode.Stalemate? && ValidChoice(v, c)
  {
    forall id :: id in Elements(c.order) ==>
      Agree(v.replays[id].log, v.replays[c.source].log, |v.canon| + 1, |Canon2(v, c)|)
  }

  /** So it is for a small quorum, and for any quorum as long as C has at most two bytes. */
  lemma UnanimousWhen(v: State, c: Choice)
    requires Core(v) && v.mode.Stalemate? && ValidChoice(v, c)
    requires v.cfg.quorumSize <= 2 || |Canon2(v, c)| <= 2
    ensures Unanimous(v, c)
  {
    ExitExtendsCanon(v, c);
    assert forall i :: i in Elements(c.order) ==> CandidateOk(v.canon, v.replays[i], c.best);
    var start := |v.canon| + 1;
    forall id | id in Elements(c.order)
      ensures Agree(v.replays[id].log, v.replays[c.source].log, start, |Canon2(v, c)|)
    {
      if v.cfg.quorumSize <= 2 {
        SmallQuorumAgrees(v.replays, c.order, start, id, c.source);
      } else if |Canon2(v, c)| > start {
        FirstByteIsShared(v.replays, c.order, start, id);
        FirstByteIsShared(v.replays, c.order, start, c.source);
      }
    }
  }

  /** Everything appended on leaving a stalemate is then held by every member. */
  lemma MembersHoldNewData(v: State, c: Choice, id: nat)
    requires Core(v) && v.mode.Stalemate? && ValidChoice(v, c) && id in Elements(c.order)
    requires Unanimous(v, c) || id == c.source
    ensures Agree(v.replays[id].log, Canon2(v, c), |v.canon|, |Canon2(v, c)|)
  {
    ExitExtendsCanon(v, c);
    assert CandidateOk(v.canon, v.replays[id], c.best);
    NewDataIsHeld(v.canon, c.best, v.replays[c.source].log, v.replays[id].log, |Canon2(v, c)|);
  }

  lemma NewDataIsHeld(canon: seq<byte>, next: byte, source: seq<byte>, log: seq<byte>, end: nat)
    requires |canon| < end <= |log| && end <= |source| && log[|canon|] == next
    requires Agree(log, source, |canon| + 1, end)
    ensures Agree(log, canon + [next] + source[|canon| + 1..end], |canon|, end)
  {
  }

  lemma AgreeJoin(a: seq<byte>, b: seq<byte>, lo: nat, mid: nat, hi: nat)
    requires lo <= mid <= hi && Agree(a, b, lo, mid) && Agree(a, b, mid, hi)
    ensures Agree(a, b, lo, hi)
  {
  }

  // ---- Marks ----

  /** Marks are taken to cover all of C, or only the part that checking for divergence looks at. */
  function MarksFrom(cfg: Config, canonLen: nat, whole: bool): nat {
    if whole then 0 else SkipStart(cfg, canonLen)
  }

  /** Every replay that has not been dropped agrees with C up to its mark. */
  ghost predicate MarksAreTrue(v: State, whole: bool) {
    forall id :: id in v.replays && !Dropped(v, id) ==>
      Agree(v.replays[id].log, v.canon, MarksFrom(v.cfg, |v.canon|, whole), v.replays[id].matched)
  }

  /** For marks to cover all of C, comparisons must reach back to its start. */
  ghost predicate InReach(v: State, whole: bool) {
    whole ==> Short(v, v.cfg.cmpDistance + 1)
  }

  /** A candidate agrees with C wherever its mark says so. */
  lemma CandidateMatches(cfg: Config, canon: seq<byte>, r: Replay, whole: bool)
    requires Judge(cfg, canon, r).Candidate? && (whole ==> |r.log| <= cfg.cmpDistance + 1)
    requires Agree(r.log, canon, MarksFrom(cfg, |canon|, whole), r.matched)
    ensures Agree(r.log, canon, MarksFrom(cfg, |canon|, whole), |canon|)
  {
    assert whole ==> MatchStart(cfg, r, |canon|) == r.matched;
  }

  lemma PlaceKeepsMarks(v: State, ids: set<nat>, whole: bool)
    requires Core(v) && v.mode.Stalemate? && ids <= v.reserve
    requires MarksAreTrue(v, whole) && InReach(v, whole)
    ensures MarksAreTrue(Place(v, ids), whole)
  {
    var w := Place(v, ids);
    forall id | id in w.replays && !Dropped(w, id)
      ensures Agree(w.replays[id].log, w.canon, MarksFrom(w.cfg, |w.canon|, whole), w.replays[id].matched)
    {
      assert !Dropped(v, id);
      if id in ids && Judge(v.cfg, v.canon, v.replays[id]).Candidate? {
        CandidateMatches(v.cfg, v.canon, v.replays[id], whole);
      }
    }
  }

  lemma ExitKeepsMarks(v: State, c: Choice, whole: bool)
    requires Core(v) && v.mode.Stalemate? && ValidChoice(v, c) && MarksAreTrue(v, whole)
    ensures whole ==> IsPrefixOfSome(ExitStalemate(v, c))
    ensures Unanimous(v, c) ==> MarksAreTrue(ExitStalemate(v, c), whole)
  {
    hide IsBest;
    hide Canon2;
    hide SetsOk;
    var w := ExitStalemate(v, c);
    ExitIsLater(v, c);
    if Unanimous(v, c) {
      forall id | id in w.replays && !Dropped(w, id)
        ensures Agree(w.replays[id].log, w.canon, MarksFrom(w.cfg, |w.canon|, whole), w.replays[id].matched)
      {
        ExitKeepsMark(v, c, id, whole);
      }
    }
    MemberMatches(v, c, c.source, whole);
  }

  lemma ExitKeepsMark(v: State, c: Choice, id: nat, whole: bool)
    requires Core(v) && v.mode.Stalemate? && ValidChoice(v, c) && Unanimous(v, c)
    requires MarksAreTrue(v, whole) && id in v.replays && !Dropped(ExitStalemate(v, c), id)
    ensures Agree(v.replays[id].log, Canon2(v, c), MarksFrom(v.cfg, |Canon2(v, c)|, whole),
                  AfterExit(v, c, id).matched)
  {
    hide IsBest;
    hide Canon2;
    hide SetsOk;
    ExitExtendsCanon(v, c);
    assert !Dropped(v, id);
    assert Agree(v.replays[id].log, v.canon, MarksFrom(v.cfg, |v.canon|, whole), v.replays[id].matched);
    if id in Elements(c.order) {
      MemberMatches(v, c, id, whole);
      assert AfterExit(v, c, id).matched == |Canon2(v, c)|;
    }
  }

  lemma MemberMatches(v: State, c: Choice, id: nat, whole: bool)
    requires Core(v) && v.mode.Stalemate? && ValidChoice(v, c)
    requires MarksAreTrue(v, whole) && id in Elements(c.order) && (Unanimous(v, c) || id == c.source)
    ensures Agree(v.replays[id].log, Canon2(v, c), MarksFrom(v.cfg, |v.canon|, whole), |Canon2(v, c)|)
    ensures whole ==> Canon2(v, c) <= v.replays[id].log
  {
    ExitExtendsCanon(v, c);
    var canon := Canon2(v, c);
    assert CandidateOk(v.canon, v.replays[id], c.best);
    assert Agree(v.replays[id].log, v.canon, MarksFrom(v.cfg, |v.canon|, whole), |v.canon|);
    MembersHoldNewData(v, c, id);
    AgreeJoin(v.replays[id].log, canon, MarksFrom(v.cfg, |v.canon|, whole), |v.canon|, |canon|);
  }

  lemma EvolveKeepsMarks(v: State, u: State, id: nat, whole: bool)
    requires ChangedAt(v, u, id) && Evolves(v.replays[id], u.replays[id]) && MarksAreTrue(v, whole)
    ensures MarksAreTrue(u, whole)
  {
    assert forall i :: Dropped(u, i) <==> Dropped(v, i);
  }

  lemma CallKeepsMarks(u: State, id: nat, w: State, whole: bool)
    requires Core(u) && id in u.replays && (w == UpdateCall(u, id) || w == EndCall(u, id))
    requires MarksAreTrue(u, whole) && InReach(u, whole)
    ensures MarksAreTrue(w, whole)
  {
    if u.mode.Stalemate? && id in u.reserve {
      PlaceKeepsMarks(u, {id}, whole);
      var p := Place(u, {id});
      assert forall i :: Dropped(w, i) <==> Dropped(p, i);
    } else {
      assert forall i :: Dropped(w, i) <==> Dropped(u, i);
    }
  }

  lemma EnterKeepsMarks(v: State, whole: bool)
    requires Core(v) && v.mode.Quorum? && HasToEnterStalemate(v)
    requires MarksAreTrue(v, whole) && InReach(v, whole)
    ensures MarksAreTrue(EnterStalemate(v), whole)
  {
    var all := v.reserve + v.mode.members;
    var u := v.(mode := Stalemate(map[]), reserve := all);
    assert forall id :: Dropped(u, id) <==> Dropped(v, id);
    assert Core(u) by {
      assert forall id :: id in v.mode.members ==> ReserveOk(v.cfg, |v.canon|, v.replays[id]);
    }
    PlaceKeepsMarks(u, all, whole);
  }

  lemma TickKeepsMarks(v: State, id: nat, n: nat, whole: bool)
    requires Core(v) && Open(v, id) && v.replays[id].delayed <= n <= |v.replays[id].log|
    requires MarksAreTrue(v, whole) && InReach(v, whole)
    ensures MarksAreTrue(UpdateCall(Delayed(v, id, n), id), whole)
  {
    var u := Delayed(v, id, n);
    EvolveKeepsCore(v, u, id);
    EvolveKeepsMarks(v, u, id, whole);
    CallKeepsMarks(u, id, UpdateCall(u, id), whole);
  }

  lemma RemoveKeepsMarks(v: State, id: nat, whole: bool)
    requires Core(v) && Open(v, id) && v.replays[id].delayed == |v.replays[id].log|
    requires MarksAreTrue(v, whole) && InReach(v, whole)
    ensures MarksAreTrue(EndCall(Finished(v, id), id), whole)
  {
    var u := Finished(v, id);
    EvolveKeepsCore(v, u, id);
    EvolveKeepsMarks(v, u, id, whole);
    CallKeepsMarks(u, id, EndCall(u, id), whole);
  }

  lemma SameSetsKeepMarks(v: State, w: State, whole: bool)
    requires MarksAreTrue(v, whole) && w.canon == v.canon && w.cfg == v.cfg && Active(w) == Active(v)
    requires forall id :: id in v.replays ==> id in w.replays && w.replays[id] == v.replays[id]
    requires forall id :: id in w.replays && id !in v.replays ==> w.replays[id].matched == 0
    requires w.reserve == v.reserve + (w.replays.Keys - v.replays.Keys)
    ensures MarksAreTrue(w, whole)
  {
    forall id | id in w.replays && !Dropped(w, id)
      ensures Agree(w.replays[id].log, w.canon, MarksFrom(w.cfg, |w.canon|, whole), w.replays[id].matched)
    {
      if id in v.replays { assert !Dropped(v, id); }
    }
  }

  lemma CallbackKeepsMarks(v: State, a: Action, w: State, whole: bool)
    requires Core(v) && Takes(v, a, w) && !a.Switch?
    requires MarksAreTrue(v, whole) && InReach(v, whole)
    ensures MarksAreTrue(w, whole) && w.canon == v.canon
  {
    match a
    case Add =>
      assert v.token !in v.replays && w.replays.Keys == v.replays.Keys + {v.token};
      assert w.replays.Keys - v.replays.Keys == {v.token};
      SameSetsKeepMarks(v, w, whole);
    case Append(id, data) => EvolveKeepsMarks(v, w, id, whole);
    case Tick(id, n) => TickKeepsMarks(v, id, n, whole);
    case Remove(id) => RemoveKeepsMarks(v, id, whole);
    case Finish =>
      assert w.replays.Keys - v.replays.Keys == {};
      SameSetsKeepMarks(v, w, whole);
  }

  /** Quorums are small, or C is too short for the members of a larger one to disagree on it. */
  ghost predicate Agreeing(v: State) {
    v.cfg.quorumSize <= 2 || |v.canon| <= 2
  }

  lemma FlipKeepsMarks(v: State, w: State, whole: bool)
    requires Core(v) && Flip(v, w)
    requires MarksAreTrue(v, whole) && InReach(v, whole) && Agreeing(w)
    ensures MarksAreTrue(w, whole)
  {
    hide IsBest;
    hide Canon2;
    hide SetsOk;
    if v.mode.Quorum? {
      EnterKeepsMarks(v, whole);
    } else {
      var c :| ValidChoice(v, c) && w == ExitStalemate(v, c);
      UnanimousWhen(v, c);
      ExitKeepsMarks(v, c, whole);
    }
  }

  lemma StepKeepsMarks(v: State, w: State, whole: bool)
    requires Inv(v) && Step(v, w)
    requires MarksAreTrue(v, whole) && InReach(v, whole) && Agreeing(w)
    ensures MarksAreTrue(w, whole)
  {
    hide Takes;
    hide Flip;
    hide MarksAreTrue;
    hide SetsOk;
    hide Notified;
    var a :| Takes(v, a, w);
    StepKinds(v, a, w);
    if a.Switch? {
      FlipKeepsMarks(v, w, whole);
    } else {
      CallbackKeepsMarks(v, a, w, whole);
    }
  }

  lemma {:induction false} RunKeepsMarks(cfg: Config, run: seq<State>, whole: bool)
    requires cfg.quorumSize >= 1 && IsRun(cfg, run) && Agreeing(Last(run)) && InReach(Last(run), whole)
    ensures MarksAreTrue(Last(run), whole)
    decreases |run|
  {
    var n := |run| - 1;
    if n > 0 {
      hide Inv;
      hide MarksAreTrue;
      var (v, w) := (run[n - 1], run[n]);
      RunPrefix(cfg, run, n);
      RunInvariant(cfg, run);
      RunInvariant(cfg, run[..n]);
      StepIsLater(v, w);
      WasShort(v, w, cfg.cmpDistance + 1);
      RunKeepsMarks(cfg, run[..n], whole);
      StepKeepsMarks(v, w, whole);
    }
  }

  // ---- What candidates and members hold ----

  /** Every candidate or member holds all of C. */
  ghost predicate ActiveMatch(v: State) {
    forall id :: id in Active(v) ==> id in v.replays && v.canon <= v.replays[id].log
  }

  /** The replay holds the bytes of C below `until` that are no further behind its end than the distance. */
  ghost predicate HoldsRecent(cfg: Config, canon: seq<byte>, r: Replay, until: nat) {
    && until <= |r.log| && until <= |canon|
    && forall i :: 0 <= i < until && |canon| <= i + cfg.cmpDistance ==> r.log[i] == canon[i]
  }

  /** Every candidate or member holds the last `cmpDistance` bytes of C. */
  ghost predicate ActiveHoldRecent(v: State) {
    forall id :: id in Active(v) ==> id in v.replays && HoldsRecent(v.cfg, v.canon, v.replays[id], |v.canon|)
  }

  /** Every replay that has not been dropped holds them up to its mark. */
  ghost predicate MarksHoldRecent(v: State) {
    forall id :: id in v.replays && !Dropped(v, id) ==>
      HoldsRecent(v.cfg, v.canon, v.replays[id], v.replays[id].matched)
  }

  lemma RecentMarks(v: State)
    requires Core(v)
    ensures MarksAreTrue(v, false) <==> MarksHoldRecent(v)
  {
    hide Dropped;
    forall id | id in v.replays
      ensures Agree(v.replays[id].log, v.canon, MarksFrom(v.cfg, |v.canon|, false), v.replays[id].matched) <==>
              HoldsRecent(v.cfg, v.canon, v.replays[id], v.replays[id].matched)
    {
      assert ReplayOk(|v.canon|, v.replays[id]);
    }
  }

  /** A candidate or member is marked up to the end of C. */
  lemma ActiveIsMarked(v: State, id: nat)
    requires Core(v) && id in Active(v)
    ensures id in v.replays && !Dropped(v, id) && v.replays[id].matched == |v.canon| <= |v.replays[id].log|
  {
    if v.mode.Stalemate? {
      assert CandidateOk(v.canon, v.replays[id], v.mode.cand[id]);
    } else {
      assert MemberOk(v.canon, v.replays[id]);
    }
  }

  /**
   * For a quorum of one or two and every comparison distance, every replay that has not been dropped
   * holds the last `cmpDistance` bytes of C as far as it is marked; candidates and members, which are
   * marked up to the end of C, hold them all. So it is for a larger quorum as long as C has
   * at most two bytes.
   */
  lemma RecentDataMatches(cfg: Config, run: seq<State>)
    requires cfg.quorumSize >= 1 && IsRun(cfg, run) && (cfg.quorumSize <= 2 || |Last(run).canon| <= 2)
    ensures MarksHoldRecent(Last(run)) && ActiveHoldRecent(Last(run))
  {
    hide HoldsRecent;
    hide MarksAreTrue;
    hide SetsOk;
    var v := Last(run);
    RunInvariant(cfg, run);
    RunKeepsMarks(cfg, run, false);
    RecentMarks(v);
    forall id | id in Active(v)
      ensures id in v.replays && HoldsRecent(v.cfg, v.canon, v.replays[id], |v.canon|)
    {
      ActiveIsMarked(v, id);
    }
  }

  /** With lengths within reach of comparisons, candidates and members hold all of C. */
  lemma WholeCanonMatches(cfg: Config, run: seq<State>)
    requires cfg.quorumSize >= 1 && IsRun(cfg, run) && (cfg.quorumSize <= 2 || |Last(run).canon| <= 2)
    requires Short(Last(run), cfg.cmpDistance + 1)
    ensures ActiveMatch(Last(run))
  {
    var v := Last(run);
    RunInvariant(cfg, run);
    RunKeepsMarks(cfg, run, true);
    forall id | id in Active(v) ensures id in v.replays && v.canon <= v.replays[id].log {
      ActiveIsMarked(v, id);
      assert Agree(v.replays[id].log, v.canon, 0, |v.canon|);
    }
  }

  // ---- C equals one sent replay ----

  /** C is a prefix of some replay. */
  ghost predicate IsPrefixOfSome(v: State) {
    v.canon == [] || exists id :: id in v.replays && v.canon <= v.replays[id].log
  }

  /** Quorums are small, or replays too short for what a larger one may get wrong to matter. */
  ghost predicate Followable(v: State) {
    v.cfg.quorumSize <= 2 || Short(v, 3)
  }

  /** When C grows it follows the replay it is taken from. */
  lemma FlipFollows(v: State, w: State)
    requires Core(v) && Flip(v, w) && MarksAreTrue(v, true) && w.canon != v.canon
    ensures IsPrefixOfSome(w)
  {
    hide IsBest;
    hide Canon2;
    hide SetsOk;
    var c :| ValidChoice(v, c) && w == ExitStalemate(v, c);
    ExitKeepsMarks(v, c, true);
  }

  /** C that can still grow has at most two bytes, or quorums are small. */
  lemma GrowingIsAgreeing(v: State, w: State)
    requires Core(v) && Flip(v, w) && w.canon != v.canon && Followable(v)
    ensures Agreeing(v)
  {
    hide IsBest;
    hide Canon2;
    hide SetsOk;
    var c :| ValidChoice(v, c) && w == ExitStalemate(v, c);
    ExitExtendsCanon(v, c);
    assert |w.canon| <= |v.replays[c.source].log|;
  }

  lemma StepFollowsSome(cfg: Config, run: seq<State>)
    requires cfg.quorumSize >= 1 && IsRun(cfg, run) && |run| > 1
    requires Short(Last(run), cfg.cmpDistance + 1) && Followable(Last(run))
    requires Last(run).canon != run[|run| - 2].canon
    ensures IsPrefixOfSome(Last(run))
  {
    hide Takes;
    hide Flip;
    hide MarksAreTrue;
    hide IsPrefixOfSome;
    hide SetsOk;
    hide Notified;
    var n := |run| - 1;
    var (v, w) := (run[n - 1], run[n]);
    RunPrefix(cfg, run, n);
    RunInvariant(cfg, run);
    RunInvariant(cfg, run[..n]);
    StepIsLater(v, w);
    WasShort(v, w, cfg.cmpDistance + 1);
    WasShort(v, w, 3);
    assert Step(v, w);
    var a :| Takes(v, a, w);
    StepKinds(v, a, w);
    GrowingIsAgreeing(v, w);
    RunKeepsMarks(cfg, run[..n], true);
    FlipFollows(v, w);
  }

  lemma PrefixOfSomeStays(v: State, w: State)
    requires IsPrefixOfSome(v) && Later(v, w) && w.canon == v.canon
    ensures IsPrefixOfSome(w)
  {
    if v.canon != [] {
      var id :| id in v.replays && v.canon <= v.replays[id].log;
      assert Grown(v.replays[id], w.replays[id]);
      assert id in w.replays && w.canon <= w.replays[id].log;
    }
  }

  /** Whatever the quorum did, C is a prefix of some replay, under the stated bounds. */
  lemma {:induction false} RunStaysOnReplay(cfg: Config, run: seq<State>)
    requires cfg.quorumSize >= 1 && IsRun(cfg, run)
    requires Short(Last(run), cfg.cmpDistance + 1) && Followable(Last(run))
    ensures IsPrefixOfSome(Last(run))
    decreases |run|
  {
    var n := |run| - 1;
    if n > 0 {
      hide Inv;
      var (v, w) := (run[n - 1], run[n]);
      RunPrefix(cfg, run, n);
      RunInvariant(cfg, run);
      RunInvariant(cfg, run[..n]);
      StepIsLater(v, w);
      WasShort(v, w, cfg.cmpDistance + 1);
      WasShort(v, w, 3);
      if w.canon == v.canon {
        RunStaysOnReplay(cfg, run[..n]);
        PrefixOfSomeStays(v, w);
      } else {
        StepFollowsSome(cfg, run);
      }
    }
  }

  ghost predicate IsSent(v: State) {
    exists id :: id in v.replays && v.replays[id].log == v.canon
  }

  /**
   * With a quorum of one or two and a comparison distance that covers all but the last byte of every
   * replay, C ends up equal to one of the sent replays. A larger quorum does as well when no replay is
   * longer than three bytes.
   */
  lemma CanonIsOneSentReplay(cfg: Config, run: seq<State>)
    requires cfg.quorumSize >= 1 && IsRun(cfg, run)
    requires Last(run).canonFinished && Last(run).replays != map[]
    requires Short(Last(run), cfg.cmpDistance + 1) && (cfg.quorumSize <= 2 || Short(Last(run), 3))
    ensures IsSent(Last(run))
  {
    var v := Last(run);
    FinishedRun(cfg, run);
    RunInvariant(cfg, run);
    RunStaysOnReplay(cfg, run);
    var id :| id in v.replays;
    if v.canon != [] {
      id :| id in v.replays && v.canon <= v.replays[id].log;
    }
    assert Refuted(v.canon, v.replays[id]);
    assert v.replays[id].log == v.canon;
  }

  // ---- Support ----

  /** All of `ids` hold the bytes of C from position `from` on. */
  ghost predicate AllHold(v: State, ids: set<nat>, canon: seq<byte>, from: nat) {
    ids <= v.replays.Keys && forall id :: id in ids ==> Agree(v.replays[id].log, canon, from, |canon|)
  }

  /**
   * The new bytes are held by enough replays, or no replay was left in the reserve and they are held
   * by all of a largest group of candidates (up to the quorum size).
   */
  ghost predicate Supported(v: State, canon: seq<byte>) {
    exists ids :: AllHold(v, ids, canon, |v.canon|) &&
      (|ids| >= v.cfg.quorumSize ||
       (v.mode.Stalemate? && v.reserve == {} &&
        forall b: byte :: |Group(v.mode.cand, b)| <= |ids|))
  }

  lemma ExitIsSupported(v: State, c: Choice)
    requires Core(v) && v.mode.Stalemate? && CanExitStalemate(v) && ValidChoice(v, c)
    requires v.cfg.quorumSize <= 2 || |Canon2(v, c)| <= 2
    ensures Supported(v, Canon2(v, c))
  {
    var (ids, canon) := (Elements(c.order), Canon2(v, c));
    UnanimousWhen(v, c);
    forall id | id in ids ensures Agree(v.replays[id].log, canon, |v.canon|, |canon|) {
      MembersHoldNewData(v, c, id);
    }
    assert AllHold(v, ids, canon, |v.canon|);
    ElementsCount(c.order);
    forall b: byte ensures |Group(v.mode.cand, b)| <= |Group(v.mode.cand, c.best)| {
      if Group(v.mode.cand, b) != {} { assert RankAtMost(v, b, c.best); }
    }
  }

  /**
   * C never grows without support, for a quorum size of one or two, and for a larger one as long as C
   * has at most two bytes; for any comparison distance.
   */
  lemma CanonGrowsWithSupport(cfg: Config, run: seq<State>, i: nat)
    requires cfg.quorumSize >= 1 && IsRun(cfg, run) && 0 < i < |run|
    requires cfg.quorumSize <= 2 || |run[i].canon| <= 2
    ensures run[i].canon != run[i - 1].canon ==> Supported(run[i - 1], run[i].canon)
  {
    var (v, w) := (run[i - 1], run[i]);
    RunPrefix(cfg, run, i);
    RunInvariant(cfg, run[..i]);
    assert Step(v, w);
    CanonChangesAtExit(v, w);
    if w.canon != v.canon {
      var c :| ValidChoice(v, c) && w == ExitStalemate(v, c);
      ExitIsSupported(v, c);
    }
  }
}
