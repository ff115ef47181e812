/** How much of the replays is kept. */
module QuorumMemory {
  import opened Bytes
  import opened QuorumMachine
  import opened QuorumInvariant
  import opened QuorumTheorems

  /** Where a window starts once everything has been discarded. */
  function Emptied(): nat {
    ChunkFloor(USIZE_MAX)
  }

  lemma FloorIsMonotone(a: nat, b: nat)
    requires a <= b
    ensures ChunkFloor(a) <= ChunkFloor(b)
  {
  }

  /** A dropped replay keeps nothing; a candidate or member keeps less than a chunk of what C has. */
  ghost predicate FreedOne(v: State, id: nat)
    requires id in v.replays
  {
    && v.replays[id].window <= Emptied()
    && (Dropped(v, id) ==> v.replays[id].window == Emptied())
    && (id in Active(v) ==> ChunkFloor(|v.canon|) <= v.replays[id].window)
  }

  ghost predicate Freed(v: State) {
    forall id :: id in v.replays ==> FreedOne(v, id)
  }

  lemma PlacedIsFreed(cfg: Config, canon: seq<byte>, r: Replay)
    requires |canon| <= USIZE_MAX && r.matched <= |canon| && r.window <= Emptied()
    ensures var p := Placed(cfg, canon, r);
            && p.window <= Emptied()
            && (Judge(cfg, canon, r).Drop? ==> p.window == Emptied())
            && (Judge(cfg, canon, r).Candidate? ==> ChunkFloor(|canon|) <= p.window)
  {
    hide Judge;
    FloorIsMonotone(|canon|, USIZE_MAX);
  }

  lemma CanonFits(v: State)
    requires Core(v)
    ensures |v.canon| <= USIZE_MAX
  {
    if v.canon != [] {
      var id :| id in v.replays && |v.canon| <= |v.replays[id].log|;
    }
  }

  lemma PlaceFrees(v: State, ids: set<nat>)
    requires Core(v) && v.mode.Stalemate? && ids <= v.reserve && Freed(v)
    ensures Freed(Place(v, ids))
  {
    hide Judge;
    hide Placed;
    hide ChunkFloor;
    CanonFits(v);
    forall id | id in v.replays ensures FreedOne(Place(v, ids), id) {
      assert FreedOne(v, id) && ReplayOk(|v.canon|, v.replays[id]);
      if id in ids { PlacedIsFreed(v.cfg, v.canon, v.replays[id]); }
    }
  }

  /** What a window is worth once C has `n` bytes, in terms of the set the replay goes to. */
  ghost predicate FreedBy(cfg: Config, n: nat, r: Replay, isMember: bool, isDropped: bool) {
    && ChunkFloor(SkipStart(cfg, n)) <= r.window <= Emptied()
    && (isMember ==> ChunkFloor(n) <= r.window)
    && (isDropped ==> r.window == Emptied())
  }

  ghost predicate IsLeft(v: State, c: Choice, id: nat)
    requires v.mode.Stalemate?
  {
    id !in Elements(c.order) && id !in v.reserve && id !in Group(v.mode.cand, c.best)
  }

  lemma ExitFreesOne(v: State, c: Choice, id: nat)
    requires Core(v) && v.mode.Stalemate? && ValidChoice(v, c) && id in v.replays && FreedOne(v, id)
    requires |Canon2(v, c)| <= USIZE_MAX
    ensures FreedBy(v.cfg, |Canon2(v, c)|, AfterExit(v, c, id), id in Elements(c.order), IsLeft(v, c, id))
  {
    hide IsBest;
    hide ValidChoice;
    hide Canon2;
    hide ChunkFloor;
    hide Elements;
    hide SetsOk;
    var n := |Canon2(v, c)|;
    FloorIsMonotone(SkipStart(v.cfg, n), n);
    FloorIsMonotone(n, USIZE_MAX);
    MarkIsInside(v, id);
    ExitIsLonger(v, c);
  }

  lemma MarkIsInside(v: State, id: nat)
    requires Core(v) && id in v.replays
    ensures v.replays[id].matched <= |v.canon|
  {
    assert ReplayOk(|v.canon|, v.replays[id]);
  }

  lemma ExitIsLonger(v: State, c: Choice)
    requires Core(v) && v.mode.Stalemate? && ValidChoice(v, c)
    ensures |v.canon| < |Canon2(v, c)|
  {
    ExitExtendsCanon(v, c);
  }

  /** Leaving a stalemate trims the reserve to what later comparisons with C may read. */
  lemma ExitFrees(v: State, c: Choice)
    requires Core(v) && v.mode.Stalemate? && ValidChoice(v, c) && Freed(v) && Core(ExitStalemate(v, c))
    ensures var w := ExitStalemate(v, c);
            && Freed(w)
            && forall id :: id in w.replays ==> ChunkFloor(SkipStart(w.cfg, |w.canon|)) <= w.replays[id].window
  {
    hide IsBest;
    hide Canon2;
    hide ChunkFloor;
    hide LeastDelayed;
    hide SetsOk;
    hide AfterExit;
    hide ValidChoice;
    var w := ExitStalemate(v, c);
    CanonFits(w);
    forall id | id in w.replays
      ensures FreedOne(w, id) && ChunkFloor(SkipStart(w.cfg, |w.canon|)) <= w.replays[id].window
    {
      assert FreedOne(v, id);
      ExitFreesOne(v, c, id);
    }
  }

  /** No replay is moved to another set and no window moves back. */
  lemma SameSetsStayFreed(v: State, w: State)
    requires Freed(v) && w.canon == v.canon && Active(w) == Active(v)
    requires forall id :: id in w.replays && Dropped(w, id) ==> Dropped(v, id)
    requires forall id :: id in w.replays && id in v.replays ==> w.replays[id].window == v.replays[id].window
    requires forall id :: id in w.replays && id !in v.replays ==> w.replays[id].window == 0 && id !in Active(v)
    ensures Freed(w)
  {
    hide ChunkFloor;
    forall id | id in w.replays ensures FreedOne(w, id) {
      if id in v.replays { assert FreedOne(v, id); }
    }
  }

  lemma CallFrees(u: State, id: nat, w: State)
    requires Core(u) && id in u.replays && (w == UpdateCall(u, id) || w == EndCall(u, id))
    requires Freed(u)
    ensures Freed(w)
  {
    hide ChunkFloor;
    if u.mode.Stalemate? && id in u.reserve {
      PlaceFrees(u, {id});
      SameSetsStayFreed(Place(u, {id}), w);
    } else {
      SameSetsStayFreed(u, w);
    }
  }

  lemma EvolveStaysFreed(v: State, u: State, id: nat)
    requires ChangedAt(v, u, id) && u.replays[id].window == v.replays[id].window && Freed(v)
    ensures Freed(u)
  {
    hide ChunkFloor;
    SameSetsStayFreed(v, u);
  }

  lemma EnterFrees(v: State)
    requires Core(v) && v.mode.Quorum? && HasToEnterStalemate(v) && Freed(v)
    ensures Freed(EnterStalemate(v))
  {
    hide ChunkFloor;
    var all := v.reserve + v.mode.members;
    var u := v.(mode := Stalemate(map[]), reserve := all);
    assert forall id :: Dropped(u, id) <==> Dropped(v, id);
    assert Core(u) by {
      assert forall id :: id in v.mode.members ==> ReserveOk(v.cfg, |v.canon|, v.replays[id]);
    }
    forall id | id in u.replays ensures FreedOne(u, id) {
      assert FreedOne(v, id);
    }
    PlaceFrees(u, all);
  }

  lemma FlipFrees(v: State, w: State)
    requires Core(v) && Flip(v, w) && Freed(v)
    ensures Freed(w)
  {
    hide Freed;
    hide SetsOk;
    FlipKeepsInv(v, w);
    if v.mode.Quorum? {
      EnterFrees(v);
    } else {
      var c :| ValidChoice(v, c) && w == ExitStalemate(v, c);
      ExitFrees(v, c);
    }
  }

  lemma TickFrees(v: State, id: nat, n: nat)
    requires Core(v) && Open(v, id) && v.replays[id].delayed <= n <= |v.replays[id].log| && Freed(v)
    ensures Freed(UpdateCall(Delayed(v, id, n), id))
  {
    hide Freed;
    var u := Delayed(v, id, n);
    EvolveKeepsCore(v, u, id);
    EvolveStaysFreed(v, u, id);
    CallFrees(u, id, UpdateCall(u, id));
  }

  lemma RemoveFrees(v: State, id: nat)
    requires Core(v) && Open(v, id) && v.replays[id].delayed == |v.replays[id].log| && Freed(v)
    ensures Freed(EndCall(Finished(v, id), id))
  {
    hide Freed;
    var u := Finished(v, id);
    EvolveKeepsCore(v, u, id);
    EvolveStaysFreed(v, u, id);
    CallFrees(u, id, EndCall(u, id));
  }

  lemma CallbackFrees(v: State, a: Action, w: State)
    requires Core(v) && Takes(v, a, w) && !a.Switch? && Freed(v)
    ensures Freed(w)
  {
    hide Freed;
    hide SetsOk;
    hide UpdateCall;
    hide EndCall;
    match a
    case Add => SameSetsStayFreed(v, w);
    case Append(id, data) => EvolveStaysFreed(v, w, id);
    case Tick(id, n) => TickFrees(v, id, n);
    case Remove(id) => RemoveFrees(v, id);
    case Finish => SameSetsStayFreed(v, w);
  }

  lemma StepFrees(v: State, w: State)
    requires Inv(v) && Step(v, w) && Freed(v)
    ensures Freed(w)
  {
    hide Takes;
    hide Flip;
    hide Freed;
    hide SetsOk;
    hide Notified;
    var a :| Takes(v, a, w);
    StepKinds(v, a, w);
    if a.Switch? { FlipFrees(v, w); } else { CallbackFrees(v, a, w); }
  }

  lemma InitIsFreed(cfg: Config)
    ensures Freed(Init(cfg))
  {
  }

  lemma {:induction false} RunIsFreed(cfg: Config, run: seq<State>)
    requires cfg.quorumSize >= 1 && IsRun(cfg, run)
    ensures Freed(Last(run))
    decreases |run|
  {
    hide Inv;
    hide Freed;
    hide Step;
    var n := |run| - 1;
    if n == 0 {
      InitIsFreed(cfg);
    } else {
      RunPrefix(cfg, run, n);
      RunInvariant(cfg, run[..n]);
      RunIsFreed(cfg, run[..n]);
      StepFrees(run[n - 1], run[n]);
    }
  }

  /**
   * In every reachable state a dropped replay keeps none of its data, and a candidate or member less
   * than a chunk of what C already has.
   */
  lemma RunFrees(cfg: Config, run: seq<State>)
    requires cfg.quorumSize >= 1 && IsRun(cfg, run)
    ensures forall id :: Dropped(Last(run), id) ==> USIZE_MAX < Last(run).replays[id].window + 4096
    ensures forall id :: id in Active(Last(run)) ==>
              id in Last(run).replays && |Last(run).canon| < Last(run).replays[id].window + 4096
  {
    var v := Last(run);
    RunInvariant(cfg, run);
    RunIsFreed(cfg, run);
    assert forall id :: id in v.replays ==> FreedOne(v, id);
  }

  lemma WithinAChunk(cfg: Config, n: nat, window: nat)
    requires ChunkFloor(SkipStart(cfg, n)) <= window
    ensures n < window + cfg.cmpDistance + CHUNK_SIZE
  {
  }

  /** The step that lengthens C leaves every replay with little more than what comparisons may read. */
  lemma GrowthTrims(v: State, w: State)
    requires Inv(v) && Inv(w) && Step(v, w) && Freed(v) && w.canon != v.canon
    ensures forall id :: id in w.replays ==> ChunkFloor(SkipStart(w.cfg, |w.canon|)) <= w.replays[id].window
  {
    hide Freed;
    hide Takes;
    hide ValidChoice;
    hide ExitStalemate;
    hide ChunkFloor;
    hide SetsOk;
    hide Notified;
    CanonChangesAtExit(v, w);
    var c :| ValidChoice(v, c) && w == ExitStalemate(v, c);
    ExitFrees(v, c);
  }

  /**
   * Whenever C grows, all replays known by then are cut to what lies less than the comparison distance
   * and a chunk behind C, for the rest of the run.
   */
  lemma TrimmedWhenCanonGrows(cfg: Config, run: seq<State>, i: nat)
    requires cfg.quorumSize >= 1 && IsRun(cfg, run) && 0 < i < |run| && run[i].canon != run[i - 1].canon
    ensures forall id :: id in run[i].replays ==>
              id in Last(run).replays &&
              |run[i].canon| < Last(run).replays[id].window + cfg.cmpDistance + CHUNK_SIZE
  {
    hide Inv;
    hide Freed;
    hide Step;
    hide ChunkFloor;
    hide SkipStart;
    var (v, w) := (run[i - 1], run[i]);
    RunPrefix(cfg, run, i);
    RunPrefix(cfg, run, i + 1);
    RunInvariant(cfg, run[..i]);
    RunInvariant(cfg, run[..i + 1]);
    RunIsFreed(cfg, run[..i]);
    GrowthTrims(v, w);
    RunOnlyGrows(cfg, run, i);
    forall id | id in w.replays
      ensures id in Last(run).replays && |w.canon| < Last(run).replays[id].window + cfg.cmpDistance + CHUNK_SIZE
    {
      assert Grown(w.replays[id], Last(run).replays[id]);
      WithinAChunk(cfg, |w.canon|, w.replays[id].window);
    }
  }
}
