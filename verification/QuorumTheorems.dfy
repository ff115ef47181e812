/** Properties of whole runs of the merge machine. */
module QuorumTheorems {
  import opened Bytes
  import opened QuorumMachine
  import opened QuorumInvariant

  // ---- Nothing is ever taken back ----

  /** `w` may follow `v` in a run: streams only grow, and what was dropped stays dropped, for good reason. */
  ghost predicate Later(v: State, w: State) {
    && v.canon <= w.canon && v.canonDelayed <= w.canonDelayed
    && v.replays.Keys <= w.replays.Keys
    && (forall id :: id in v.replays ==> Grown(v.replays[id], w.replays[id]))
    && (forall id :: Dropped(v, id) ==> Dropped(w, id))
  }

  ghost predicate Grown(r: Replay, s: Replay) {
    && r.log <= s.log && r.delayed <= s.delayed && r.window <= s.window
    && (r.finished ==> s.finished && s.log == r.log && s.delayed == r.delayed)
  }

  lemma LaterIsTransitive(u: State, v: State, w: State)
    requires Later(u, v) && Later(v, w)
    ensures Later(u, w)
  {
    forall id | id in u.replays ensures Grown(u.replays[id], w.replays[id]) {
      assert Grown(u.replays[id], v.replays[id]) && Grown(v.replays[id], w.replays[id]);
    }
  }

  lemma PlaceIsLater(v: State, ids: set<nat>)
    requires IdsOk(v) && v.mode.Stalemate? && ids <= v.reserve
    ensures Later(v, Place(v, ids))
  {
  }

  lemma EnterIsLater(v: State)
    requires IdsOk(v) && v.mode.Quorum?
    ensures Later(v, EnterStalemate(v))
  {
    var all := v.reserve + v.mode.members;
    var u := v.(mode := Stalemate(map[]), reserve := all);
    PlaceIsLater(u, all);
    LaterIsTransitive(v, u, EnterStalemate(v));
  }

  lemma ExitIsLater(v: State, c: Choice)
    requires Core(v) && v.mode.Stalemate? && ValidChoice(v, c)
    ensures Later(v, ExitStalemate(v, c))
  {
    hide IsBest;
    hide Canon2;
    hide SetsOk;
    hide LeastDelayed;
    ExitExtendsCanon(v, c);
    StreamsAreLater(v, ExitStalemate(v, c));
  }

  lemma StreamsAreLater(v: State, w: State)
    requires SameStreams(v, w) && v.canon <= w.canon && v.canonDelayed <= w.canonDelayed
    requires Active(w) + w.reserve <= Active(v) + v.reserve
    ensures Later(v, w)
  {
    forall id | Dropped(v, id) ensures Dropped(w, id) {
      assert id !in Active(w) + w.reserve;
    }
  }

  lemma PlaceMovesInside(v: State, ids: set<nat>)
    requires v.mode.Stalemate? && ids <= v.reserve <= v.replays.Keys
    ensures Active(Place(v, ids)) + Place(v, ids).reserve <= Active(v) + v.reserve
  {
  }

  lemma UpdateIsLater(u: State, id: nat)
    requires IdsOk(u) && id in u.replays
    ensures Later(u, UpdateCall(u, id))
  {
    if u.mode.Stalemate? && id in u.reserve { PlaceMovesInside(u, {id}); }
    StreamsAreLater(u, UpdateCall(u, id));
  }

  lemma EndIsLater(u: State, id: nat)
    requires IdsOk(u) && id in u.replays
    ensures Later(u, EndCall(u, id))
  {
    if u.mode.Stalemate? && id in u.reserve { PlaceMovesInside(u, {id}); }
    StreamsAreLater(u, EndCall(u, id));
  }

  lemma EvolvedIsLater(v: State, u: State, id: nat)
    requires ChangedAt(v, u, id) && Evolves(v.replays[id], u.replays[id])
    requires v.replays[id].delayed <= u.replays[id].delayed
    ensures Later(v, u)
  {
    assert forall i :: Dropped(v, i) ==> Dropped(u, i);
  }

  lemma TickIsLater(v: State, id: nat, n: nat)
    requires Core(v) && Open(v, id) && v.replays[id].delayed <= n <= |v.replays[id].log|
    ensures Later(v, UpdateCall(Delayed(v, id, n), id))
  {
    var u := Delayed(v, id, n);
    EvolveKeepsCore(v, u, id);
    EvolvedIsLater(v, u, id);
    UpdateIsLater(u, id);
    LaterIsTransitive(v, u, UpdateCall(u, id));
  }

  lemma RemoveIsLater(v: State, id: nat)
    requires Core(v) && Open(v, id) && v.replays[id].delayed == |v.replays[id].log|
    ensures Later(v, EndCall(Finished(v, id), id))
  {
    var u := Finished(v, id);
    EvolveKeepsCore(v, u, id);
    EvolvedIsLater(v, u, id);
    EndIsLater(u, id);
    LaterIsTransitive(v, u, EndCall(u, id));
  }

  lemma AddIsLater(v: State)
    requires IdsOk(v)
    ensures Later(v, AddCall(v))
  {
    forall id | Dropped(v, id) ensures Dropped(AddCall(v), id) {
      assert id != v.token;
    }
  }

  lemma FlipIsLater(v: State, w: State)
    requires Core(v) && Flip(v, w)
    ensures Later(v, w)
  {
    if v.mode.Quorum? {
      EnterIsLater(v);
    } else {
      var c :| ValidChoice(v, c) && w == ExitStalemate(v, c);
      ExitIsLater(v, c);
    }
  }

  lemma CallbackIsLater(v: State, a: Action, w: State)
    requires Core(v) && Takes(v, a, w) && !a.Switch?
    ensures Later(v, w)
  {
    match a
    case Add => AddIsLater(v);
    case Append(id, data) => EvolvedIsLater(v, w, id);
    case Tick(id, n) => TickIsLater(v, id, n);
    case Remove(id) => RemoveIsLater(v, id);
    case Finish => StreamsAreLater(v, w);
  }

  lemma StepIsLater(v: State, w: State)
    requires Inv(v) && Step(v, w)
    ensures Later(v, w)
  {
    var a :| Takes(v, a, w);
    if a.Switch? { FlipIsLater(v, w); } else { CallbackIsLater(v, a, w); }
  }

  /** A step is a switch or leaves C as it was. */
  lemma StepKinds(v: State, a: Action, w: State)
    requires WellFormed(v) && Takes(v, a, w)
    ensures a.Switch? ==> Flip(v, w)
    ensures !a.Switch? ==> w.canon == v.canon && w.cfg == v.cfg
  {
  }

  /** C changes only when a stalemate is resolved. */
  lemma CanonChangesAtExit(v: State, w: State)
    requires Inv(v) && Step(v, w)
    ensures w.canon == v.canon ||
            (v.mode.Stalemate? && CanExitStalemate(v) &&
             exists c :: ValidChoice(v, c) && w == ExitStalemate(v, c))
  {
    hide IsBest;
    hide SetsOk;
    hide Takes;
    hide CanExitStalemate;
    var a :| Takes(v, a, w);
    StepKinds(v, a, w);
  }

  /**
   * C and its delayed position only ever grow, replays only grow, and a replay that has been dropped
   * stays dropped, always for one of the two reasons of `Refuted`.
   */
  lemma {:induction false} RunOnlyGrows(cfg: Config, run: seq<State>, i: nat)
    requires cfg.quorumSize >= 1 && IsRun(cfg, run) && i < |run|
    ensures Later(run[i], Last(run))
    ensures forall id :: Dropped(run[i], id) ==>
              Dropped(Last(run), id) && Refuted(Last(run).canon, Last(run).replays[id])
    decreases |run|
  {
    RunInvariant(cfg, run);
    var n := |run| - 1;
    if i < n {
      RunPrefix(cfg, run, n);
      RunInvariant(cfg, run[..n]);
      RunOnlyGrows(cfg, run[..n], i);
      StepIsLater(run[n - 1], run[n]);
      LaterIsTransitive(run[i], run[n - 1], run[n]);
    }
  }

  // ---- Finishing ----

  ghost predicate AllFinished(v: State) {
    forall id :: id in v.replays ==> v.replays[id].finished
  }

  /** The state `finish` expects: its panic and its three assertions cannot fire. */
  ghost predicate ReadyToFinish(v: State) {
    v.mode == Stalemate(map[]) && v.reserve == {} && v.canonDelayed == |v.canon|
  }

  /** With all replays complete, a quorum has caught up and therefore switches. */
  lemma FinishedQuorumSwitches(v: State)
    requires Inv(v) && v.mode.Quorum? && AllFinished(v)
    ensures ShouldChange(v)
  {
    var id :| id in v.mode.members && v.replays[id].delayed == LeastDelayed(v.replays, v.mode.members);
    assert MemberOk(v.canon, v.replays[id]);
  }

  /** With all replays complete, a stalemate that still has candidates resolves. */
  lemma FinishedStalemateSwitches(v: State)
    requires Inv(v) && v.mode.Stalemate? && AllFinished(v)
    ensures v.reserve == {}
    ensures v.mode.cand != map[] ==> ShouldChange(v)
  {
    assert forall id :: id in v.reserve ==> id in v.replays;
    if v.mode.cand != map[] {
      var id :| id in v.mode.cand;
      assert CandidateOk(v.canon, v.replays[id], v.mode.cand[id]);
      assert v.replays[id].delayed > 0;
    }
  }

  lemma SettledIsReady(v: State)
    requires Inv(v) && !ShouldChange(v) && AllFinished(v)
    ensures ReadyToFinish(v)
  {
    if v.mode.Quorum? {
      FinishedQuorumSwitches(v);
    } else {
      FinishedStalemateSwitches(v);
    }
  }

  /** Once all replays are finished and removed and the machine has settled, `finish` is safe. */
  lemma FinishIsSafe(cfg: Config, run: seq<State>)
    requires cfg.quorumSize >= 1 && IsRun(cfg, run)
    requires !ShouldChange(Last(run)) && AllFinished(Last(run))
    ensures ReadyToFinish(Last(run))
  {
    RunInvariant(cfg, run);
    SettledIsReady(Last(run));
  }

  lemma OnlyFinishFinishes(v: State, a: Action, w: State)
    requires Inv(v) && Takes(v, a, w) && w.canonFinished
    ensures a.Finish?
  {
  }

  /** A run whose C is finished has dropped every replay, and all of them were complete. */
  lemma FinishedRun(cfg: Config, run: seq<State>)
    requires cfg.quorumSize >= 1 && IsRun(cfg, run) && Last(run).canonFinished
    ensures var v := Last(run);
            && Inv(v) && ReadyToFinish(v) && AllFinished(v)
            && forall id :: id in v.replays ==> Dropped(v, id) && Refuted(v.canon, v.replays[id])
  {
    hide Inv;
    RunInvariant(cfg, run);
    var n := |run| - 1;
    var (v, w) := (run[n - 1], run[n]);
    RunPrefix(cfg, run, n);
    RunInvariant(cfg, run[..n]);
    assert Step(v, w);
    FinishingStep(v, w);
    ReadyIsDropped(w);
  }

  lemma FinishingStep(v: State, w: State)
    requires Inv(v) && Step(v, w) && w.canonFinished
    ensures ReadyToFinish(w) && AllFinished(w)
  {
    hide SetsOk;
    hide Notified;
    var a :| Takes(v, a, w);
    OnlyFinishFinishes(v, a, w);
    SettledIsReady(v);
  }

  lemma ReadyIsDropped(v: State)
    requires Inv(v) && ReadyToFinish(v)
    ensures forall id :: id in v.replays ==> Dropped(v, id) && Refuted(v.canon, v.replays[id])
  {
  }

  // ---- One common stream ----

  ghost predicate AllFollow(v: State, stream: seq<byte>) {
    forall id :: id in v.replays ==> v.replays[id].log <= stream
  }

  lemma ExitFollows(v: State, c: Choice, stream: seq<byte>)
    requires Core(v) && v.mode.Stalemate? && ValidChoice(v, c)
    requires v.canon <= stream && AllFollow(v, stream)
    ensures Canon2(v, c) <= stream
  {
    ExitExtendsCanon(v, c);
    var (n, log) := (|v.canon|, v.replays[c.source].log);
    assert CandidateOk(v.canon, v.replays[c.source], c.best);
    assert log <= stream && stream[n] == c.best;
    Extends(v.canon, c.best, log, |Canon2(v, c)|, stream);
  }

  lemma Extends(canon: seq<byte>, next: byte, log: seq<byte>, end: nat, stream: seq<byte>)
    requires canon <= stream && log <= stream && |canon| < end <= |log| && stream[|canon|] == next
    ensures canon + [next] + log[|canon| + 1..end] <= stream
  {
    assert canon + [next] + log[|canon| + 1..end] == stream[..end];
  }

  lemma EarlierFollows(v: State, w: State, stream: seq<byte>)
    requires Later(v, w) && AllFollow(w, stream)
    ensures AllFollow(v, stream)
  {
    forall id | id in v.replays ensures v.replays[id].log <= stream {
      assert Grown(v.replays[id], w.replays[id]);
    }
  }

  lemma StepFollows(v: State, w: State, stream: seq<byte>)
    requires Inv(v) && Step(v, w) && v.canon <= stream && AllFollow(v, stream)
    ensures w.canon <= stream
  {
    CanonChangesAtExit(v, w);
    if w.canon != v.canon {
      var c :| ValidChoice(v, c) && w == ExitStalemate(v, c);
      ExitFollows(v, c, stream);
    }
  }

  lemma {:induction false} RunFollows(cfg: Config, run: seq<State>, stream: seq<byte>)
    requires cfg.quorumSize >= 1 && IsRun(cfg, run) && AllFollow(Last(run), stream)
    ensures Last(run).canon <= stream
    decreases |run|
  {
    var n := |run| - 1;
    if n > 0 {
      RunPrefix(cfg, run, n);
      RunInvariant(cfg, run[..n]);
      StepIsLater(run[n - 1], run[n]);
      EarlierFollows(run[n - 1], run[n], stream);
      RunFollows(cfg, run[..n], stream);
      StepFollows(run[n - 1], run[n], stream);
    }
  }

  /**
   * When all writers send prefixes of one stream, C ends up as exactly the longest of them, whatever
   * the quorum size, the comparison distance and the interleaving.
   */
  lemma CommonStreamIsKeptWhole(cfg: Config, run: seq<State>, stream: seq<byte>)
    requires cfg.quorumSize >= 1 && IsRun(cfg, run) && Last(run).canonFinished
    requires AllFollow(Last(run), stream)
    ensures var v := Last(run);
            && v.canon <= stream
            && (forall id :: id in v.replays ==> v.replays[id].log <= v.canon)
            && (v.replays != map[] ==> exists id :: id in v.replays && v.replays[id].log == v.canon)
  {
    var v := Last(run);
    FinishedRun(cfg, run);
    RunFollows(cfg, run, stream);
    forall id | id in v.replays ensures v.replays[id].log <= v.canon {
      assert Refuted(v.canon, v.replays[id]);
    }
    if v.replays != map[] {
      var id :| id in v.replays;
      if v.canon != [] {
        id :| id in v.replays && |v.canon| <= |v.replays[id].log|;
      }
      assert v.replays[id].log <= v.canon && |v.replays[id].log| >= |v.canon|;
    }
  }

  // ---- Lengths ----

  ghost predicate Short(v: State, limit: nat) {
    forall id :: id in v.replays ==> |v.replays[id].log| <= limit
  }

  lemma WasShort(v: State, w: State, limit: nat)
    requires Later(v, w)
    ensures Short(w, limit) ==> Short(v, limit)
  {
    forall id | id in v.replays && Short(w, limit) ensures |v.replays[id].log| <= limit {
      assert Grown(v.replays[id], w.replays[id]);
    }
  }

  // ---- Termination ----

  ghost function Measure(v: State): int {
    2 * (Longest(v.replays, v.replays.Keys) - |v.canon|) + if v.mode.Quorum? then 1 else 0
  }

  lemma SameLongest(r: map<nat, Replay>, s: map<nat, Replay>)
    requires r.Keys == s.Keys && forall id :: id in r ==> s[id].log == r[id].log
    ensures Longest(r, r.Keys) == Longest(s, s.Keys)
  {
  }

  lemma MeasureIsNatural(v: State)
    requires Bounded(v)
    ensures Measure(v) >= 0
  {
    if v.canon != [] {
      var id :| id in v.replays && |v.canon| <= |v.replays[id].log|;
    }
  }

  lemma ExitShrinksMeasure(v: State, c: Choice)
    requires Core(v) && v.mode.Stalemate? && ValidChoice(v, c)
    ensures Measure(ExitStalemate(v, c)) < Measure(v)
  {
    ExitExtendsCanon(v, c);
    SameLongest(v.replays, ExitStalemate(v, c).replays);
  }

  lemma EnterShrinksMeasure(v: State)
    requires WellFormed(v) && v.mode.Quorum?
    ensures Measure(EnterStalemate(v)) < Measure(v)
  {
    SameLongest(v.replays, EnterStalemate(v).replays);
  }

  /** Switching back and forth cannot go on forever. */
  lemma SwitchesTerminate(v: State, w: State)
    requires Core(v) && Flip(v, w)
    ensures 0 <= Measure(w) < Measure(v)
  {
    FlipKeepsInv(v, w);
    MeasureIsNatural(w);
    if v.mode.Stalemate? {
      var c :| ValidChoice(v, c) && w == ExitStalemate(v, c);
      ExitShrinksMeasure(v, c);
    } else {
      EnterShrinksMeasure(v);
    }
  }
}
