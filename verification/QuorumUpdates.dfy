/** How the loops of the strategy add up to the steps of the merge machine. */
module QuorumUpdates {
  import opened Bytes
  import opened QuorumMachine
  import opened QuorumInvariant

  // ---- One operation applied to many replays ----

  datatype Update = Wiping | Matching(canonLen: nat) | Trimming(cfg: Config, canonLen: nat)

  function Apply(u: Update, r: Replay): Replay {
    match u
    case Wiping => Wipe(r)
    case Matching(n) => Match(r, n)
    case Trimming(cfg, n) => Trim(cfg, r, n)
  }

  ghost function OnAll(replays: map<nat, Replay>, ids: set<nat>, u: Update): map<nat, Replay> {
    map id | id in replays :: if id in ids then Apply(u, replays[id]) else replays[id]
  }

  lemma OnNone(replays: map<nat, Replay>, u: Update)
    ensures OnAll(replays, {}, u) == replays
  {
  }

  lemma OnOneMore(replays: map<nat, Replay>, ids: set<nat>, id: nat, u: Update)
    requires id in replays && id !in ids
    ensures var some := OnAll(replays, ids, u);
            some[id := Apply(u, some[id])] == OnAll(replays, ids + {id}, u)
  {
  }

  // ---- Placing one after another ----

  /** The effect of trying one replay of the reserve. */
  ghost function PlacedOne(v: State, id: nat): State
    requires v.mode.Stalemate? && id in v.replays
  {
    var verdict := Judge(v.cfg, v.canon, v.replays[id]);
    v.(replays := v.replays[id := Placed(v.cfg, v.canon, v.replays[id])],
       reserve := if verdict.Stay? then v.reserve else v.reserve - {id},
       mode := if verdict.Candidate? then Stalemate(v.mode.cand[id := verdict.next]) else v.mode)
  }

  lemma PlacedOneByVerdict(v: State, id: nat, r: Replay)
    requires v.mode.Stalemate? && id in v.replays && v.replays[id] == r
    ensures match Judge(v.cfg, v.canon, r)
            case Stay => PlacedOne(v, id) == v
            case Drop =>
              PlacedOne(v, id) == v.(replays := v.replays[id := Wipe(r)], reserve := v.reserve - {id})
            case Candidate(next) =>
              PlacedOne(v, id) == v.(replays := v.replays[id := Match(r, |v.canon|)],
                                     reserve := v.reserve - {id},
                                     mode := Stalemate(v.mode.cand[id := next]))
  {
    assert v.replays[id := r] == v.replays;
  }

  lemma PlaceOne(v: State, id: nat)
    requires v.mode.Stalemate? && id in v.replays && id in v.reserve
    ensures Place(v, {id}) == PlacedOne(v, id)
  {
    var w := Place(v, {id});
    assert w.replays == PlacedOne(v, id).replays;
    assert w.reserve == PlacedOne(v, id).reserve;
    assert w.mode.cand == PlacedOne(v, id).mode.cand;
  }

  lemma ReserveIsReadable(v: State, id: nat)
    requires Core(v) && id in v.reserve
    ensures ReplayOk(|v.canon|, v.replays[id]) && ReserveOk(v.cfg, |v.canon|, v.replays[id])
    ensures v.mode.Stalemate? ==> id !in v.mode.cand
  {
    assert v.mode.Stalemate? ==> v.mode.cand.Keys == Active(v);
  }

  lemma PlaceNone(v: State)
    requires v.mode.Stalemate?
    ensures Place(v, {}) == v
  {
    assert Place(v, {}).replays == v.replays;
    assert Place(v, {}).mode.cand == v.mode.cand;
  }

  /** Placing is independent of the order. */
  lemma PlaceOneMore(v: State, ids: set<nat>, id: nat)
    requires v.mode.Stalemate? && ids + {id} <= v.reserve <= v.replays.Keys && id !in ids
    ensures Place(Place(v, ids), {id}) == Place(v, ids + {id})
  {
    var (p, b) := (Place(v, ids), Place(v, ids + {id}));
    PlaceOne(p, id);
    var verdict := Judge(v.cfg, v.canon, v.replays[id]);
    MoreReplays(v, ids, id);
    MoreReserve(v, ids, id, verdict);
    MoreCandidates(v, ids, id, verdict);
  }

  lemma MoreReplays(v: State, ids: set<nat>, id: nat)
    requires v.mode.Stalemate? && ids + {id} <= v.replays.Keys && id !in ids
    ensures Place(v, ids + {id}).replays ==
            Place(v, ids).replays[id := Placed(v.cfg, v.canon, v.replays[id])]
    ensures Place(v, ids).replays[id] == v.replays[id]
  {
    hide Judge;
    hide Placed;
  }

  lemma MoreReserve(v: State, ids: set<nat>, id: nat, verdict: Verdict)
    requires v.mode.Stalemate? && ids + {id} <= v.reserve <= v.replays.Keys && id !in ids
    requires verdict == Judge(v.cfg, v.canon, v.replays[id])
    ensures id in Place(v, ids).reserve
    ensures Place(v, ids + {id}).reserve ==
            if verdict.Stay? then Place(v, ids).reserve else Place(v, ids).reserve - {id}
  {
    hide Judge;
    hide Placed;
  }

  lemma MoreCandidates(v: State, ids: set<nat>, id: nat, verdict: Verdict)
    requires v.mode.Stalemate? && ids + {id} <= v.replays.Keys && id !in ids
    requires verdict == Judge(v.cfg, v.canon, v.replays[id])
    ensures Place(v, ids + {id}).mode.cand ==
            if verdict.Candidate? then Place(v, ids).mode.cand[id := verdict.next]
            else Place(v, ids).mode.cand
  {
    hide Judge;
    hide Placed;
  }

  /** A quorum that breaks up leaves a stalemate all of whose replays are still to be placed. */
  lemma BreakUpKeepsCore(v: State)
    requires Core(v) && v.mode.Quorum? && HasToEnterStalemate(v)
    ensures Core(v.(mode := Stalemate(map[]), reserve := v.reserve + v.mode.members))
  {
    var u := v.(mode := Stalemate(map[]), reserve := v.reserve + v.mode.members);
    assert forall id :: Dropped(u, id) <==> Dropped(v, id);
    assert forall id :: id in v.mode.members ==> MemberOk(v.canon, v.replays[id]);
  }

  // ---- Resolving a stalemate, loop by loop ----

  ghost function Losers(v: State, best: byte): set<nat>
    requires v.mode.Stalemate?
  {
    v.mode.cand.Keys - Group(v.mode.cand, best)
  }

  lemma AfterExitByRole(v: State, c: Choice, reserve: set<nat>, id: nat)
    requires WellFormed(v) && v.mode.Stalemate? && v.mode.cand.Keys !! v.reserve && ValidChoice(v, c)
    requires id in v.replays
    requires reserve == v.reserve + (Group(v.mode.cand, c.best) - Elements(c.order))
    ensures var (n, r) := (|Canon2(v, c)|, v.replays[id]);
            AfterExit(v, c, id) ==
            (if id in Elements(c.order) then Match(r, n)
             else if id in reserve then Trim(v.cfg, r, n)
             else if id in Losers(v, c.best) then Wipe(r)
             else r)
  {
  }

  lemma ThreeUpdatesMake(replays: map<nat, Replay>, after: map<nat, Replay>, cfg: Config, n: nat,
                         losers: set<nat>, members: set<nat>, reserve: set<nat>)
    requires losers !! members && losers !! reserve && members !! reserve
    requires after.Keys == replays.Keys
    requires forall id :: id in replays ==>
      after[id] == (if id in members then Match(replays[id], n)
                    else if id in reserve then Trim(cfg, replays[id], n)
                    else if id in losers then Wipe(replays[id])
                    else replays[id])
    ensures OnAll(OnAll(OnAll(replays, losers, Wiping), members, Matching(n)), reserve, Trimming(cfg, n)) == after
  {
  }

  lemma ExitIsThreeUpdates(v: State, c: Choice, n: nat, reserve: set<nat>)
    requires IdsOk(v) && v.mode.Stalemate? && ValidChoice(v, c) && n == |Canon2(v, c)|
    requires reserve == v.reserve + (Group(v.mode.cand, c.best) - Elements(c.order))
    ensures OnAll(OnAll(OnAll(v.replays, Losers(v, c.best), Wiping), Elements(c.order), Matching(n)),
                  reserve, Trimming(v.cfg, n)) ==
            ExitStalemate(v, c).replays
  {
    forall id | id in v.replays
      ensures ExitStalemate(v, c).replays[id] ==
              (if id in Elements(c.order) then Match(v.replays[id], n)
               else if id in reserve then Trim(v.cfg, v.replays[id], n)
               else if id in Losers(v, c.best) then Wipe(v.replays[id])
               else v.replays[id])
    {
      AfterExitByRole(v, c, reserve, id);
    }
    ThreeUpdatesMake(v.replays, ExitStalemate(v, c).replays, v.cfg, n,
                     Losers(v, c.best), Elements(c.order), reserve);
  }

  // ---- Settling ----

  ghost predicate Flips(v: State, w: State) {
    WellFormed(v) && Flip(v, w)
  }

  ghost predicate IsPath(path: seq<State>) {
    path != [] && forall i :: 0 < i < |path| ==> Flips(path[i - 1], path[i])
  }

  /** `w` is what switching back and forth from `v` ends in. */
  ghost predicate Settles(v: State, w: State) {
    !ShouldChange(w) && exists path :: IsPath(path) && path[0] == v && Last(path) == w
  }

  lemma PathOfOne(v: State)
    ensures IsPath([v]) && Last([v]) == v
  {
  }

  lemma PathSettles(path: seq<State>, v: State)
    requires IsPath(path) && path != [] && path[0] == v && !ShouldChange(Last(path))
    ensures Settles(v, Last(path))
  {
  }

  lemma PathSnoc(path: seq<State>, w: State)
    requires IsPath(path) && Flips(Last(path), w)
    ensures IsPath(path + [w])
  {
    hide Flips;
    var longer := path + [w];
    forall i | 0 < i < |longer| ensures Flips(longer[i - 1], longer[i]) {
      if i < |path| {
        assert Flips(path[i - 1], path[i]);
      }
    }
  }

  // ---- Callbacks as pieces of a run ----

  lemma {:induction false} PathKeepsStreams(path: seq<State>)
    requires IsPath(path)
    ensures SameStreams(path[0], Last(path)) && Last(path).canonFinished == path[0].canonFinished
    ensures Last(path).cfg == path[0].cfg && Last(path).token == path[0].token
    ensures Last(path).started == path[0].started
    decreases |path|
  {
    hide Flips;
    var n := |path| - 1;
    if n > 0 {
      PathPrefix(path, n);
      PathKeepsStreams(path[..n]);
      assert Flips(path[n - 1], path[n]);
      FlipKeepsStreams(path[n - 1], path[n]);
    }
  }

  lemma PathPrefix(path: seq<State>, n: nat)
    requires IsPath(path) && 0 < n <= |path|
    ensures IsPath(path[..n])
  {
    hide Flips;
    forall i | 0 < i < n ensures Flips(path[..n][i - 1], path[..n][i]) {
      assert Flips(path[i - 1], path[i]);
    }
  }

  lemma FlipKeepsStreams(v: State, w: State)
    requires Flips(v, w)
    ensures SameStreams(v, w) && w.canonFinished == v.canonFinished && w.cfg == v.cfg && w.token == v.token
    ensures w.started == v.started
  {
    if v.mode.Stalemate? {
      var c :| ValidChoice(v, c) && w == ExitStalemate(v, c);
    }
  }

  /** Settling moves windows only: what the connections sent stays as it was. */
  lemma SettlingKeepsStreams(v: State, w: State)
    requires Settles(v, w)
    ensures SameStreams(v, w) && w.canonFinished == v.canonFinished && w.cfg == v.cfg && w.token == v.token
    ensures w.started == v.started
  {
    var path :| IsPath(path) && path[0] == v && Last(path) == w;
    PathKeepsStreams(path);
  }

  lemma FlipIsStep(v: State, w: State)
    requires Flips(v, w) && !v.canonFinished
    ensures Step(v, w)
  {
    assert Takes(v, Switch, w);
  }

  /** A step and what settling makes of it, as a continuation of a run. */
  lemma {:induction false} RunSettles(cfg: Config, run: seq<State>, path: seq<State>) returns (longer: seq<State>)
    requires IsRun(cfg, run) && IsPath(path) && Step(Last(run), path[0]) && !path[0].canonFinished
    ensures IsRun(cfg, longer) && run <= longer && Last(longer) == Last(path)
    decreases |path|
  {
    hide Step;
    var n := |path| - 1;
    if n == 0 {
      RunSnoc(cfg, run, path[0]);
      longer := run + [path[0]];
    } else {
      PathPrefix(path, n);
      var shorter := RunSettles(cfg, run, path[..n]);
      PathKeepsStreams(path[..n]);
      assert Flips(path[n - 1], path[n]);
      FlipIsStep(path[n - 1], path[n]);
      RunSnoc(cfg, shorter, path[n]);
      longer := shorter + [path[n]];
    }
  }

  /** A callback of the protocol followed by settling. */
  lemma CallbackExtendsRun(cfg: Config, run: seq<State>, a: Action, u: State, w: State) returns (longer: seq<State>)
    requires IsRun(cfg, run) && WellFormed(Last(run)) && Takes(Last(run), a, u) && !u.canonFinished && Settles(u, w)
    ensures IsRun(cfg, longer) && run <= longer && Last(longer) == w
  {
    var path :| IsPath(path) && path[0] == u && Last(path) == w;
    longer := RunSettles(cfg, run, path);
  }
}
