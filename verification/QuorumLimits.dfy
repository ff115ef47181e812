/** Runs that show where the limits are: too short a comparison distance, and a late replay with more delay. */
module QuorumLimits {
  import opened Bytes
  import opened QuorumMachine
  import opened QuorumInvariant
  import opened QuorumDelays
  import opened QuorumMatching
  import opened QuorumTheorems

  ghost predicate Reachable(cfg: Config, v: State) {
    exists run :: IsRun(cfg, run) && Last(run) == v
  }

  lemma InitIsReachable(cfg: Config)
    ensures Reachable(cfg, Init(cfg))
  {
    assert IsRun(cfg, [Init(cfg)]) && Last([Init(cfg)]) == Init(cfg);
  }

  lemma ReachIsInvariant(cfg: Config, v: State)
    requires cfg.quorumSize >= 1 && Reachable(cfg, v)
    ensures Inv(v) && v.cfg == cfg
  {
    var run :| IsRun(cfg, run) && Last(run) == v;
    RunInvariant(cfg, run);
  }

  lemma ReachMore(cfg: Config, v: State, a: Action, w: State)
    requires Reachable(cfg, v) && WellFormed(v) && Takes(v, a, w)
    ensures Reachable(cfg, w)
  {
    var run :| IsRun(cfg, run) && Last(run) == v;
    assert Step(v, w);
    RunSnoc(cfg, run, w);
    assert Last(run + [w]) == w;
  }

  lemma ReachStep(cfg: Config, v: State, a: Action, w: State)
    requires cfg.quorumSize >= 1 && Reachable(cfg, v) && WellFormed(v) && Takes(v, a, w)
    ensures Reachable(cfg, w) && WellFormed(w) && w.cfg == cfg
  {
    ReachMore(cfg, v, a, w);
    ReachIsInvariant(cfg, w);
  }

  /** A settled stalemate without candidates. */
  ghost predicate Idle(cfg: Config, v: State, reserve: set<nat>) {
    && Reachable(cfg, v) && WellFormed(v) && v.cfg == cfg && !v.canonFinished
    && v.mode == Stalemate(map[]) && v.reserve == reserve
  }

  ghost predicate CaughtUp(v: State, id: nat) {
    Open(v, id) && v.replays[id].delayed == |v.replays[id].log|
  }

  /** Only replays in `ids` differ. */
  ghost predicate SameBut(v: State, w: State, ids: set<nat>) {
    && w.replays.Keys == v.replays.Keys && w.token == v.token
    && forall i :: i in v.replays && i !in ids ==> w.replays[i] == v.replays[i]
  }

  lemma LoneChoice(v: State, id: nat, best: byte)
    requires Core(v) && v.mode.Stalemate? && id in v.mode.cand
    requires Group(v.mode.cand, best) == {id} && IsBest(v, best)
    ensures var c := Choice(best, [id], id);
            && Elements([id]) == {id} && ValidChoice(v, c)
            && Canon2(v, c) == v.canon + v.replays[id].log[|v.canon|..]
  {
    assert Elements([id]) == {id};
    assert CandidateOk(v.canon, v.replays[id], best);
    TailSplits(v.replays[id].log, |v.canon|);
  }

  lemma TailSplits(log: seq<byte>, n: nat)
    requires n < |log|
    ensures log[n..] == [log[n]] + log[n + 1..|log|]
  {
  }

  /** A stalemate resolved in favour of a lone candidate appends all that candidate has. */
  lemma LoneExit(v: State, id: nat, best: byte) returns (w: State)
    requires Core(v) && v.mode.Stalemate? && CanExitStalemate(v) && v.reserve == {}
    requires id in v.mode.cand && Group(v.mode.cand, best) == {id} && IsBest(v, best)
    requires CaughtUp(v, id)
    ensures Flip(v, w) && w == v.(canon := w.canon, replays := w.replays,
                                  canonDelayed := w.canonDelayed, mode := Quorum({id}))
    ensures w.canon == v.canon + v.replays[id].log[|v.canon|..] && w.canonDelayed >= |w.canon|
    ensures SameStreams(v, w) && SameBut(v, w, v.mode.cand.Keys)
  {
    var c := Choice(best, [id], id);
    LoneChoice(v, id, best);
    assert CandidateOk(v.canon, v.replays[id], best);
    w := ExitStalemate(v, c);
    assert w.reserve == {};
    UntouchedByExit(v, c);
  }

  lemma UntouchedByExit(v: State, c: Choice)
    requires Core(v) && v.mode.Stalemate? && ValidChoice(v, c) && v.reserve == {}
    ensures SameBut(v, ExitStalemate(v, c), v.mode.cand.Keys)
  {
  }

  lemma LoneEnter(v: State, id: nat) returns (w: State)
    requires Core(v) && v.mode == Quorum({id}) && v.reserve == {} && HasToEnterStalemate(v)
    requires Open(v, id) && |v.replays[id].log| <= |v.canon|
    ensures Flip(v, w) && w == v.(mode := Stalemate(map[]), reserve := {id})
  {
    w := EnterStalemate(v);
    assert Judge(v.cfg, v.canon, v.replays[id]).Stay?;
    assert w.replays == v.replays;
    assert {} + {id} == {id};
  }

  /** A lone member that has caught up contributes all it has, and waits in the reserve again. */
  lemma LoneRound(cfg: Config, v: State, id: nat, best: byte) returns (w: State)
    requires cfg.quorumSize >= 1 && Reachable(cfg, v) && WellFormed(v) && !v.canonFinished
    requires v.mode.Stalemate? && CanExitStalemate(v) && v.reserve == {}
    requires id in v.mode.cand && Group(v.mode.cand, best) == {id} && IsBest(v, best)
    requires CaughtUp(v, id) && |v.canon| < |v.replays[id].log|
    ensures Idle(cfg, w, {id}) && CaughtUp(w, id)
    ensures w.canon == v.canon + v.replays[id].log[|v.canon|..]
    ensures SameStreams(v, w) && SameBut(v, w, v.mode.cand.Keys)
  {
    ReachIsInvariant(cfg, v);
    var u := LoneExit(v, id, best);
    ReachStep(cfg, v, Switch, u);
    ReachIsInvariant(cfg, u);
    w := LoneEnter(u, id);
    ReachStep(cfg, u, Switch, w);
  }

  /** A replay of the reserve reports more data than C has: it becomes a candidate. */
  lemma Offer(v: State, id: nat, next: byte)
    requires WellFormed(v) && v.mode.Stalemate? && id in v.reserve
    requires Judge(v.cfg, v.canon, v.replays[id]) == Candidate(next) && v.replays[id].delayed > 0
    ensures var w := UpdateCall(v, id);
            && SameBut(v, w, {id})
            && w == v.(replays := w.replays, started := true,
                       mode := Stalemate(v.mode.cand[id := next]), reserve := v.reserve - {id})
  {
    var w := UpdateCall(v, id);
    assert w.mode.cand == v.mode.cand[id := next];
    assert w.reserve == v.reserve - {id};
  }

  lemma SubsetIsSmaller(a: set<nat>, b: set<nat>)
    requires a <= b
    ensures |a| <= |b|
  {
    assert a + (b - a) == b;
  }

  lemma SameJudgement(cfg: Config, canon: seq<byte>, r: Replay, s: Replay)
    requires s.log == r.log && s.matched == r.matched && s.finished == r.finished
    ensures Judge(cfg, canon, r) == Judge(cfg, canon, s)
  {
    if |canon| < |r.log| {
      assert Diverges(cfg, canon, r) <==> Diverges(cfg, canon, s);
    }
  }

  lemma OnlyCandidateIsBest(v: State, id: nat, b: byte)
    requires v.mode == Stalemate(map[id := b]) && id in v.replays
    ensures Group(v.mode.cand, b) == {id} && IsBest(v, b)
  {
    assert forall a: byte :: a != b ==> Group(v.mode.cand, a) == {};
  }

  /** A stalemate that waits for more data. */
  ghost predicate Waiting(cfg: Config, v: State, cand: map<nat, byte>, reserve: set<nat>) {
    && Reachable(cfg, v) && WellFormed(v) && v.cfg == cfg && !v.canonFinished
    && v.mode == Stalemate(cand) && v.reserve == reserve && !CanExitStalemate(v)
  }

  lemma Send(cfg: Config, v: State, id: nat, data: seq<byte>) returns (w: State)
    requires cfg.quorumSize >= 1 && v.mode.Stalemate?
    requires Waiting(cfg, v, v.mode.cand, v.reserve) && Open(v, id)
    requires |v.replays[id].log + data| <= USIZE_MAX
    ensures Waiting(cfg, w, v.mode.cand, v.reserve) && w == Appended(v, id, data)
  {
    w := Appended(v, id, data);
    ReachStep(cfg, v, Append(id, data), w);
  }

  lemma Report(cfg: Config, v: State, id: nat, next: byte) returns (w: State)
    requires cfg.quorumSize >= 1 && v.mode.Stalemate?
    requires Waiting(cfg, v, v.mode.cand, v.reserve) && Open(v, id)
    requires id in v.reserve && Judge(cfg, v.canon, v.replays[id]) == Candidate(next)
    ensures Reachable(cfg, w) && WellFormed(w)
    ensures w == v.(replays := w.replays, started := true,
                    mode := Stalemate(v.mode.cand[id := next]), reserve := v.reserve - {id})
    ensures SameBut(v, w, {id}) && CaughtUp(w, id) && w.replays[id].log == v.replays[id].log
  {
    ReachIsInvariant(cfg, v);
    var n := |v.replays[id].log|;
    var t := Delayed(v, id, n);
    SameJudgement(cfg, v.canon, v.replays[id], t.replays[id]);
    Offer(t, id, next);
    w := UpdateCall(t, id);
    assert ReplayOk(|v.canon|, v.replays[id]);
    ReachStep(cfg, v, Tick(id, n), w);
  }

  /** The only replay in the reserve sends more data and has it merged. */
  lemma Deliver(cfg: Config, v: State, id: nat, data: seq<byte>) returns (w: State)
    requires cfg.quorumSize >= 1 && Idle(cfg, v, {id}) && Open(v, id)
    requires var r := v.replays[id];
             && |v.canon| < |r.log + data| <= USIZE_MAX
             && Judge(cfg, v.canon, r.(log := r.log + data)).Candidate?
    ensures Idle(cfg, w, {id}) && CaughtUp(w, id) && SameBut(v, w, {id})
    ensures w.canon == v.canon + (v.replays[id].log + data)[|v.canon|..]
    ensures w.replays[id].log == v.replays[id].log + data
  {
    var next := (v.replays[id].log + data)[|v.canon|];
    var u := Send(cfg, v, id, data);
    var x := Report(cfg, u, id, next);
    assert x.reserve == {};
    OnlyCandidateIsBest(x, id, next);
    w := LoneRound(cfg, x, id, next);
  }

  /** A replay of an idle stalemate ends. */
  lemma End(cfg: Config, v: State, reserve: set<nat>, id: nat) returns (w: State)
    requires cfg.quorumSize >= 1 && Idle(cfg, v, reserve) && CaughtUp(v, id)
    requires |v.replays[id].log| <= |v.canon|
    ensures Idle(cfg, w, reserve - {id}) && w.canon == v.canon && SameBut(v, w, {id})
    ensures w.replays[id].log == v.replays[id].log && w.replays[id].finished
  {
    w := EndCall(Finished(v, id), id);
    ReachStep(cfg, v, Remove(id), w);
    EndsDropped(Finished(v, id), id);
  }

  lemma EndsDropped(v: State, id: nat)
    requires WellFormed(v) && v.mode == Stalemate(map[])
    requires id in v.replays && v.replays[id].finished && |v.replays[id].log| <= |v.canon|
    ensures EndCall(v, id).mode == Stalemate(map[]) && EndCall(v, id).reserve == v.reserve - {id}
  {
    assert Judge(v.cfg, v.canon, v.replays[id]).Drop?;
  }

  lemma Close(cfg: Config, v: State) returns (w: State)
    requires cfg.quorumSize >= 1 && Idle(cfg, v, {}) && AllFinished(v)
    ensures Reachable(cfg, w) && w == v.(canonFinished := true)
  {
    w := v.(canonFinished := true);
    ReachStep(cfg, v, Finish, w);
  }

  function Zeros(n: nat): seq<byte> {
    seq(n, _ => 0)
  }

  /** A finished run of replays no longer than `limit` in which C is none of them. */
  ghost predicate Fails(cfg: Config, limit: nat, run: seq<State>) {
    && IsRun(cfg, run) && Last(run).canonFinished && Last(run).replays != map[]
    && Short(Last(run), limit) && !IsSent(Last(run))
  }

  /** One replay sends all of `data` before anyone else joins. */
  lemma FirstAlone(cfg: Config, data: seq<byte>) returns (w: State)
    requires cfg.quorumSize >= 1 && 0 < |data| <= USIZE_MAX
    ensures Idle(cfg, w, {0}) && CaughtUp(w, 0) && w.token == 1 && w.replays.Keys == {0}
    ensures w.canon == data && w.replays[0].log == data
  {
    InitIsReachable(cfg);
    var v := AddCall(Init(cfg));
    ReachStep(cfg, Init(cfg), Add, v);
    assert v.reserve == {0} && v.replays.Keys == {0};
    assert Judge(cfg, [], v.replays[0].(log := [] + data)).Candidate?;
    w := Deliver(cfg, v, 0, data);
    assert [] + ([] + data)[0..] == data;
  }

  lemma Join(cfg: Config, v: State) returns (w: State)
    requires cfg.quorumSize >= 1 && Idle(cfg, v, {0}) && v.token == 1 && v.replays.Keys == {0}
    ensures Idle(cfg, w, {0, 1}) && w.canon == v.canon && w.replays.Keys == {0, 1}
    ensures w.replays[0] == v.replays[0] && w.replays[1] == Replay([], 0, 0, false, 0)
  {
    w := AddCall(v);
    ReachStep(cfg, v, Add, w);
  }

  lemma StrangerIsTaken(cfg: Config, r: Replay, canon: seq<byte>, log: seq<byte>)
    requires r.log == log && r.matched == 0
    requires |canon| == cfg.cmpDistance + 1 && |log| == |canon| + 1
    requires forall i :: 0 < i < |canon| ==> log[i] == canon[i]
    ensures Judge(cfg, canon, r).Candidate?
  {
    assert MatchStart(cfg, r, |canon|) == 1;
  }

  /** The first replay has ended, a second one has joined late and has not sent anything yet. */
  ghost predicate StrangerJoined(cfg: Config, v: State, data: seq<byte>) {
    && Idle(cfg, v, {1}) && v.canon == data && v.replays.Keys == {0, 1}
    && v.replays[0].log == data && v.replays[0].finished
    && v.replays[1] == Replay([], 0, 0, false, 0)
  }

  lemma StrangerJoins(cfg: Config, data: seq<byte>) returns (x: State)
    requires cfg.quorumSize >= 1 && 0 < |data| <= USIZE_MAX
    ensures StrangerJoined(cfg, x, data)
  {
    var v := FirstAlone(cfg, data);
    var w := Join(cfg, v);
    x := End(cfg, w, {0, 1}, 0);
    assert {0, 1} - {0} == {1};
  }

  lemma StrangerEnds(cfg: Config, x: State, canon: seq<byte>, stranger: seq<byte>) returns (end: State)
    requires cfg.quorumSize >= 1 && StrangerJoined(cfg, x, canon)
    requires |canon| == cfg.cmpDistance + 1 && |stranger| == |canon| + 1 <= USIZE_MAX
    requires forall i :: 0 < i < |canon| ==> stranger[i] == canon[i]
    ensures Reachable(cfg, end) && end.canonFinished && end.replays.Keys == {0, 1}
    ensures end.canon == canon + stranger[|canon|..]
    ensures end.replays[0].log == canon && end.replays[1].log == stranger
  {
    assert [] + stranger == stranger;
    StrangerIsTaken(cfg, x.replays[1].(log := stranger), canon, stranger);
    var y := Deliver(cfg, x, 1, stranger);
    var z := End(cfg, y, {1}, 1);
    end := Close(cfg, z);
  }

  /**
   * Too short a comparison distance: a late replay that differs from C in its first byte only is
   * taken for a match, whatever the quorum size.
   */
  lemma LateStrangerIsMerged(cfg: Config, limit: nat)
    requires cfg.quorumSize >= 1 && cfg.cmpDistance + 2 <= limit <= USIZE_MAX
    ensures exists run :: Fails(cfg, limit, run)
  {
    var zeros := Zeros(cfg.cmpDistance + 1);
    var x := StrangerJoins(cfg, zeros);
    var end := StrangerEnds(cfg, x, zeros, [1] + zeros);
    assert end.canon[0] == 0 && end.replays[1].log[0] == 1;
    var run :| IsRun(cfg, run) && Last(run) == end;
    assert Fails(cfg, limit, run);
  }

  // ---- C's delayed position can be past the minimum ----

  /** A report of no more data than C has leaves the replay in the reserve. */
  lemma EarlyReport(cfg: Config, v: State, id: nat, n: nat) returns (w: State)
    requires cfg.quorumSize >= 1 && Waiting(cfg, v, map[], {id}) && Open(v, id)
    requires v.replays[id].delayed <= n <= |v.replays[id].log| <= |v.canon|
    ensures Waiting(cfg, w, map[], {id}) && w == Delayed(v, id, n).(started := w.started)
  {
    var u := Delayed(v, id, n);
    w := UpdateCall(u, id);
    StaysPut(u, id);
    ReachStep(cfg, v, Tick(id, n), w);
  }

  lemma StaysPut(u: State, id: nat)
    requires WellFormed(u) && u.mode.Stalemate? && u.reserve == {id} && !u.replays[id].finished
    requires |u.replays[id].log| <= |u.canon|
    ensures Place(u, {id}) == u
  {
    var w := Place(u, {id});
    assert Judge(u.cfg, u.canon, u.replays[id]).Stay?;
    assert w.replays == u.replays && w.reserve == u.reserve && w.mode.cand == u.mode.cand;
  }

  /** The stranger has sent all of `log`, of which only the first byte is past the delay. */
  ghost predicate StrangerSent(cfg: Config, v: State, canon: seq<byte>, log: seq<byte>) {
    && Reachable(cfg, v) && WellFormed(v) && v.cfg == cfg && !v.canonFinished && v.canon == canon
    && v.replays.Keys == {0, 1} && v.replays[0].log == canon
    && v.replays[1].log == log && v.replays[1].delayed == 1
  }

  /** First one byte is sent and reported, then the rest, which is reported while still held back. */
  lemma StrangerSends(cfg: Config, x: State, canon: seq<byte>, log: seq<byte>) returns (z: State)
    requires cfg.quorumSize >= 1 && StrangerJoined(cfg, x, canon)
    requires 0 < |canon| && |log| == |canon| + 1 <= USIZE_MAX
    requires Judge(cfg, canon, x.replays[1].(log := log)).Candidate?
    ensures StrangerSent(cfg, z, canon, log) && z.started
    ensures z.mode == Stalemate(map[1 := log[|canon|]]) && z.reserve == {}
  {
    hide Judge;
    var u := Send(cfg, x, 1, log[..1]);
    var v := EarlyReport(cfg, u, 1, 1);
    var w := Send(cfg, v, 1, log[1..]);
    assert [] + log[..1] + log[1..] == log;
    var t := Delayed(w, 1, 1);
    SameJudgement(cfg, canon, x.replays[1].(log := log), t.replays[1]);
    WantsNext(cfg, canon, t.replays[1]);
    Offer(t, 1, log[|canon|]);
    z := UpdateCall(t, 1);
    assert z.reserve == {};
    ReachStep(cfg, w, Tick(1, 1), z);
  }

  lemma WantsNext(cfg: Config, canon: seq<byte>, r: Replay)
    requires Judge(cfg, canon, r).Candidate?
    ensures |canon| < |r.log| && Judge(cfg, canon, r) == Candidate(r.log[|canon|])
  {
  }

  lemma LoneQuorum(v: State, id: nat, best: byte) returns (w: State)
    requires Core(v) && v.mode.Stalemate? && CanExitStalemate(v) && id in v.mode.cand
    requires Group(v.mode.cand, best) == {id} && IsBest(v, best)
    ensures Flip(v, w) && SameStreams(v, w) && w.mode == Quorum({id})
    ensures w.canon == v.canon + v.replays[id].log[|v.canon|..] && w.cfg == v.cfg
    ensures w.canonDelayed == Max(|v.canon|, Min(|w.canon|, v.replays[id].delayed))
  {
    hide IsBest;
    hide CanExitStalemate;
    var c := Choice(best, [id], id);
    LoneChoice(v, id, best);
    w := ExitStalemate(v, c);
  }

  /** The last byte of the stranger becomes part of C, with no more of C shown than before. */
  lemma SlowStranger(cfg: Config, x: State, canon: seq<byte>, log: seq<byte>) returns (w: State)
    requires cfg.quorumSize >= 1 && StrangerJoined(cfg, x, canon)
    requires 0 < |canon| && |log| == |canon| + 1 <= USIZE_MAX
    requires Judge(cfg, canon, x.replays[1].(log := log)).Candidate?
    ensures Reachable(cfg, w) && WellFormed(w) && w.mode == Quorum({1}) && !ShouldChange(w)
    ensures w.canon == canon + [log[|canon|]] && w.canonDelayed == |canon|
    ensures w.replays.Keys == {0, 1} && w.replays[0].log == canon
    ensures w.replays[1].log == log && w.replays[1].delayed == 1
  {
    hide Judge;
    hide Flip;
    hide Core;
    var z := StrangerSends(cfg, x, canon, log);
    ReachIsInvariant(cfg, z);
    OnlyCandidateIsBest(z, 1, log[|canon|]);
    w := LoneQuorum(z, 1, log[|canon|]);
    assert SameStream(z.replays[1], w.replays[1]) && SameStream(z.replays[0], w.replays[0]);
    assert log[|canon|..] == [log[|canon|]];
    ReachStep(cfg, z, Switch, w);
  }

  /** A late replay that is shown with more delay than C already was: C keeps what it has shown. */
  lemma DelayedExceedsMinimum(cfg: Config)
    requires cfg.quorumSize >= 1
    ensures exists v :: Reachable(cfg, v) && WellFormed(v) && v.mode.Quorum? && !ShouldChange(v) &&
              LeastShown(v) < v.canonDelayed
  {
    var canon: seq<byte> := [0, 0];
    var late: seq<byte> := [0, 0, 0];
    var x := StrangerJoins(cfg, canon);
    assert Judge(cfg, canon, x.replays[1].(log := late)).Candidate?;
    var w := SlowStranger(cfg, x, canon, late);
    assert LeastShown(w) == 1;
  }

  // ---- A quorum size of zero ----

  /** A stalemate cannot be resolved in favour of a quorum without members. */
  lemma NoChoiceOfZero(v: State, w: State)
    requires WellFormed(v) && v.cfg.quorumSize == 0 && v.mode.Stalemate? && CanExitStalemate(v)
    ensures !Step(v, w)
  {
  }

  lemma ZeroQuorumReports(cfg: Config) returns (w: State)
    requires cfg.quorumSize == 0
    ensures Reachable(cfg, w) && WellFormed(w) && w.mode.Stalemate? && w.cfg == cfg && CanExitStalemate(w)
    ensures !w.canonFinished
  {
    var u := AddCall(Init(cfg));
    var v := Appended(u, 0, [0]);
    var t := Delayed(v, 0, 1);
    w := UpdateCall(t, 0);
    assert t.replays[0] == Replay([0], 0, 1, false, 0);
    assert Judge(cfg, [], t.replays[0]) == Candidate(0);
    Offer(t, 0, 0);
    assert w.reserve == {} && 0 in w.mode.cand;
    InitIsReachable(cfg);
    ReachMore(cfg, Init(cfg), Add, u);
    ReachMore(cfg, u, Append(0, [0]), v);
    ReachMore(cfg, v, Tick(0, 1), w);
  }

  /** A reachable state that is not finished and has to switch, but cannot. */
  ghost predicate Stuck(cfg: Config, v: State) {
    Reachable(cfg, v) && !v.canonFinished && ShouldChange(v) && forall w :: !Step(v, w)
  }

  /**
   * With a quorum size of zero the first report is the end: it calls for a switch that has no choice of
   * members, which is where the code asserts that there are some.
   */
  lemma ZeroQuorumIsStuck(cfg: Config)
    requires cfg.quorumSize == 0
    ensures exists v :: WellFormed(v) && Stuck(cfg, v)
  {
    var v := ZeroQuorumReports(cfg);
    forall w ensures !Step(v, w) {
      NoChoiceOfZero(v, w);
    }
    assert Stuck(cfg, v);
  }
}
