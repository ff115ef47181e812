/**
 * The quorum merge strategy as a machine on values: what each callback and each switch between
 * stalemate and quorum does to the canonical stream, the writer replays and the id sets.
 * Headers are kept apart (`ReplayMerger`), as the strategy itself only compares data.
 */
module QuorumMachine {
  import opened Bytes
  import opened CommonPrefix

  datatype Config = Config(quorumSize: nat, cmpDistance: nat)

  /** A writer replay: all bytes ever sent, the start of the window still kept, and its progress. */
  datatype Replay = Replay(log: seq<byte>, window: nat, delayed: nat, finished: bool, matched: nat)

  /** Candidates are kept with the byte they want next. */
  datatype Mode = Stalemate(cand: map<nat, byte>) | Quorum(members: set<nat>)

  datatype State = State(
    cfg: Config, token: nat, started: bool, replays: map<nat, Replay>,
    canon: seq<byte>, canonDelayed: nat, canonFinished: bool, mode: Mode, reserve: set<nat>)

  function Init(cfg: Config): State {
    State(cfg, 0, false, map[], [], 0, false, Stalemate(map[]), {})
  }

  /** Ids that still take part in merging, apart from the reserve. */
  function Active(v: State): set<nat> {
    match v.mode
    case Stalemate(cand) => cand.Keys
    case Quorum(members) => members
  }

  /** Every id the sets mention is known, and a quorum is never empty. */
  ghost predicate WellFormed(v: State) {
    && v.reserve <= v.replays.Keys
    && Active(v) <= v.replays.Keys
    && (v.mode.Quorum? ==> v.mode.members != {})
  }

  // ---- One replay ----

  /** The strategy only moves the window (forward) and its own mark, never what the connection wrote. */
  predicate SameStream(r: Replay, s: Replay) {
    s.log == r.log && s.delayed == r.delayed && s.finished == r.finished && r.window <= s.window
  }

  function Discarded(window: nat, until: nat): nat {
    Max(window, ChunkFloor(until))
  }

  function Wipe(r: Replay): Replay {
    r.(window := Discarded(r.window, USIZE_MAX))
  }

  function Match(r: Replay, canonLen: nat): Replay {
    var matched := Max(canonLen, r.matched);
    r.(matched := matched, window := Discarded(r.window, matched))
  }

  /** Start of the part of a replay that checking for divergence may still look at. */
  function SkipStart(cfg: Config, canonLen: nat): nat {
    if canonLen > cfg.cmpDistance then canonLen - cfg.cmpDistance else 0
  }

  function Trim(cfg: Config, r: Replay, canonLen: nat): Replay {
    r.(window := Discarded(r.window, SkipStart(cfg, canonLen)))
  }

  function MatchStart(cfg: Config, r: Replay, canonLen: nat): nat {
    Max(r.matched, SkipStart(cfg, canonLen))
  }

  /** A byte the strategy looks at differs. */
  ghost predicate Diverges(cfg: Config, canon: seq<byte>, r: Replay)
    requires |canon| <= |r.log|
  {
    exists i :: MatchStart(cfg, r, |canon|) <= i < |canon| && r.log[i] != canon[i]
  }

  datatype Verdict = Stay | Drop | Candidate(next: byte)

  ghost function Judge(cfg: Config, canon: seq<byte>, r: Replay): Verdict {
    if |r.log| <= |canon| then (if r.finished then Drop else Stay)
    else if Diverges(cfg, canon, r) then Drop
    else Candidate(r.log[|canon|])
  }

  ghost function Placed(cfg: Config, canon: seq<byte>, r: Replay): (p: Replay)
    ensures SameStream(r, p)
  {
    match Judge(cfg, canon, r)
    case Stay => r
    case Drop => Wipe(r)
    case Candidate(_) => Match(r, |canon|)
  }

  // ---- Stalemate ----

  ghost predicate SameStreams(v: State, w: State) {
    && w.replays.Keys == v.replays.Keys
    && forall id :: id in v.replays ==> SameStream(v.replays[id], w.replays[id])
  }

  /** `try_move_replay_to_candidates` for all of `ids`; the order in which they are tried is immaterial. */
  ghost function Place(v: State, ids: set<nat>): (w: State)
    requires v.mode.Stalemate? && ids <= v.replays.Keys
    ensures SameStreams(v, w)
  {
    var replays := map id | id in v.replays ::
      if id in ids then Placed(v.cfg, v.canon, v.replays[id]) else v.replays[id];
    var joined := map id | id in ids && Judge(v.cfg, v.canon, v.replays[id]).Candidate? ::
      Judge(v.cfg, v.canon, v.replays[id]).next;
    var left := set id | id in ids && !Judge(v.cfg, v.canon, v.replays[id]).Stay?;
    v.(replays := replays, reserve := v.reserve - left, mode := Stalemate(v.mode.cand + joined))
  }

  ghost function Group(cand: map<nat, byte>, b: byte): set<nat> {
    set id | id in cand && cand[id] == b
  }

  ghost predicate CanExitStalemate(v: State)
    requires v.mode.Stalemate?
  {
    && v.started
    && v.mode.cand != map[]
    && (v.reserve == {} || exists b: byte :: |Group(v.mode.cand, b)| >= v.cfg.quorumSize)
  }

  ghost function Longest(replays: map<nat, Replay>, ids: set<nat>): (n: nat)
    requires ids <= replays.Keys
    ensures forall id :: id in ids ==> |replays[id].log| <= n
    ensures ids != {} ==> exists id :: id in ids && |replays[id].log| == n
  {
    if ids == {} then 0 else
      var id :| id in ids;
      var rest := Longest(replays, ids - {id});
      assert ids == ids - {id} + {id};
      Max(|replays[id].log|, rest)
  }

  /** Groups are ordered by size, then by longest replay, then by byte. */
  ghost predicate RankAtMost(v: State, a: byte, b: byte)
    requires v.mode.Stalemate? && v.mode.cand.Keys <= v.replays.Keys
  {
    var (ga, gb) := (Group(v.mode.cand, a), Group(v.mode.cand, b));
    var (la, lb) := (Longest(v.replays, ga), Longest(v.replays, gb));
    |ga| < |gb| || (|ga| == |gb| && (la < lb || (la == lb && a <= b)))
  }

  ghost predicate IsBest(v: State, b: byte)
    requires v.mode.Stalemate? && v.mode.cand.Keys <= v.replays.Keys
  {
    && Group(v.mode.cand, b) != {}
    && forall a: byte :: Group(v.mode.cand, a) != {} ==> RankAtMost(v, a, b)
  }

  // ---- Quorum ----

  ghost function Elements(order: seq<nat>): (ids: set<nat>)
    ensures forall i :: 0 <= i < |order| ==> order[i] in ids
  {
    set i | 0 <= i < |order| :: order[i]
  }

  ghost predicate Distinct(order: seq<nat>) {
    forall i, j :: 0 <= i < j < |order| ==> order[i] != order[j]
  }

  /** `calculate_quorum_prefix`: the shortest member (put first) is compared with the others in turn. */
  ghost function QuorumPrefix(replays: map<nat, Replay>, order: seq<nat>, start: nat): nat
    requires order != [] && Elements(order) <= replays.Keys
  {
    var shortest := replays[order[0]].log;
    if |order| == 1 then |shortest| else
      var last := |order| - 1;
      PrefixFromTo(shortest, replays[order[last]].log, start,
                   Some(QuorumPrefix(replays, order[..last], start)))
  }

  ghost function LeastDelayed(replays: map<nat, Replay>, ids: set<nat>): (n: nat)
    requires ids != {} && ids <= replays.Keys
    ensures forall id :: id in ids ==> n <= replays[id].delayed
    ensures exists id :: id in ids && replays[id].delayed == n
  {
    var id :| id in ids;
    if ids == {id} then replays[id].delayed else
      var rest := LeastDelayed(replays, ids - {id});
      assert ids == ids - {id} + {id};
      Min(replays[id].delayed, rest)
  }

  /** What hash-set iteration order and unstable sorting leave open when a stalemate is resolved. */
  datatype Choice = Choice(best: byte, order: seq<nat>, source: nat)

  ghost function Canon1(v: State, c: Choice): seq<byte> {
    v.canon + [c.best]
  }

  /**
   * The members are distinct, as many as allowed, and the longest of the best group; the first of
   * them is a shortest member; the data comes from one of them.
   */
  ghost predicate ValidChoice(v: State, c: Choice)
    requires WellFormed(v) && v.mode.Stalemate?
  {
    var group := Group(v.mode.cand, c.best);
    && IsBest(v, c.best)
    && c.order != [] && Distinct(c.order) && Elements(c.order) <= group
    && |c.order| == Min(|group|, v.cfg.quorumSize)
    && (forall i, j :: i in Elements(c.order) && j in group - Elements(c.order) ==>
          |v.replays[j].log| <= |v.replays[i].log|)
    && (forall i :: i in Elements(c.order) ==> |v.replays[c.order[0]].log| <= |v.replays[i].log|)
    && c.source in Elements(c.order)
    && Appendable(v, c)
  }

  /** The two assertions of `iter_chunks` hold for the data about to be appended. */
  ghost predicate Appendable(v: State, c: Choice)
    requires WellFormed(v) && v.mode.Stalemate? && c.order != []
    requires c.source in v.replays && Elements(c.order) <= v.replays.Keys
  {
    |v.canon| + 1 <= QuorumPrefix(v.replays, c.order, |v.canon| + 1) <= |v.replays[c.source].log|
  }

  ghost function Canon2(v: State, c: Choice): seq<byte>
    requires WellFormed(v) && v.mode.Stalemate? && ValidChoice(v, c)
  {
    var prefix := QuorumPrefix(v.replays, c.order, |v.canon| + 1);
    Canon1(v, c) + v.replays[c.source].log[|v.canon| + 1..prefix]
  }

  ghost function AfterExit(v: State, c: Choice, id: nat): (r: Replay)
    requires WellFormed(v) && v.mode.Stalemate? && ValidChoice(v, c) && id in v.replays
    ensures SameStream(v.replays[id], r)
  {
    var r := v.replays[id];
    var canonLen := |Canon2(v, c)|;
    if id in Elements(c.order) then Match(r, canonLen)
    else if id in v.reserve || id in Group(v.mode.cand, c.best) then Trim(v.cfg, r, canonLen)
    else if id in v.mode.cand then Wipe(r)
    else r
  }

  /** `exit_stalemate` followed by `from_stalemate`. */
  ghost function ExitStalemate(v: State, c: Choice): (w: State)
    requires WellFormed(v) && v.mode.Stalemate? && ValidChoice(v, c)
    ensures SameStreams(v, w)
  {
    var members := Elements(c.order);
    var canon := Canon2(v, c);
    v.(canon := canon,
       replays := (map id | id in v.replays :: AfterExit(v, c, id)),
       canonDelayed := Max(v.canonDelayed, Min(|canon|, LeastDelayed(v.replays, members))),
       mode := Quorum(members),
       reserve := v.reserve + (Group(v.mode.cand, c.best) - members))
  }

  ghost function UpdateDelayed(v: State): State
    requires WellFormed(v) && v.mode.Quorum?
  {
    v.(canonDelayed :=
         Max(v.canonDelayed, Min(|v.canon|, LeastDelayed(v.replays, v.mode.members))))
  }

  predicate HasToEnterStalemate(v: State) {
    v.canonDelayed >= |v.canon|
  }

  ghost function EnterStalemate(v: State): (w: State)
    requires WellFormed(v) && v.mode.Quorum?
    ensures SameStreams(v, w)
  {
    var all := v.reserve + v.mode.members;
    Place(v.(mode := Stalemate(map[]), reserve := all), all)
  }

  // ---- Switching ----

  ghost predicate ShouldChange(v: State) {
    match v.mode
    case Stalemate(_) => CanExitStalemate(v)
    case Quorum(_) => HasToEnterStalemate(v)
  }

  ghost predicate Flip(v: State, w: State)
    requires WellFormed(v)
  {
    && ShouldChange(v)
    && match v.mode
       case Quorum(_) => w == EnterStalemate(v)
       case Stalemate(_) => exists c :: ValidChoice(v, c) && w == ExitStalemate(v, c)
  }

  // ---- Callbacks, each without the switching that follows it ----

  function AddCall(v: State): State {
    v.(token := v.token + 1, replays := v.replays[v.token := Replay([], 0, 0, false, 0)],
       reserve := v.reserve + {v.token})
  }

  ghost function UpdateCall(v: State, id: nat): (w: State)
    requires WellFormed(v) && id in v.replays
    ensures SameStreams(v, w)
  {
    if v.mode.Stalemate? then
      var w := if id in v.reserve then Place(v, {id}) else v;
      w.(started := v.started || v.replays[id].delayed > 0)
    else if id in v.mode.members then UpdateDelayed(v)
    else v
  }

  ghost function EndCall(v: State, id: nat): (w: State)
    requires WellFormed(v) && id in v.replays
    ensures SameStreams(v, w)
  {
    if v.mode.Stalemate? && id in v.reserve then Place(v, {id}) else v
  }

  // ---- What the connections do to a replay ----

  function Appended(v: State, id: nat, data: seq<byte>): State
    requires id in v.replays
  {
    v.(replays := v.replays[id := v.replays[id].(log := v.replays[id].log + data)])
  }

  function Delayed(v: State, id: nat, n: nat): State
    requires id in v.replays
  {
    v.(replays := v.replays[id := v.replays[id].(delayed := n)])
  }

  function Finished(v: State, id: nat): State
    requires id in v.replays
  {
    v.(replays := v.replays[id := v.replays[id].(finished := true)])
  }

  // ---- Runs ----

  /**
   * `Tick` sets a delayed position and reports it without a pause in between; `Remove` finishes a
   * replay whose delayed position has caught up and reports that. `Append` is not reported at once.
   */
  datatype Action =
    | Add
    | Append(id: nat, data: seq<byte>)
    | Tick(id: nat, delayed: nat)
    | Remove(id: nat)
    | Switch
    | Finish

  ghost predicate Open(v: State, id: nat) {
    id in v.replays && !v.replays[id].finished
  }

  ghost predicate Takes(v: State, a: Action, w: State)
    requires WellFormed(v)
  {
    !v.canonFinished && (a.Switch? <==> ShouldChange(v)) &&
    match a
    case Add => w == AddCall(v)
    case Append(id, data) =>
      && Open(v, id) && |v.replays[id].log| + |data| <= USIZE_MAX
      && w == Appended(v, id, data)
    case Tick(id, n) =>
      && Open(v, id) && v.replays[id].delayed <= n <= |v.replays[id].log|
      && w == UpdateCall(Delayed(v, id, n), id)
    case Remove(id) =>
      && Open(v, id) && v.replays[id].delayed == |v.replays[id].log|
      && w == EndCall(Finished(v, id), id)
    case Switch => Flip(v, w)
    case Finish =>
      && (forall id :: id in v.replays ==> v.replays[id].finished)
      && w == v.(canonFinished := true)
  }

  ghost predicate Step(v: State, w: State) {
    WellFormed(v) && exists a :: Takes(v, a, w)
  }

  ghost predicate IsRun(cfg: Config, run: seq<State>) {
    && run != [] && run[0] == Init(cfg)
    && forall i :: 0 < i < |run| ==> Step(run[i - 1], run[i])
  }

  function Last(run: seq<State>): State
    requires run != []
  {
    run[|run| - 1]
  }
}
