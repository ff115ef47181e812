/** What every step of the merge machine keeps, for every quorum size and comparison distance. */
module QuorumInvariant {
  import opened Bytes
  import opened CommonPrefix
  import opened QuorumMachine

  // ---- The invariant ----

  /** Issued ids are numbered without gaps and lie in at most one of Q/Cand and Res. */
  ghost predicate IdsOk(v: State) {
    && v.cfg.quorumSize >= 1
    && WellFormed(v)
    && (forall id: nat :: id in v.replays <==> id < v.token)
    && Active(v) !! v.reserve
    && (v.mode.Quorum? ==> |v.mode.members| <= v.cfg.quorumSize)
  }

  ghost predicate Dropped(v: State, id: nat) {
    id in v.replays && id !in Active(v) && id !in v.reserve
  }

  ghost predicate ReplayOk(canonLen: nat, r: Replay) {
    && r.delayed <= |r.log| <= USIZE_MAX
    && r.matched <= canonLen && r.matched <= |r.log|
    && (r.finished ==> r.delayed == |r.log|)
  }

  /** A candidate has been compared up to the end of C and has kept the byte it is filed under. */
  ghost predicate CandidateOk(canon: seq<byte>, r: Replay, next: byte) {
    && r.matched == |canon| < |r.log|
    && r.log[|canon|] == next
    && r.window <= |canon|
  }

  ghost predicate MemberOk(canon: seq<byte>, r: Replay) {
    && r.matched == |canon| <= |r.log|
    && r.window <= |canon|
  }

  /** A lagging replay has kept everything a later check for divergence may look at. */
  ghost predicate ReserveOk(cfg: Config, canonLen: nat, r: Replay) {
    r.window <= MatchStart(cfg, r, canonLen)
  }

  /** Reasons for which a replay can never contribute to C again. */
  ghost predicate Refuted(canon: seq<byte>, r: Replay) {
    || (exists i :: 0 <= i < |canon| && i < |r.log| && r.log[i] != canon[i])
    || (r.finished && |r.log| <= |canon|)
  }

  ghost predicate SetsOk(v: State)
    requires WellFormed(v)
  {
    && (forall id :: id in v.replays ==> ReplayOk(|v.canon|, v.replays[id]))
    && (v.mode.Stalemate? ==> forall id :: id in v.mode.cand ==>
          CandidateOk(v.canon, v.replays[id], v.mode.cand[id]))
    && (v.mode.Quorum? ==> forall id :: id in v.mode.members ==> MemberOk(v.canon, v.replays[id]))
    && (forall id :: id in v.reserve ==> ReserveOk(v.cfg, |v.canon|, v.replays[id]))
    && (forall id :: Dropped(v, id) ==> Refuted(v.canon, v.replays[id]))
  }

  /** C has not outgrown the longest replay. */
  ghost predicate Bounded(v: State) {
    v.canon == [] || exists id :: id in v.replays && |v.canon| <= |v.replays[id].log|
  }

  ghost predicate DelayOk(v: State) {
    && v.canonDelayed <= |v.canon|
    && (v.mode.Stalemate? ==> v.canonDelayed == |v.canon|)
    && (v.mode.Quorum? ==> v.started)
  }

  /** Holds at every moment, also while the strategy has not been told of a change yet. */
  ghost predicate Core(v: State) {
    IdsOk(v) && SetsOk(v) && Bounded(v) && DelayOk(v)
  }

  /** As far as the strategy has been told, such a replay is no longer than C and not finished. */
  ghost predicate Lags(canonLen: nat, r: Replay) {
    !r.finished && r.delayed <= canonLen
  }

  /** Holds once the strategy has been told of every delayed position and every end. */
  ghost predicate Notified(v: State)
    requires WellFormed(v)
  {
    && (!v.started ==> forall id :: id in v.replays ==> v.replays[id].delayed == 0)
    && (v.mode.Quorum? ==>
          Min(|v.canon|, LeastDelayed(v.replays, v.mode.members)) <= v.canonDelayed)
    && (v.mode.Stalemate? ==> forall id :: id in v.reserve ==> Lags(|v.canon|, v.replays[id]))
  }

  ghost predicate Inv(v: State) {
    Core(v) && Notified(v)
  }

  // ---- The connections ----

  lemma RefutedForGood(canon: seq<byte>, more: seq<byte>, r: Replay, s: Replay)
    requires Refuted(canon, r) && canon <= more
    requires r.log <= s.log && (r.finished ==> s.finished && s.log == r.log)
    ensures Refuted(more, s)
  {
    if i :| 0 <= i < |canon| && i < |r.log| && r.log[i] != canon[i] {
      assert more[i] == canon[i] && s.log[i] == r.log[i];
    }
  }

  /** `u` is `v` after a change to the one replay `id`. */
  ghost predicate ChangedAt(v: State, u: State, id: nat) {
    && id in v.replays && u.replays.Keys == v.replays.Keys
    && u == v.(replays := u.replays)
    && forall i :: i in v.replays && i != id ==> u.replays[i] == v.replays[i]
  }

  /** All a connection can do to a replay that is still open. */
  ghost predicate Evolves(r: Replay, s: Replay) {
    && !r.finished && r.log <= s.log && s.matched == r.matched && s.window == r.window
    && s.delayed <= |s.log| <= USIZE_MAX && (s.finished ==> s.delayed == |s.log|)
  }

  lemma EvolveKeepsSets(v: State, u: State, id: nat)
    requires WellFormed(v) && SetsOk(v) && WellFormed(u) && ChangedAt(v, u, id)
    requires Evolves(v.replays[id], u.replays[id])
    ensures SetsOk(u)
  {
    forall i | Dropped(u, i) ensures Refuted(u.canon, u.replays[i]) {
      assert Dropped(v, i);
      RefutedForGood(v.canon, u.canon, v.replays[i], u.replays[i]);
    }
  }

  /** Connections may change an open replay at any moment between callbacks. */
  lemma EvolveKeepsCore(v: State, u: State, id: nat)
    requires Core(v) && ChangedAt(v, u, id) && Evolves(v.replays[id], u.replays[id])
    ensures Core(u)
    ensures ShouldChange(v) <==> ShouldChange(u)
  {
    EvolveKeepsSets(v, u, id);
    if v.canon != [] {
      var i :| i in v.replays && |v.canon| <= |v.replays[i].log|;
      assert i in u.replays && |u.canon| <= |u.replays[i].log|;
    }
  }

  // ---- Placing replays ----

  /**
   * Whatever the verdict, it leaves the replay in a state fit for the set it goes to; a candidate agrees
   * with C wherever the two were compared.
   */
  lemma JudgeIsSound(cfg: Config, canon: seq<byte>, r: Replay)
    requires ReplayOk(|canon|, r) && ReserveOk(cfg, |canon|, r)
    ensures var p := Placed(cfg, canon, r);
            && ReplayOk(|canon|, p)
            && match Judge(cfg, canon, r)
               case Stay => p == r && Lags(|canon|, p)
               case Drop => Refuted(canon, p)
               case Candidate(b) =>
                 CandidateOk(canon, p, b) && Agree(p.log, canon, MatchStart(cfg, r, |canon|), |canon|)
  {
    if Judge(cfg, canon, r).Drop? && |canon| < |r.log| {
      var i :| MatchStart(cfg, r, |canon|) <= i < |canon| && r.log[i] != canon[i];
    }
  }

  lemma PlaceKeepsCore(v: State, ids: set<nat>)
    requires Core(v) && v.mode.Stalemate? && ids <= v.reserve
    ensures Core(Place(v, ids))
    ensures forall id :: id in ids && id in Place(v, ids).reserve ==> Lags(|v.canon|, v.replays[id])
  {
    var w := Place(v, ids);
    assert w.replays.Keys == v.replays.Keys;
    forall id | id in ids
      ensures var p := Placed(v.cfg, v.canon, v.replays[id]);
              && ReplayOk(|v.canon|, p)
              && match Judge(v.cfg, v.canon, v.replays[id])
                 case Stay => p == v.replays[id] && Lags(|v.canon|, p)
                 case Drop => Refuted(v.canon, p)
                 case Candidate(b) => CandidateOk(v.canon, p, b)
    {
      JudgeIsSound(v.cfg, v.canon, v.replays[id]);
    }
    forall id | Dropped(w, id) ensures Refuted(w.canon, w.replays[id]) {
      if id !in ids {
        assert Dropped(v, id);
      }
    }
    if v.canon != [] {
      var i :| i in v.replays && |v.canon| <= |v.replays[i].log|;
      assert i in w.replays && |w.canon| <= |w.replays[i].log|;
    }
  }

  lemma EnterKeepsCore(v: State)
    requires Core(v) && v.mode.Quorum? && HasToEnterStalemate(v)
    ensures Core(EnterStalemate(v))
    ensures forall id :: id in EnterStalemate(v).reserve ==> Lags(|v.canon|, v.replays[id])
  {
    var all := v.reserve + v.mode.members;
    var u := v.(mode := Stalemate(map[]), reserve := all);
    forall id | Dropped(u, id) ensures Refuted(u.canon, u.replays[id]) {
      assert Dropped(v, id);
    }
    PlaceKeepsCore(u, all);
  }

  // ---- Resolving a stalemate ----

  /** However many members are compared, the prefix stays between the start and the shortest member. */
  lemma {:induction false} QuorumPrefixInRange(replays: map<nat, Replay>, order: seq<nat>, start: nat)
    requires order != [] && Elements(order) <= replays.Keys
    requires forall id :: id in Elements(order) ==> start <= |replays[id].log|
    ensures start <= QuorumPrefix(replays, order, start) <= |replays[order[0]].log|
    decreases |order|
  {
    if |order| > 1 {
      var last := |order| - 1;
      QuorumPrefixInRange(replays, order[..last], start);
      PrefixIsBytewise(replays[order[0]].log, replays[order[last]].log, start,
                       Some(QuorumPrefix(replays, order[..last], start)));
    }
  }

  /** C grows by at least the agreed byte and stays within every member. */
  lemma ExitExtendsCanon(v: State, c: Choice)
    requires Core(v) && v.mode.Stalemate? && ValidChoice(v, c)
    ensures var canon := Canon2(v, c);
            && |v.canon| < |canon| == QuorumPrefix(v.replays, c.order, |v.canon| + 1)
            && v.canon <= canon && canon[|v.canon|] == c.best
            && forall id :: id in Elements(c.order) ==> |canon| <= |v.replays[id].log|
  {
    hide IsBest;
    hide QuorumPrefix;
    QuorumPrefixInRange(v.replays, c.order, |v.canon| + 1);
    assert Canon1(v, c) <= Canon2(v, c);
    assert Canon1(v, c)[|v.canon|] == c.best;
  }

  /** A member has been compared with all of the extended C. */
  lemma MatchedIsMember(canonLen: nat, canon: seq<byte>, r: Replay)
    requires ReplayOk(canonLen, r) && canonLen <= |canon| <= |r.log| && r.window <= canonLen
    ensures MemberOk(canon, Match(r, |canon|)) && ReplayOk(|canon|, Match(r, |canon|))
  {
  }

  /** Trimming leaves a lagging replay with all it still needs. */
  lemma TrimmedIsReserve(cfg: Config, canonLen: nat, more: nat, r: Replay)
    requires ReplayOk(canonLen, r) && ReserveOk(cfg, canonLen, r) && canonLen <= more
    ensures ReserveOk(cfg, more, Trim(cfg, r, more)) && ReplayOk(more, Trim(cfg, r, more))
  {
  }

  /** A candidate that wanted another byte than the chosen one is refuted by it. */
  lemma LoserIsRefuted(canon: seq<byte>, more: seq<byte>, r: Replay, next: byte)
    requires CandidateOk(canon, r, next) && |canon| < |more| && more[|canon|] != next
    ensures Refuted(more, Wipe(r))
  {
    assert r.log[|canon|] != more[|canon|];
  }

  /** What happens to one replay when the stalemate is resolved, in terms of the set it goes to. */
  ghost predicate ExitedOk(v: State, c: Choice, canon: seq<byte>, id: nat, r: Replay)
    requires v.mode.Stalemate?
  {
    && ReplayOk(|canon|, r)
    && (if id in Elements(c.order) then MemberOk(canon, r)
        else if id in v.reserve || id in Group(v.mode.cand, c.best) then ReserveOk(v.cfg, |canon|, r)
        else Refuted(canon, r))
  }

  lemma AfterExitOk(v: State, c: Choice, id: nat)
    requires Core(v) && v.mode.Stalemate? && ValidChoice(v, c) && id in v.replays
    ensures ExitedOk(v, c, Canon2(v, c), id, AfterExit(v, c, id))
  {
    hide IsBest;
    hide Canon2;
    hide QuorumPrefix;
    ExitExtendsCanon(v, c);
    var (canon, r) := (Canon2(v, c), v.replays[id]);
    assert ReplayOk(|v.canon|, r);
    if id in Elements(c.order) {
      assert CandidateOk(v.canon, r, v.mode.cand[id]);
      MatchedIsMember(|v.canon|, canon, r);
    } else if id in v.reserve || id in Group(v.mode.cand, c.best) {
      assert ReserveOk(v.cfg, |v.canon|, r) by {
        if id in v.mode.cand { assert CandidateOk(v.canon, r, v.mode.cand[id]); }
      }
      TrimmedIsReserve(v.cfg, |v.canon|, |canon|, r);
    } else if id in v.mode.cand {
      LoserIsRefuted(v.canon, canon, r, v.mode.cand[id]);
    } else {
      assert Dropped(v, id);
      RefutedForGood(v.canon, canon, r, r);
    }
  }

  lemma ElementsSnoc(order: seq<nat>, id: nat)
    ensures Elements(order + [id]) == Elements(order) + {id}
  {
    var longer := order + [id];
    forall x | x in Elements(order) ensures x in Elements(longer) {
      var i :| 0 <= i < |order| && order[i] == x;
      assert longer[i] == x;
    }
    assert longer[|order|] == id;
  }

  lemma {:induction false} ElementsCount(order: seq<nat>)
    requires Distinct(order)
    ensures |Elements(order)| == |order|
    decreases |order|
  {
    if order != [] {
      var last := |order| - 1;
      ElementsCount(order[..last]);
      ElementsSnoc(order[..last], order[last]);
      assert order[..last] + [order[last]] == order;
      assert order[last] !in Elements(order[..last]);
    }
  }

  lemma ExitedSetsOk(v: State, c: Choice, w: State)
    requires v.mode.Stalemate? && WellFormed(w)
    requires w.cfg == v.cfg && w.replays.Keys == v.replays.Keys
    requires w.mode == Quorum(Elements(c.order))
    requires w.reserve == v.reserve + (Group(v.mode.cand, c.best) - Elements(c.order))
    requires forall id :: id in w.replays ==> ExitedOk(v, c, w.canon, id, w.replays[id])
    ensures SetsOk(w)
  {
  }

  lemma ExitKeepsIds(v: State, order: seq<nat>, group: set<nat>, w: State)
    requires IdsOk(v) && v.mode.Stalemate? && group <= v.mode.cand.Keys
    requires order != [] && Distinct(order) && Elements(order) <= group
    requires |order| <= v.cfg.quorumSize
    requires w.cfg == v.cfg && w.token == v.token && w.replays.Keys == v.replays.Keys
    requires w.mode == Quorum(Elements(order)) && w.reserve == v.reserve + (group - Elements(order))
    ensures IdsOk(w)
  {
    ElementsCount(order);
    assert order[0] in w.mode.members;
  }

  lemma ExitKeepsCore(v: State, c: Choice)
    requires Core(v) && v.started && v.mode.Stalemate? && ValidChoice(v, c)
    ensures Core(ExitStalemate(v, c))
  {
    var w := ExitStalemate(v, c);
    ExitKeepsIds(v, c.order, Group(v.mode.cand, c.best), w);
    ExitExtendsCanon(v, c);
    assert w.replays.Keys == v.replays.Keys;
    assert Bounded(w) by {
      assert c.source in w.replays && |w.canon| <= |w.replays[c.source].log|;
    }
    assert SetsOk(w) by {
      forall id | id in w.replays ensures ExitedOk(v, c, w.canon, id, w.replays[id]) {
        AfterExitOk(v, c, id);
      }
      ExitedSetsOk(v, c, w);
    }
  }

  // ---- Steps ----

  lemma UpdateKeepsCore(v: State, id: nat)
    requires Core(v) && id in v.replays
    ensures Core(UpdateCall(v, id))
  {
    if v.mode.Stalemate? && id in v.reserve {
      PlaceKeepsCore(v, {id});
    }
    var w := UpdateCall(v, id);
    if v.mode.Stalemate? {
      var u := if id in v.reserve then Place(v, {id}) else v;
      assert forall i :: Dropped(w, i) <==> Dropped(u, i);
    } else {
      assert forall i :: Dropped(w, i) <==> Dropped(v, i);
    }
  }

  lemma EndKeepsCore(v: State, id: nat)
    requires Core(v) && id in v.replays
    ensures Core(EndCall(v, id))
  {
    if v.mode.Stalemate? && id in v.reserve {
      PlaceKeepsCore(v, {id});
    }
  }

  lemma AddKeepsCore(v: State)
    requires Core(v)
    ensures Core(AddCall(v))
  {
    var w := AddCall(v);
    assert IdsOk(w);
    forall i | Dropped(w, i) ensures Refuted(w.canon, w.replays[i]) {
      assert Dropped(v, i);
    }
    if v.canon != [] {
      var i :| i in v.replays && |v.canon| <= |v.replays[i].log|;
      assert i in w.replays && |w.canon| <= |w.replays[i].log|;
    }
  }

  lemma AddIsNotified(v: State)
    requires IdsOk(v) && Notified(v)
    ensures WellFormed(AddCall(v)) && Notified(AddCall(v))
  {
    if v.mode.Quorum? {
      assert v.mode.members <= v.replays.Keys;
      SameLeastDelayed(v.replays, AddCall(v).replays, v.mode.members);
    }
  }

  /** The least delayed position depends on the delayed positions only. */
  lemma SameLeastDelayed(r: map<nat, Replay>, s: map<nat, Replay>, ids: set<nat>)
    requires ids != {} && ids <= r.Keys && ids <= s.Keys
    requires forall id :: id in ids ==> r[id].delayed == s[id].delayed
    ensures LeastDelayed(r, ids) == LeastDelayed(s, ids)
  {
  }

  lemma ExitIsNotified(v: State, c: Choice)
    requires Core(v) && v.started && v.mode.Stalemate? && ValidChoice(v, c)
    ensures Core(ExitStalemate(v, c)) && Notified(ExitStalemate(v, c))
  {
    ExitKeepsCore(v, c);
    SameLeastDelayed(v.replays, ExitStalemate(v, c).replays, Elements(c.order));
  }

  /** A switch in either direction leaves nothing unreported. */
  lemma FlipKeepsInv(v: State, w: State)
    requires Core(v) && Flip(v, w)
    ensures Core(w) && Notified(w)
  {
    if v.mode.Quorum? {
      EnterKeepsCore(v);
    } else {
      var c :| ValidChoice(v, c) && w == ExitStalemate(v, c);
      ExitIsNotified(v, c);
    }
  }

  /** After a report about `id`, all replays of the reserve lag. */
  ghost predicate ReserveOpen(u: State, id: nat)
    requires WellFormed(u) && u.mode.Stalemate?
  {
    && (id in u.reserve ==> forall i :: i in Place(u, {id}).reserve ==> Lags(|u.canon|, u.replays[i]))
    && (id !in u.reserve ==> forall i :: i in u.reserve ==> Lags(|u.canon|, u.replays[i]))
  }

  lemma PlaceIsNotified(v: State, u: State, id: nat)
    requires Inv(v) && Core(u) && ChangedAt(v, u, id) && u.mode.Stalemate?
    ensures ReserveOpen(u, id)
  {
    if id in u.reserve {
      PlaceKeepsCore(u, {id});
    }
  }

  lemma UpdateIsNotified(v: State, u: State, id: nat)
    requires WellFormed(v) && DelayOk(v) && Notified(v) && WellFormed(u) && ChangedAt(v, u, id)
    requires u.mode.Stalemate? ==> ReserveOpen(u, id)
    ensures WellFormed(UpdateCall(u, id)) ==> Notified(UpdateCall(u, id))
  {
    if u.mode.Quorum? && id !in u.mode.members {
      SameLeastDelayed(v.replays, u.replays, u.mode.members);
    }
  }

  lemma EndIsNotified(v: State, u: State, id: nat)
    requires WellFormed(v) && Notified(v) && WellFormed(u) && ChangedAt(v, u, id)
    requires u.replays[id].delayed == v.replays[id].delayed
    requires u.mode.Stalemate? ==> ReserveOpen(u, id)
    ensures WellFormed(EndCall(u, id)) ==> Notified(EndCall(u, id))
  {
    if u.mode.Quorum? {
      SameLeastDelayed(v.replays, u.replays, u.mode.members);
    }
  }

  lemma TickKeepsInv(v: State, id: nat, n: nat)
    requires Inv(v) && Open(v, id) && v.replays[id].delayed <= n <= |v.replays[id].log|
    ensures Inv(UpdateCall(Delayed(v, id, n), id))
  {
    EvolveKeepsCore(v, Delayed(v, id, n), id);
    UpdateKeepsCore(Delayed(v, id, n), id);
    if v.mode.Stalemate? { PlaceIsNotified(v, Delayed(v, id, n), id); }
    UpdateIsNotified(v, Delayed(v, id, n), id);
  }

  lemma RemoveKeepsInv(v: State, id: nat)
    requires Inv(v) && Open(v, id) && v.replays[id].delayed == |v.replays[id].log|
    ensures Inv(EndCall(Finished(v, id), id))
  {
    var u := Finished(v, id);
    EvolveKeepsCore(v, u, id);
    EndKeepsCore(u, id);
    if v.mode.Stalemate? { PlaceIsNotified(v, u, id); }
    EndIsNotified(v, u, id);
  }

  lemma StepKeepsInv(v: State, a: Action, w: State)
    requires Inv(v) && Takes(v, a, w)
    ensures Inv(w)
  {
    hide SetsOk;
    hide Place;
    hide Flip;
    hide ShouldChange;
    match a
    case Add =>
      AddKeepsCore(v);
      AddIsNotified(v);
    case Append(id, data) => AppendKeepsInv(v, id, data);
    case Tick(id, n) => TickKeepsInv(v, id, n);
    case Remove(id) => RemoveKeepsInv(v, id);
    case Switch => FlipKeepsInv(v, w);
    case Finish => FinishKeepsCore(v, w);
  }

  lemma AppendKeepsInv(v: State, id: nat, data: seq<byte>)
    requires Inv(v) && Open(v, id) && |v.replays[id].log| + |data| <= USIZE_MAX
    ensures Inv(Appended(v, id, data))
  {
    hide Core;
    hide Notified;
    AppendEvolves(v, id, data);
    EvolveKeepsCore(v, Appended(v, id, data), id);
    AppendIsNotified(v, id, data);
  }

  lemma AppendEvolves(v: State, id: nat, data: seq<byte>)
    requires Core(v) && Open(v, id) && |v.replays[id].log| + |data| <= USIZE_MAX
    ensures var u := Appended(v, id, data);
            WellFormed(v) && WellFormed(u) && ChangedAt(v, u, id) && Evolves(v.replays[id], u.replays[id])
  {
    assert ReplayOk(|v.canon|, v.replays[id]);
  }

  lemma AppendIsNotified(v: State, id: nat, data: seq<byte>)
    requires WellFormed(v) && Notified(v) && id in v.replays && WellFormed(Appended(v, id, data))
    ensures Notified(Appended(v, id, data))
  {
    hide LeastDelayed;
    if v.mode.Quorum? { SameLeastDelayed(v.replays, Appended(v, id, data).replays, v.mode.members); }
  }

  lemma FinishKeepsCore(v: State, w: State)
    requires Core(v) && w == v.(canonFinished := true)
    ensures Core(w)
  {
    assert forall i :: Dropped(w, i) <==> Dropped(v, i);
  }

  lemma InitIsFine(cfg: Config)
    requires cfg.quorumSize >= 1
    ensures Inv(Init(cfg))
  {
  }

  lemma StepKeepsConfig(v: State, a: Action, w: State)
    requires WellFormed(v) && Takes(v, a, w)
    ensures w.cfg == v.cfg
  {
  }

  lemma StepInvariant(v: State, w: State)
    requires Inv(v) && Step(v, w)
    ensures Inv(w) && w.cfg == v.cfg
  {
    hide Takes;
    hide Core;
    hide Notified;
    var a :| Takes(v, a, w);
    StepKeepsInv(v, a, w);
    StepKeepsConfig(v, a, w);
  }

  lemma RunPrefix(cfg: Config, run: seq<State>, n: nat)
    requires IsRun(cfg, run) && 0 < n <= |run|
    ensures IsRun(cfg, run[..n])
  {
  }

  /** One more step of a run. */
  lemma RunSnoc(cfg: Config, run: seq<State>, w: State)
    requires IsRun(cfg, run) && Step(Last(run), w)
    ensures IsRun(cfg, run + [w])
  {
    hide Step;
    var longer := run + [w];
    forall i | 0 < i < |longer| ensures Step(longer[i - 1], longer[i]) {
      if i < |run| {
        assert Step(run[i - 1], run[i]);
      }
    }
  }

  /** Every state of every run satisfies the invariant. */
  lemma {:induction false} RunInvariant(cfg: Config, run: seq<State>)
    requires cfg.quorumSize >= 1 && IsRun(cfg, run)
    ensures Inv(Last(run)) && Last(run).cfg == cfg
    decreases |run|
  {
    if |run| == 1 {
      InitIsFine(cfg);
    } else {
      var n := |run| - 1;
      RunPrefix(cfg, run, n);
      RunInvariant(cfg, run[..n]);
      StepInvariant(run[n - 1], run[n]);
    }
  }
}
