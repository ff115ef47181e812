/** The quorum merge strategy itself, on the shared replay objects, refining the merge machine. */
module QuorumStrategies {
  import opened Bytes
  import opened CommonPrefix
  import opened MergedReplays
  import opened OutputMachine
  import QuorumDecisions
  import opened QuorumInvariant
  import opened QuorumMachine
  import opened QuorumTheorems
  import opened QuorumUpdates
  import opened SharedStates
  import opened WriterReplays

  type State = QuorumMachine.State

  datatype StrategyState =
    | InStalemate(candidates: map<byte, seq<nat>>)
    | InQuorum(quorum: set<nat>)

  /** The candidate lists hold exactly the ids filed under each byte, each once. */
  ghost predicate Groups(candidates: map<byte, seq<nat>>, cand: map<nat, byte>) {
    && (forall b: byte :: b in candidates ==>
          candidates[b] != [] && Distinct(candidates[b]) && Elements(candidates[b]) == Group(cand, b))
    && (forall b: byte :: b !in candidates ==> Group(cand, b) == {})
  }

  class QuorumMergeStrategy {
    const s: SharedState
    var state: StrategyState
    var reserve: set<nat>

    /** The state, with candidates as a map from ids to bytes. */
    ghost var mode: Mode

    /** Everything as a state of the merge machine. */
    ghost function View(): State
      reads this, s
    {
      State(s.Cfg(), s.token, s.delayedDataStarted, s.views,
            s.canon.data, s.canon.delayed, s.canon.finished, mode, reserve)
    }

    ghost predicate ModeValid()
      reads this
    {
      match state
      case InStalemate(candidates) => mode.Stalemate? && Groups(candidates, mode.cand)
      case InQuorum(quorum) => mode == Quorum(quorum)
    }

    ghost predicate Valid()
      reads this, s, s.repr
    {
      s.Valid() && this !in s.repr && ModeValid()
    }

    /** The replay objects, C's header and its readers are the same, and only fresh objects have joined. */
    twostate predicate SameObjects()
      reads this, s
    {
      && s.replays == old(s.replays) && old(s.repr) <= s.repr && fresh(s.repr - old(s.repr))
      && s.canon.header == old(s.canon.header) && s.readers == old(s.readers)
    }

    constructor (targetQuorumSize: nat, streamCmpDistance: nat)
      requires targetQuorumSize >= 1
      ensures Valid() && fresh(s) && fresh(s.repr)
      ensures View() == Init(Config(targetQuorumSize, streamCmpDistance))
      ensures s.canon == Start.stream
    {
      s := new SharedState(targetQuorumSize, streamCmpDistance);
      state, reserve, mode := InStalemate(map[]), {}, Stalemate(map[]);
    }

    // ---- Stalemate ----

    method InsertCandidate(next: byte, id: nat)
      requires state.InStalemate? && ModeValid() && id !in mode.cand
      modifies this`state, this`mode
      ensures state.InStalemate? && ModeValid() && mode == Stalemate(old(mode).cand[id := next])
    {
      OneMoreCandidate(state.candidates, mode.cand, next, id);
      var candidates := state.candidates;
      if next !in candidates {
        candidates := candidates[next := []];
      }
      state := InStalemate(candidates[next := candidates[next] + [id]]);
      mode := Stalemate(mode.cand[id := next]);
    }

    /** A replay has diverged; it keeps no data. */
    method SetDiverged(id: nat)
      requires Valid() && id in s.replays && id in s.views
      modifies s.repr
      ensures Valid() && SameObjects() && id in old(View()).replays
      ensures View() == old(View()).(replays := old(View()).replays[id := Wipe(old(View()).replays[id])])
    {
      hide SharedState.Valid;
      hide ModeValid;
      hide Wipe;
      s.Shape();
      s.MarkDiverged(id);
    }

    /** A replay that matches all of C is filed under its next byte. */
    method BecomeCandidate(id: nat)
      requires Valid() && state.InStalemate? && s.Readable(id) && id !in mode.cand
      requires |s.canon.data| < |s.views[id].log|
      modifies this`state, this`mode, s.repr
      ensures Valid() && SameObjects() && state.InStalemate?
      ensures var (v, n) := (old(View()), |old(View()).canon|);
              View() == v.(replays := v.replays[id := Match(v.replays[id], n)],
                           mode := Stalemate(v.mode.cand[id := v.replays[id].log[n]]))
    {
      hide SharedState.Valid;
      hide Groups;
      s.Shape();
      var canonDataLen := s.CanonDataLen();
      s.MarkMatching(id, canonDataLen);
      var nextByte := s.ByteAt(id, canonDataLen);
      InsertCandidate(nextByte, id);
    }

    method TryMoveReplayToCandidates(id: nat)
      requires Valid() && state.InStalemate? && s.Readable(id) && id !in mode.cand
      modifies this`state, this`mode, this`reserve, s.repr
      ensures Valid() && SameObjects() && state.InStalemate? && View() == PlacedOne(old(View()), id)
    {
      hide SharedState.Valid;
      hide Groups;
      hide PlacedOne;
      hide QuorumMachine.Diverges;
      hide Match;
      hide Wipe;
      s.Shape();
      var canonDataLen := s.CanonDataLen();
      var replayLen := s.DataLen(id);
      var replayIsFinished := s.IsFinished(id);
      PlacedOneByVerdict(View(), id, s.views[id]);
      if replayLen <= canonDataLen {
        if replayIsFinished {
          SetDiverged(id);
          reserve := reserve - {id};
        }
        return;
      }
      FileOrDrop(id);
    }

    /** The replay is longer than C: it leaves the reserve, to be filed or dropped. */
    method FileOrDrop(id: nat)
      requires Valid() && state.InStalemate? && s.Readable(id) && id !in mode.cand
      requires |s.canon.data| < |s.views[id].log|
      modifies this`state, this`mode, this`reserve, s.repr
      ensures Valid() && SameObjects() && state.InStalemate? && View() == PlacedOne(old(View()), id)
    {
      hide SharedState.Valid;
      hide Groups;
      hide PlacedOne;
      hide QuorumMachine.Diverges;
      hide Match;
      hide Wipe;
      s.Shape();
      PlacedOneByVerdict(View(), id, s.views[id]);
      reserve := reserve - {id};
      var diverges := s.Diverges(id);
      if diverges {
        SetDiverged(id);
      } else {
        BecomeCandidate(id);
      }
    }

    method CanExit() returns (can: bool)
      requires Valid() && state.InStalemate?
      ensures can <==> CanExitStalemate(View())
    {
      hide SharedState.Valid;
      hide Groups;
      var candidates := state.candidates;
      GroupsCount(candidates, mode.cand);
      if !s.delayedDataStarted || candidates == map[] {
        return false;
      }
      if reserve == {} {
        return true;
      }
      can := false;
      var todo := candidates.Keys;
      while todo != {}
        invariant todo <= candidates.Keys
        invariant can <==> exists b: byte :: b in candidates && b !in todo && |candidates[b]| >= s.targetQuorumSize
      {
        var b :| b in todo;
        todo := todo - {b};
        if |candidates[b]| >= s.targetQuorumSize {
          can := true;
        }
      }
    }

    method LongestOf(ids: seq<nat>) returns (n: nat)
      requires s.Valid() && ids != [] && Elements(ids) <= s.views.Keys
      ensures n == Longest(s.views, Elements(ids))
    {
      hide SharedState.Valid;
      s.Shape();
      n := 0;
      for i := 0 to |ids|
        invariant forall k :: 0 <= k < i ==> |s.views[ids[k]].log| <= n
        invariant i == 0 ==> n == 0
        invariant i > 0 ==> exists k :: 0 <= k < i && |s.views[ids[k]].log| == n
      {
        var len := s.DataLen(ids[i]);
        n := Max(n, len);
      }
    }

    /** Size of a group and length of its longest replay. */
    method Rank(b: byte) returns (count: nat, longest: nat)
      requires Valid() && WellFormed(View()) && state.InStalemate? && b in state.candidates
      ensures count == |Group(mode.cand, b)| > 0
      ensures longest == Longest(s.views, Group(mode.cand, b))
    {
      hide SharedState.Valid;
      hide Groups;
      var ids := state.candidates[b];
      ListIsGroup(state.candidates, View(), b);
      count := |ids|;
      longest := LongestOf(ids);
    }

    /** The byte of the best group: most replays, then longest replay, then largest byte. */
    method BestByte() returns (best: byte)
      requires Valid() && WellFormed(View()) && state.InStalemate? && mode.cand != map[]
      ensures best in state.candidates && IsBest(View(), best)
      ensures forall a: byte :: Group(mode.cand, a) != {} ==> QuorumDecisions.Beats(View(), best, a)
    {
      hide SharedState.Valid;
      hide Groups;
      hide RankAtMost;
      hide QuorumDecisions.Beats;
      ghost var v := View();
      GroupsCount(state.candidates, mode.cand);
      best :| best in state.candidates;
      var count, longest := Rank(best);
      ghost var seen: set<byte> := {best};
      var todo := state.candidates.Keys - {best};
      BestAmongItself(v, best);
      while todo != {}
        invariant todo <= state.candidates.Keys && best in state.candidates
        invariant seen + todo == state.candidates.Keys
        invariant count == |Group(mode.cand, best)| && longest == Longest(s.views, Group(mode.cand, best))
        invariant BestAmong(v, seen, best)
      {
        var b :| b in todo;
        todo := todo - {b};
        var n, l := Rank(b);
        BestAmongMore(v, seen, best, b);
        seen := seen + {b};
        if count < n || (count == n && (longest < l || (longest == l && best < b))) {
          best, count, longest := b, n, l;
        }
      }
      BestOfAllIsBest(v, seen, best);
      forall a: byte | Group(mode.cand, a) != {} ensures QuorumDecisions.Beats(View(), best, a) {
        QuorumDecisions.BestBeats(v, best, a);
      }
    }

    // ---- From a quorum to a stalemate ----

    /** All of Q and Res become the reserve, and every one of them is tried. */
    method EnterStalemate()
      requires Valid() && state.InQuorum? && Core(View()) && HasToEnterStalemate(View())
      modifies this, s.repr
      ensures Valid() && SameObjects() && state.InStalemate?
      ensures View() == QuorumMachine.EnterStalemate(old(View()))
    {
      hide SharedState.Valid;
      hide Groups;
      hide Core;
      hide Place;
      BreakUpKeepsCore(View());
      var all := reserve + state.quorum;
      state, reserve, mode := InStalemate(map[]), all, Stalemate(map[]);
      NoGroups();
      KnownIds(View());
      FromQuorum(all);
    }

    /** Tries every replay of the reserve, in any order. */
    method FromQuorum(all: set<nat>)
      requires Valid() && state.InStalemate? && Core(View()) && all == reserve
      modifies this, s.repr
      ensures Valid() && SameObjects() && state.InStalemate?
      ensures all <= old(View()).replays.Keys && View() == Place(old(View()), all)
    {
      hide SharedState.Valid;
      hide ModeValid;
      hide Core;
      hide Place;
      hide PlacedOne;
      hide ReplayOk;
      hide ReserveOk;
      ghost var u := View();
      KnownIds(u);
      CandidatesShown();
      PlaceNone(u);
      ghost var done: set<nat> := {};
      var todo := all;
      while todo != {}
        invariant Valid() && SameObjects() && state.InStalemate?
        invariant done !! todo && done + todo == all <= u.replays.Keys
        invariant View() == Place(u, done)
      {
        var id :| id in todo;
        NextToPlace(u, done, id);
        TryMoveReplayToCandidates(id);
        todo, done := todo - {id}, done + {id};
      }
      assert done == all;
    }

    lemma CandidatesShown()
      requires ModeValid() && state.InStalemate?
      ensures mode.Stalemate?
    {
    }

    // ---- From a stalemate to a quorum ----

    method WipeAll(ids: seq<nat>)
      requires s.Valid() && Distinct(ids) && Elements(ids) <= s.views.Keys
      modifies s.repr
      ensures s.Valid() && s.Kept() && s.canon == old(s.canon)
      ensures s.views == OnAll(old(s.views), Elements(ids), Wiping)
    {
      hide SharedState.Valid;
      hide OnAll;
      OnNone(s.views, Wiping);
      assert Elements(ids[..0]) == {};
      for i := 0 to |ids|
        invariant s.Valid() && s.Kept() && s.canon == old(s.canon)
        invariant s.views == OnAll(old(s.views), Elements(ids[..i]), Wiping)
      {
        s.Shape();
        OnAllKeys(old(s.views), Elements(ids[..i]), Wiping);
        OnOneMoreListed(old(s.views), ids, i, Wiping);
        s.MarkDiverged(ids[i]);
      }
      assert ids[..|ids|] == ids;
    }

    /** Candidates that wanted another byte are discarded as diverging. */
    method WipeLosers(best: byte)
      requires Valid() && state.InStalemate? && mode.cand.Keys <= s.views.Keys
      modifies s.repr
      ensures Valid() && s.Kept() && s.canon == old(s.canon)
      ensures s.views == OnAll(old(s.views), mode.cand.Keys - Group(mode.cand, best), Wiping)
    {
      hide SharedState.Valid;
      hide OnAll;
      hide Groups;
      hide FiledUnder;
      var candidates := state.candidates;
      var todo := candidates.Keys - {best};
      ghost var done: set<byte> := {};
      OnNone(s.views, Wiping);
      FiledUnderNone(mode.cand);
      while todo != {}
        invariant Valid() && s.Kept() && s.canon == old(s.canon)
        invariant todo <= candidates.Keys && done !! todo && done + todo == candidates.Keys - {best}
        invariant s.views == OnAll(old(s.views), FiledUnder(mode.cand, done), Wiping)
      {
        var b :| b in todo;
        FiledUnderMore(candidates, mode.cand, done, b);
        OnAllKeys(old(s.views), FiledUnder(mode.cand, done), Wiping);
        OnMore(old(s.views), FiledUnder(mode.cand, done), Group(mode.cand, b), Wiping);
        WipeAll(candidates[b]);
        todo, done := todo - {b}, done + {b};
      }
      FiledUnderAllBut(candidates, mode.cand, done, best);
    }

    /** The first of the replays sorted by length, longest first; ties fall as they may. */
    method TakeLongest(ids: seq<nat>, count: nat) returns (taken: set<nat>, rest: set<nat>)
      requires s.Valid() && Distinct(ids) && Elements(ids) <= s.views.Keys && count <= |ids|
      ensures taken !! rest && taken + rest == Elements(ids) && |taken| == count
      ensures NoneLonger(s.views, taken, rest)
    {
      hide *;
      ElementsCount(ids);
      taken, rest := {}, set id | id in ids;
      ListedSet(ids, rest);
      NobodyTaken(s.views, rest);
      while |taken| < count
        invariant taken !! rest && taken + rest == Elements(ids) && |taken| <= count
        invariant NoneLonger(s.views, taken, rest)
        decreases rest
      {
        CountParts(taken, rest);
        var id := LongestId(rest);
        LongestIsNext(s.views, taken, rest, id);
        MovesOver(taken, rest, id);
        taken, rest := taken + {id}, rest - {id};
      }
    }

    method LongestId(ids: set<nat>) returns (id: nat)
      requires s.Valid() && ids != {} && ids <= s.views.Keys
      ensures id in ids && forall i :: i in ids ==> |s.views[i].log| <= |s.views[id].log|
    {
      hide SharedState.Valid;
      s.Shape();
      id :| id in ids;
      var len := s.DataLen(id);
      var todo := ids - {id};
      while todo != {}
        invariant todo <= ids && id in ids && len == |s.views[id].log|
        invariant forall i :: i in ids - todo ==> |s.views[i].log| <= len
      {
        var i :| i in todo;
        var n := s.DataLen(i);
        todo := todo - {i};
        if len < n {
          id, len := i, n;
        }
      }
    }

    method ShortestId(ids: set<nat>) returns (id: nat)
      requires s.Valid() && ids != {} && ids <= s.views.Keys
      ensures id in ids && forall i :: i in ids ==> |s.views[id].log| <= |s.views[i].log|
    {
      hide SharedState.Valid;
      s.Shape();
      id :| id in ids;
      var len := s.DataLen(id);
      var todo := ids - {id};
      while todo != {}
        invariant todo <= ids && id in ids && len == |s.views[id].log|
        invariant forall i :: i in ids - todo ==> len <= |s.views[i].log|
      {
        var i :| i in todo;
        var n := s.DataLen(i);
        todo := todo - {i};
        if n < len {
          id, len := i, n;
        }
      }
    }

    /** Compares the shortest member with all others, in any order. */
    method CalculateQuorumPrefix(quorum: set<nat>) returns (commonPrefix: nat, ghost order: seq<nat>)
      requires s.Valid() && quorum != {} && quorum <= s.views.Keys
      requires forall id :: id in quorum ==> Mergeable(|s.canon.data|, s.views[id])
      ensures forall id :: id in quorum ==> |s.canon.data| <= commonPrefix <= |s.views[id].log|
      ensures IsMergeOrder(s.views, quorum, order)
      ensures commonPrefix == QuorumPrefix(s.views, order, |s.canon.data|)
    {
      hide SharedState.Valid;
      hide QuorumPrefix;
      hide PrefixFromTo;
      s.Shape();
      var shortestId := ShortestId(quorum);
      var cmpStart := s.CanonDataLen();
      commonPrefix := s.DataLen(shortestId);
      order := [shortestId];
      PrefixOfOne(s.views, shortestId, cmpStart);
      var todo := quorum - {shortestId};
      while todo != {}
        invariant todo <= quorum && order != [] && order[0] == shortestId && Distinct(order)
        invariant Elements(order) == quorum - todo
        invariant commonPrefix == QuorumPrefix(s.views, order, cmpStart)
      {
        var id :| id in todo;
        todo := todo - {id};
        PrefixOfOneMore(s.views, order, id, cmpStart);
        commonPrefix := s.CommonPrefix(shortestId, id, cmpStart, commonPrefix);
        order := order + [id];
      }
      MergePrefixInRange(s.views, quorum, order, cmpStart);
    }

    method MatchAll(ids: set<nat>, mergedLen: nat)
      requires s.Valid() && ids <= s.views.Keys
      requires mergedLen <= USIZE_MAX && forall id :: id in ids ==> s.views[id].matched <= USIZE_MAX
      modifies s.repr
      ensures s.Valid() && s.Kept() && s.canon == old(s.canon)
      ensures s.views == OnAll(old(s.views), ids, Matching(mergedLen))
    {
      hide SharedState.Valid;
      hide OnAll;
      OnNone(s.views, Matching(mergedLen));
      var todo := ids;
      ghost var done: set<nat> := {};
      while todo != {}
        invariant s.Valid() && s.Kept() && s.canon == old(s.canon)
        invariant done !! todo && done + todo == ids
        invariant s.views == OnAll(old(s.views), done, Matching(mergedLen))
      {
        var id :| id in todo;
        s.Shape();
        OnAllKeys(old(s.views), done, Matching(mergedLen));
        OnOneMore(old(s.views), done, id, Matching(mergedLen));
        s.MarkMatching(id, mergedLen);
        todo, done := todo - {id}, done + {id};
      }
      assert done == ids;
    }

    method TrimAll(ids: set<nat>, mergedLen: nat)
      requires s.Valid() && ids <= s.views.Keys && mergedLen <= USIZE_MAX
      modifies s.repr
      ensures s.Valid() && s.Kept() && s.canon == old(s.canon)
      ensures s.views == OnAll(old(s.views), ids, Trimming(s.Cfg(), mergedLen))
    {
      hide SharedState.Valid;
      hide OnAll;
      OnNone(s.views, Trimming(s.Cfg(), mergedLen));
      var todo := ids;
      ghost var done: set<nat> := {};
      while todo != {}
        invariant s.Valid() && s.Kept() && s.canon == old(s.canon)
        invariant done !! todo && done + todo == ids
        invariant s.views == OnAll(old(s.views), done, Trimming(s.Cfg(), mergedLen))
      {
        var id :| id in todo;
        s.Shape();
        OnAllKeys(old(s.views), done, Trimming(s.Cfg(), mergedLen));
        OnOneMore(old(s.views), done, id, Trimming(s.Cfg(), mergedLen));
        s.Trim(id, mergedLen);
        todo, done := todo - {id}, done + {id};
      }
      assert done == ids;
    }

    method QuorumDelayedPosition(quorum: set<nat>) returns (n: nat)
      requires s.Valid() && quorum != {} && quorum <= s.views.Keys
      ensures n == LeastDelayed(s.views, quorum)
    {
      hide SharedState.Valid;
      s.Shape();
      var first :| first in quorum;
      n := s.DelayedDataLen(first);
      var todo := quorum - {first};
      while todo != {}
        invariant todo <= quorum
        invariant exists id :: id in quorum && s.views[id].delayed == n
        invariant forall id :: id in quorum - todo ==> n <= s.views[id].delayed
      {
        var id :| id in todo;
        var d := s.DelayedDataLen(id);
        todo := todo - {id};
        n := Min(n, d);
      }
    }

    method DiscardDataAfterMerging(quorum: set<nat>, spare: set<nat>)
      requires s.Valid() && quorum <= s.views.Keys && spare <= s.views.Keys && |s.canon.data| <= USIZE_MAX
      requires forall id :: id in quorum ==> s.views[id].matched <= USIZE_MAX
      modifies s.repr
      ensures s.Valid() && s.Kept() && s.canon == old(s.canon)
      ensures var n := |s.canon.data|;
              s.views == OnAll(OnAll(old(s.views), quorum, Matching(n)), spare, Trimming(s.Cfg(), n))
      ensures s.views.Keys == old(s.views).Keys
      ensures forall id :: id in s.views ==> SameStream(old(s.views)[id], s.views[id])
    {
      hide SharedState.Valid;
      hide OnAll;
      var mergedLen := s.CanonDataLen();
      MatchAll(quorum, mergedLen);
      OnAllKeys(old(s.views), quorum, Matching(mergedLen));
      OnAllKeys(s.views, spare, Trimming(s.Cfg(), mergedLen));
      TrimAll(spare, mergedLen);
    }

    method UpdateDelayedPosition(quorum: set<nat>)
      requires s.Valid() && !s.canon.finished && quorum != {} && quorum <= s.views.Keys
      modifies s.repr
      ensures s.Valid() && s.Kept() && s.views == old(s.views)
      ensures s.canon == old(s.canon).(delayed := s.canon.delayed, waiting := s.canon.waiting, woken := s.canon.woken)
      ensures s.canon.delayed == Max(old(s.canon.delayed), Min(|s.canon.data|, LeastDelayed(s.views, quorum)))
    {
      hide SharedState.Valid;
      hide LeastDelayed;
      var hint := QuorumDelayedPosition(quorum);
      s.UpdateCanonDelayedDataLen(hint);
    }

    /** Appends the common prefix of the quorum to C, then drops what is no longer needed. */
    method MergeMoreData(quorum: set<nat>, spare: set<nat>) returns (ghost order: seq<nat>, ghost source: nat)
      requires s.Valid() && !s.canon.finished && quorum != {} && quorum <= s.views.Keys && spare <= s.views.Keys
      requires forall id :: id in quorum ==> Mergeable(|s.canon.data|, s.views[id])
      modifies s.repr
      ensures s.Valid() && SameObjects() && s.token == old(s.token)
      ensures s.delayedDataStarted == old(s.delayedDataStarted) && s.canon.finished == old(s.canon.finished)
      ensures old(IsMergeOrder(s.views, quorum, order)) && source in quorum
      ensures Merges(s.Cfg(), old(s.views), old(s.canon.data), quorum, spare, order, source, s.views, s.canon.data)
      ensures s.canon.delayed == Max(old(s.canon.delayed), Min(|s.canon.data|, LeastDelayed(old(s.views), quorum)))
    {
      hide SharedState.Valid;
      hide OnAll;
      hide QuorumPrefix;
      hide LeastDelayed;
      var commonPrefix;
      commonPrefix, order := CalculateQuorumPrefix(quorum);
      var anyInQuorum :| anyInQuorum in quorum;
      source := anyInQuorum;
      s.Shape();
      s.AppendCanonData(anyInQuorum, commonPrefix);
      DiscardDataAfterMerging(quorum, spare);
      SameLeastDelayed(old(s.views), s.views, quorum);
      UpdateDelayedPosition(quorum);
    }

    method BecomeQuorum(newQuorum: set<nat>, newReserve: set<nat>)
      requires s.Valid() && this !in s.repr
      modifies this
      ensures Valid() && state == InQuorum(newQuorum)
      ensures View() == old(View()).(mode := Quorum(newQuorum), reserve := newReserve)
    {
      hide SharedState.Valid;
      state, reserve, mode := InQuorum(newQuorum), newReserve, Quorum(newQuorum);
    }

    /** Builds a quorum from the longest good replays; the others go to the reserve. */
    method FromStalemate(goodReplays: seq<nat>, ghost v: State, ghost best: byte) returns (ghost c: Choice)
      requires s.Valid() && this !in s.repr && Core(v) && v.mode.Stalemate? && !v.canonFinished && IsBest(v, best)
      requires Distinct(goodReplays) && Elements(goodReplays) == Group(v.mode.cand, best)
      requires View() == Advanced(v, best)
      modifies this, s.repr
      ensures Valid() && SameObjects() && state.InQuorum?
      ensures ValidChoice(v, c) && View() == QuorumMachine.ExitStalemate(v, c)
      ensures Elements(c.order) <= Elements(goodReplays) <= v.replays.Keys
      ensures forall i, j :: i in Elements(c.order) && j in Elements(goodReplays) - Elements(c.order) ==>
                |v.replays[j].log| <= |v.replays[i].log|
    {
      hide SharedState.Valid;
      hide Core;
      hide IsBest;
      hide OnAll;
      hide QuorumPrefix;
      hide LeastDelayed;
      hide Distinct;
      hide Elements;
      hide IsMergeOrder;
      hide Merges;
      hide Advanced;
      hide ModeValid;
      hide Mergeable;
      hide Group;
      ElementsCount(goodReplays);
      var newQuorumLen := Min(|goodReplays|, s.targetQuorumSize);
      GoodReplaysAreMergeable(v, best);
      var newQuorum, rest := TakeLongest(goodReplays, newQuorumLen);
      KnownIds(v);
      QuorumIsNotEmpty(v, best, newQuorum);
      BecomeQuorum(newQuorum, reserve + rest);
      ghost var order, source := MergeMoreData(newQuorum, reserve);
      assert SameObjects();
      c := Choice(best, order, source);
      MakesChoice(v, c, newQuorum, rest);
      Assembled(v, c, newQuorum, rest, View());
      QuorumDecisions.MembersAreLongest(v, c);
    }

    /** Appends the byte of the best group, wipes the other candidates and builds a quorum. */
    method ExitStalemate() returns (ghost c: Choice)
      requires Valid() && state.InStalemate? && Core(View()) && mode.cand != map[] && !s.canon.finished
      modifies this, s.repr
      ensures Valid() && SameObjects() && state.InQuorum?
      ensures ValidChoice(old(View()), c) && View() == QuorumMachine.ExitStalemate(old(View()), c)
    {
      hide SharedState.Valid;
      hide Core;
      hide IsBest;
      hide OnAll;
      hide Groups;
      hide Group;
      hide Distinct;
      hide Elements;
      hide ValidChoice;
      hide QuorumMachine.ExitStalemate;
      ghost var v := View();
      KnownIds(v);
      var best := BestByte();
      var goodReplays := state.candidates[best];
      ListIsGroup(state.candidates, v, best);
      GoodReplayHasByte(v, best, goodReplays);
      var bytePos := s.CanonDataLen();
      s.Shape();
      s.AppendCanonData(goodReplays[0], bytePos + 1);
      assert SameObjects();
      WipeLosers(best);
      c := FromStalemate(goodReplays, v, best);
    }

    // ---- Switching ----

    method ShouldChangeState() returns (b: bool)
      requires Valid()
      ensures b <==> ShouldChange(View())
    {
      hide SharedState.Valid;
      match state {
        case InStalemate(_) =>
          b := CanExit();
        case InQuorum(_) =>
          var delayed := s.CanonDelayedDataLen();
          var len := s.CanonDataLen();
          b := delayed >= len;
      }
    }

    /** One switch, in the direction the state asks for. */
    method ChangeState()
      requires Valid() && Core(View()) && ShouldChange(View()) && !s.canon.finished
      modifies this, s.repr
      ensures Valid() && SameObjects() && !s.canon.finished && Flips(old(View()), View())
    {
      hide SharedState.Valid;
      hide Core;
      hide Groups;
      hide QuorumMachine.ExitStalemate;
      hide QuorumMachine.EnterStalemate;
      KnownIds(View());
      ghost var v := View();
      if state.InQuorum? {
        EnterStalemate();
        EnterKeepsFlag(v);
      } else {
        ghost var c := ExitStalemate();
        ExitKeepsFlag(v, c);
      }
    }

    method WorkStateUntilStable()
      requires Valid() && Core(View()) && !s.canon.finished
      modifies this, s.repr
      ensures Valid() && SameObjects() && Core(View()) && !s.canon.finished
      ensures Settles(old(View()), View())
    {
      hide SharedState.Valid;
      hide Core;
      hide ModeValid;
      hide ShouldChange;
      hide Flip;
      hide Settles;
      hide IsPath;
      hide Measure;
      ghost var path := [View()];
      PathOfOne(View());
      var should := ShouldChangeState();
      while should
        invariant Valid() && SameObjects() && Core(View()) && !s.canon.finished
        invariant path != [] && IsPath(path) && path[0] == old(View()) && Last(path) == View()
        invariant should <==> ShouldChange(View())
        decreases Measure(View())
      {
        ghost var v := View();
        ChangeState();
        SwitchesTerminate(v, View());
        FlipKeepsInv(v, View());
        PathSnoc(path, View());
        path := path + [View()];
        should := ShouldChangeState();
      }
      PathSettles(path, old(View()));
    }

    // ---- The merge strategy interface ----

    method ReplayAdded(r: WriterReplay) returns (id: nat)
      requires Valid() && Core(View()) && !s.canon.finished
      requires r.Valid() && r !in s.repr && r.data !in s.repr && r.data.buffers == {} && this !in {r, r.data}
      requires r.data.log == [] && r.data.WindowStart() == 0 && r.delayedDataLen == 0 && !r.finished
      modifies this, s.repr, r, r.data
      ensures Valid() && Core(View()) && !s.canon.finished
      ensures old(s.repr) <= s.repr && fresh(s.repr - old(s.repr) - {r, r.data})
      ensures id == old(View()).token && id in s.replays && s.replays[id].r == r
      ensures s.replays.Keys == old(s.replays).Keys + {id}
      ensures forall i :: i in old(s.replays) ==> s.replays[i] == old(s.replays)[i]
      ensures s.canon.header == old(s.canon.header) && s.readers == old(s.readers)
      ensures Settles(AddCall(old(View())), View())
    {
      hide SharedState.Valid;
      hide Core;
      hide Groups;
      AddKeepsCore(View());
      s.Shape();
      id := s.AddReplay(r);
      reserve := reserve + {id};
      assert View() == AddCall(old(View()));
      WorkStateUntilStable();
    }

    method ReplayDataUpdated(id: nat)
      requires Valid() && Core(View()) && !s.canon.finished && id in s.replays
      modifies this, s.repr
      ensures Valid() && SameObjects() && Core(View()) && !s.canon.finished
      ensures Settles(UpdateCall(old(View()), id), View())
      ensures id in old(s.views) && (s.delayedDataStarted <==>
                old(s.delayedDataStarted) || (old(state.InStalemate?) && old(s.views)[id].delayed > 0))
    {
      hide SharedState.Valid;
      hide ModeValid;
      hide Core;
      hide Settles;
      hide UpdateCall;
      s.Shape();
      KnownIds(View());
      UpdateKeepsCore(View(), id);
      ModeIsState();
      StartsByDelay(View(), id);
      UpdateState(id);
      ghost var u := View();
      WorkStateUntilStable();
      SettlingKeepsStreams(u, View());
    }

    lemma ModeIsState()
      requires ModeValid()
      ensures state.InStalemate? <==> mode.Stalemate?
    {
    }

    /** What either state does about changed data. */
    method UpdateState(id: nat)
      requires Valid() && Core(View()) && !s.canon.finished && id in s.replays
      modifies this, s.repr
      ensures Valid() && SameObjects() && !s.canon.finished
      ensures WellFormed(old(View())) && View() == UpdateCall(old(View()), id)
    {
      hide SharedState.Valid;
      hide Core;
      hide Groups;
      hide Place;
      hide LeastDelayed;
      ghost var v := View();
      s.Shape();
      KnownIds(v);
      match state {
        case InStalemate(_) =>
          TryReserved(id);
          PlaceKeepsRest(v, {id});
          s.Shape();
          if !s.delayedDataStarted {
            var delayed := s.DelayedDataLen(id);
            if delayed > 0 {
              s.StartDelayedData();
            }
          }
        case InQuorum(quorum) =>
          if id in quorum {
            UpdateDelayedPosition(quorum);
          }
      }
    }

    /** A replay of the reserve is tried, any other left alone. */
    method TryReserved(id: nat)
      requires Valid() && Core(View()) && state.InStalemate? && id in s.replays
      modifies this, s.repr
      ensures Valid() && SameObjects() && state.InStalemate?
      ensures View() == if id in old(reserve) then Place(old(View()), {id}) else old(View())
    {
      hide SharedState.Valid;
      hide Core;
      hide Groups;
      hide Place;
      if id in reserve {
        KnownIds(View());
        ReserveIsReadable(View(), id);
        PlaceOne(View(), id);
        TryMoveReplayToCandidates(id);
      }
    }

    method ReplayRemoved(id: nat)
      requires Valid() && Core(View()) && !s.canon.finished && id in s.replays
      modifies this, s.repr
      ensures Valid() && SameObjects() && Core(View()) && !s.canon.finished
      ensures Settles(EndCall(old(View()), id), View())
    {
      hide SharedState.Valid;
      hide Core;
      hide Groups;
      hide Place;
      ghost var v := View();
      s.Shape();
      KnownIds(v);
      EndKeepsCore(v, id);
      if state.InStalemate? {
        TryReserved(id);
        PlaceKeepsRest(v, {id});
      }
      assert View() == EndCall(v, id);
      WorkStateUntilStable();
    }

    /** The first header becomes that of C; the others are taken and dropped. */
    method ReplayHeaderAdded(id: nat)
      requires Valid() && s.HasHeader(id) && !s.canon.finished && (s.canon.header.None? ==> s.canon.data == [])
      modifies s.repr
      ensures Valid() && s.Kept() && View() == old(View())
      ensures s.canon == if old(s.canon).header.Some? then old(s.canon)
                         else WithHeader(old(s.canon), old(s.replays[id].r.header.value))
    {
      hide SharedState.Valid;
      hide Groups;
      s.AddHeader(id);
    }

    /** None of the assertions fires when the strategy is ready. */
    method Finish()
      requires Valid() && ReadyToFinish(View()) && !s.canon.finished
      modifies s.repr
      ensures Valid() && SameObjects() && View() == old(View()).(canonFinished := true)
      ensures s.canon == Ended(old(s.canon))
    {
      hide SharedState.Valid;
      var dataLen := s.CanonDataLen();
      var position := s.CanonDelayedDataLen();
      assert dataLen == position;
      assert state.InStalemate? && reserve == {} && state.candidates == map[] by {
        GroupsCount(state.candidates, mode.cand);
      }
      s.FinishCanon();
    }

    method GetMergedReplay() returns (m: MergedReplay)
      ensures m == s.canonicalStream
    {
      m := s.canonicalStream;
    }
  }

  lemma OneMoreCandidate(candidates: map<byte, seq<nat>>, cand: map<nat, byte>, next: byte, id: nat)
    requires Groups(candidates, cand) && id !in cand
    ensures var ids := if next in candidates then candidates[next] else [];
            Groups(candidates[next := ids + [id]], cand[id := next])
  {
    var ids := if next in candidates then candidates[next] else [];
    ElementsSnoc(ids, id);
    assert Elements(ids) == Group(cand, next);
    assert Group(cand[id := next], next) == Group(cand, next) + {id};
    forall b: byte | b != next ensures Group(cand[id := next], b) == Group(cand, b) {
    }
    assert Distinct(ids + [id]) by {
      assert forall i :: 0 <= i < |ids| ==> ids[i] in Elements(ids);
    }
  }

  ghost predicate BestAmong(v: State, bytes: set<byte>, best: byte)
    requires v.mode.Stalemate? && v.mode.cand.Keys <= v.replays.Keys
  {
    forall a: byte :: a in bytes ==> RankAtMost(v, a, best)
  }

  lemma BestAmongMore(v: State, bytes: set<byte>, best: byte, b: byte)
    requires v.mode.Stalemate? && v.mode.cand.Keys <= v.replays.Keys && BestAmong(v, bytes, best)
    ensures var (gb, gc) := (Group(v.mode.cand, best), Group(v.mode.cand, b));
            var (n, l) := (|gb|, Longest(v.replays, gb));
            var (n', l') := (|gc|, Longest(v.replays, gc));
            BestAmong(v, bytes + {b}, if n < n' || (n == n' && (l < l' || (l == l' && best < b))) then b else best)
  {
    if RankAtMost(v, best, b) {
      forall a: byte | a in bytes ensures RankAtMost(v, a, b) {
        RankIsTransitive(v, a, best, b);
      }
    }
  }

  lemma BestAmongItself(v: State, best: byte)
    requires v.mode.Stalemate? && v.mode.cand.Keys <= v.replays.Keys
    ensures BestAmong(v, {best}, best)
  {
  }

  lemma BestOfAllIsBest(v: State, bytes: set<byte>, best: byte)
    requires v.mode.Stalemate? && v.mode.cand.Keys <= v.replays.Keys
    requires BestAmong(v, bytes, best) && Group(v.mode.cand, best) != {}
    requires forall a: byte :: a !in bytes ==> Group(v.mode.cand, a) == {}
    ensures IsBest(v, best)
  {
  }

  lemma RankIsTransitive(v: State, a: byte, b: byte, c: byte)
    requires v.mode.Stalemate? && v.mode.cand.Keys <= v.replays.Keys
    requires RankAtMost(v, a, b) && RankAtMost(v, b, c)
    ensures RankAtMost(v, a, c)
  {
  }

  lemma ListIsGroup(candidates: map<byte, seq<nat>>, v: State, b: byte)
    requires WellFormed(v) && v.mode.Stalemate? && Groups(candidates, v.mode.cand) && b in candidates
    ensures candidates[b] != [] && Distinct(candidates[b])
    ensures Elements(candidates[b]) == Group(v.mode.cand, b) <= v.replays.Keys
    ensures |Group(v.mode.cand, b)| == |candidates[b]| > 0
  {
    ElementsCount(candidates[b]);
  }

  lemma GroupsCount(candidates: map<byte, seq<nat>>, cand: map<nat, byte>)
    requires Groups(candidates, cand)
    ensures forall b: byte :: b in candidates ==> |Group(cand, b)| == |candidates[b]| > 0
    ensures forall b: byte :: b !in candidates ==> Group(cand, b) == {}
    ensures candidates == map[] <==> cand == map[]
  {
    forall b: byte | b in candidates ensures |Group(cand, b)| == |candidates[b]| {
      ElementsCount(candidates[b]);
    }
    if cand != map[] {
      var id :| id in cand;
      assert id in Group(cand, cand[id]);
    }
    if candidates != map[] {
      var b :| b in candidates;
      assert candidates[b][0] in Group(cand, b);
    }
  }

  lemma KnownIds(v: State)
    requires Core(v)
    ensures WellFormed(v) && v.reserve <= v.replays.Keys
  {
  }

  lemma NoGroups()
    ensures Groups(map[], map[])
  {
  }

  /** A replay whose turn has come can be checked, and checking it is one more step of `Place`. */
  lemma NextToPlace(u: State, done: set<nat>, id: nat)
    requires Core(u) && u.mode.Stalemate? && done + {id} <= u.reserve && id !in done
    ensures var p := Place(u, done);
            && id in p.replays && p.cfg == u.cfg && p.canon == u.canon && id !in p.mode.cand
            && ReplayOk(|p.canon|, p.replays[id]) && ReserveOk(p.cfg, |p.canon|, p.replays[id])
            && PlacedOne(p, id) == Place(u, done + {id})
  {
    PlaceKeepsCore(u, done);
    MoreReserve(u, done, id, Judge(u.cfg, u.canon, u.replays[id]));
    ReserveIsReadable(Place(u, done), id);
    PlaceOne(Place(u, done), id);
    PlaceOneMore(u, done, id);
  }

  lemma OnAllKeys(replays: map<nat, Replay>, ids: set<nat>, u: Update)
    ensures OnAll(replays, ids, u).Keys == replays.Keys
    ensures forall id :: id in replays ==> SameStream(replays[id], OnAll(replays, ids, u)[id])
    ensures forall id :: id in replays && id !in ids ==> OnAll(replays, ids, u)[id] == replays[id]
  {
  }

  lemma OnMore(replays: map<nat, Replay>, ids: set<nat>, more: set<nat>, u: Update)
    requires ids !! more
    ensures OnAll(OnAll(replays, ids, u), more, u) == OnAll(replays, ids + more, u)
  {
  }

  lemma OnOneMoreListed(replays: map<nat, Replay>, ids: seq<nat>, i: nat, u: Update)
    requires i < |ids| && Distinct(ids) && Elements(ids) <= replays.Keys
    ensures var some := OnAll(replays, Elements(ids[..i]), u);
            && ids[i] in some
            && some[ids[i] := Apply(u, some[ids[i]])] == OnAll(replays, Elements(ids[..i + 1]), u)
  {
    assert ids[..i + 1] == ids[..i] + [ids[i]];
    ElementsSnoc(ids[..i], ids[i]);
    assert ids[i] in Elements(ids);
    OnOneMore(replays, Elements(ids[..i]), ids[i], u);
  }

  /** Candidates that want one of these bytes. */
  ghost function FiledUnder(cand: map<nat, byte>, bytes: set<byte>): set<nat> {
    set id | id in cand && cand[id] in bytes
  }

  lemma FiledUnderNone(cand: map<nat, byte>)
    ensures FiledUnder(cand, {}) == {}
  {
  }

  lemma FiledUnderMore(candidates: map<byte, seq<nat>>, cand: map<nat, byte>, bytes: set<byte>, b: byte)
    requires Groups(candidates, cand) && b in candidates && b !in bytes
    ensures FiledUnder(cand, bytes + {b}) == FiledUnder(cand, bytes) + Group(cand, b)
    ensures FiledUnder(cand, bytes) !! Group(cand, b)
    ensures Distinct(candidates[b]) && Elements(candidates[b]) == Group(cand, b) <= cand.Keys
  {
  }

  lemma FiledUnderAllBut(candidates: map<byte, seq<nat>>, cand: map<nat, byte>, bytes: set<byte>, best: byte)
    requires Groups(candidates, cand) && bytes == candidates.Keys - {best}
    ensures FiledUnder(cand, bytes) == cand.Keys - Group(cand, best)
  {
    forall id | id in cand && cand[id] != best ensures id in FiledUnder(cand, bytes) {
      assert id in Group(cand, cand[id]);
    }
  }

  lemma ListedSet(ids: seq<nat>, listed: set<nat>)
    requires forall id :: id in listed <==> id in ids
    ensures listed == Elements(ids)
  {
  }

  /** No replay that is left is longer than one that is taken. */
  ghost predicate NoneLonger(replays: map<nat, Replay>, taken: set<nat>, rest: set<nat>) {
    && taken <= replays.Keys && rest <= replays.Keys
    && forall i, j :: i in taken && j in rest ==> |replays[j].log| <= |replays[i].log|
  }

  lemma NobodyTaken(replays: map<nat, Replay>, rest: set<nat>)
    requires rest <= replays.Keys
    ensures NoneLonger(replays, {}, rest)
  {
  }

  lemma LongestIsNext(replays: map<nat, Replay>, taken: set<nat>, rest: set<nat>, id: nat)
    requires NoneLonger(replays, taken, rest) && id in rest
    requires forall i :: i in rest ==> |replays[i].log| <= |replays[id].log|
    ensures NoneLonger(replays, taken + {id}, rest - {id})
  {
  }

  lemma MovesOver(a: set<nat>, b: set<nat>, id: nat)
    requires a !! b && id in b
    ensures a + {id} !! b - {id} && (a + {id}) + (b - {id}) == a + b
    ensures |a + {id}| == |a| + 1 && b - {id} < b
  {
  }

  lemma CountParts(a: set<nat>, b: set<nat>)
    requires a !! b
    ensures |a + b| == |a| + |b|
  {
  }

  lemma PrefixOfOne(replays: map<nat, Replay>, id: nat, start: nat)
    requires id in replays
    ensures Elements([id]) == {id} && QuorumPrefix(replays, [id], start) == |replays[id].log|
  {
    assert [id][0] == id;
  }

  lemma PrefixOfOneMore(replays: map<nat, Replay>, order: seq<nat>, id: nat, start: nat)
    requires order != [] && Elements(order) + {id} <= replays.Keys
    ensures Elements(order + [id]) == Elements(order) + {id}
    ensures id !in Elements(order) && Distinct(order) ==> Distinct(order + [id])
    ensures QuorumPrefix(replays, order + [id], start) ==
            PrefixFromTo(replays[order[0]].log, replays[id].log, start,
                         Some(QuorumPrefix(replays, order, start)))
  {
    ElementsSnoc(order, id);
    assert (order + [id])[..|order|] == order;
    assert forall i :: 0 <= i < |order| ==> order[i] in Elements(order);
  }

  /** A member of a new quorum has kept all its data from the end of C on. */
  ghost predicate Mergeable(canonLen: nat, r: Replay) {
    r.window <= canonLen <= |r.log| <= USIZE_MAX && r.matched <= canonLen
  }

  /** The source's data up to the common prefix has been appended to C and discarded where possible. */
  ghost predicate Merges(cfg: Config, replays: map<nat, Replay>, canon: seq<byte>, quorum: set<nat>, spare: set<nat>,
                         order: seq<nat>, source: nat, newReplays: map<nat, Replay>, newCanon: seq<byte>)
  {
    && IsMergeOrder(replays, quorum, order) && source in quorum
    && var (start, end, n) := (|canon|, QuorumPrefix(replays, order, |canon|), |newCanon|);
    && start <= end <= |replays[source].log|
    && newCanon == canon + replays[source].log[start..end]
    && newReplays == OnAll(OnAll(replays, quorum, Matching(n)), spare, Trimming(cfg, n))
  }

  /** An order of comparison: each member once, a shortest one first. */
  ghost predicate IsMergeOrder(replays: map<nat, Replay>, quorum: set<nat>, order: seq<nat>) {
    && quorum <= replays.Keys && order != [] && Distinct(order) && Elements(order) == quorum
    && forall i :: i in quorum ==> order[0] in quorum && |replays[order[0]].log| <= |replays[i].log|
  }

  lemma MergePrefixInRange(replays: map<nat, Replay>, quorum: set<nat>, order: seq<nat>, start: nat)
    requires IsMergeOrder(replays, quorum, order) && forall id :: id in quorum ==> start <= |replays[id].log|
    ensures forall id :: id in quorum ==> start <= QuorumPrefix(replays, order, start) <= |replays[id].log|
  {
    QuorumPrefixInRange(replays, order, start);
  }

  /** C has the agreed byte, and the candidates that wanted another one are wiped. */
  ghost function Advanced(v: State, best: byte): State
    requires v.mode.Stalemate?
  {
    v.(canon := v.canon + [best], replays := OnAll(v.replays, Losers(v, best), Wiping))
  }

  lemma GoodReplaysAreMergeable(v: State, best: byte)
    requires Core(v) && v.mode.Stalemate? && IsBest(v, best)
    ensures forall id :: id in Group(v.mode.cand, best) ==>
      && id in v.replays && id in Advanced(v, best).replays
      && Advanced(v, best).replays[id] == v.replays[id]
      && Mergeable(|v.canon| + 1, v.replays[id])
    ensures Advanced(v, best).replays.Keys == v.replays.Keys
    ensures Advanced(v, best) == v.(canon := v.canon + [best], replays := Advanced(v, best).replays)
  {
    forall id | id in Group(v.mode.cand, best)
      ensures id in v.replays && Mergeable(|v.canon| + 1, v.replays[id])
    {
      assert CandidateOk(v.canon, v.replays[id], v.mode.cand[id]) && ReplayOk(|v.canon|, v.replays[id]);
    }
  }

  lemma QuorumIsNotEmpty(v: State, best: byte, quorum: set<nat>)
    requires Core(v) && v.mode.Stalemate? && IsBest(v, best)
    requires |quorum| == Min(|Group(v.mode.cand, best)|, v.cfg.quorumSize)
    ensures quorum != {}
  {
  }

  lemma MakesChoice(v: State, c: Choice, quorum: set<nat>, rest: set<nat>)
    requires Core(v) && v.mode.Stalemate? && IsBest(v, c.best)
    requires quorum !! rest && quorum + rest == Group(v.mode.cand, c.best)
    requires |quorum| == Min(|quorum + rest|, v.cfg.quorumSize)
    requires var r := Advanced(v, c.best).replays;
             NoneLonger(r, quorum, rest) && IsMergeOrder(r, quorum, c.order) && c.source in quorum
    ensures ValidChoice(v, c)
  {
    GoodReplaysAreMergeable(v, c.best);
    ElementsCount(c.order);
    SameLogsSamePrefix(v.replays, Advanced(v, c.best).replays, c.order, |v.canon| + 1);
    QuorumPrefixInRange(v.replays, c.order, |v.canon| + 1);
  }

  lemma {:induction false} SameLogsSamePrefix(r: map<nat, Replay>, s: map<nat, Replay>, order: seq<nat>, start: nat)
    requires order != [] && Elements(order) <= r.Keys && Elements(order) <= s.Keys
    requires forall id :: id in Elements(order) ==> r[id].log == s[id].log
    ensures QuorumPrefix(r, order, start) == QuorumPrefix(s, order, start)
    decreases |order|
  {
    if |order| > 1 {
      var last := |order| - 1;
      assert Elements(order[..last]) <= Elements(order) by {
        assert order[..last] + [order[last]] == order;
        ElementsSnoc(order[..last], order[last]);
      }
      SameLogsSamePrefix(r, s, order[..last], start);
    }
  }

  /** The data of a merge is that of the machine. */
  lemma AssembledCanon(v: State, c: Choice, rest: set<nat>, newReplays: map<nat, Replay>, newCanon: seq<byte>)
    requires Core(v) && v.mode.Stalemate? && ValidChoice(v, c)
    requires Merges(v.cfg, Advanced(v, c.best).replays, v.canon + [c.best], Elements(c.order), v.reserve + rest,
                    c.order, c.source, newReplays, newCanon)
    ensures newCanon == Canon2(v, c)
  {
    hide IsBest;
    hide SetsOk;
    hide QuorumPrefix;
    hide Advanced;
    hide OnAll;
    GoodReplaysAreMergeable(v, c.best);
    SameLogsSamePrefix(v.replays, Advanced(v, c.best).replays, c.order, |v.canon| + 1);
  }

  /** So is what it does to the replays. */
  lemma AssembledReplays(v: State, c: Choice, rest: set<nat>, newReplays: map<nat, Replay>, newCanon: seq<byte>)
    requires Core(v) && v.mode.Stalemate? && ValidChoice(v, c)
    requires rest == Group(v.mode.cand, c.best) - Elements(c.order) && newCanon == Canon2(v, c)
    requires Merges(v.cfg, Advanced(v, c.best).replays, v.canon + [c.best], Elements(c.order), v.reserve + rest,
                    c.order, c.source, newReplays, newCanon)
    ensures newReplays == QuorumMachine.ExitStalemate(v, c).replays
  {
    hide IsBest;
    hide SetsOk;
    hide QuorumPrefix;
    hide Canon2;
    hide OnAll;
    hide AfterExit;
    ExitIsThreeUpdates(v, c, |newCanon|, v.reserve + rest);
  }

  /** And C's delayed position. */
  lemma AssembledDelay(v: State, c: Choice)
    requires Core(v) && v.mode.Stalemate? && ValidChoice(v, c)
    ensures var (r, quorum) := (Advanced(v, c.best).replays, Elements(c.order));
            quorum != {} && quorum <= r.Keys && LeastDelayed(r, quorum) == LeastDelayed(v.replays, quorum)
  {
    hide IsBest;
    hide SetsOk;
    hide QuorumPrefix;
    hide LeastDelayed;
    hide Advanced;
    GoodReplaysAreMergeable(v, c.best);
    assert c.order[0] in Elements(c.order);
    SameLeastDelayed(v.replays, Advanced(v, c.best).replays, Elements(c.order));
  }

  /** The pieces amount to `exit_stalemate` of the machine. */
  lemma Assembled(v: State, c: Choice, quorum: set<nat>, rest: set<nat>, w: State)
    requires Core(v) && v.mode.Stalemate? && ValidChoice(v, c)
    requires quorum !! rest && quorum + rest == Group(v.mode.cand, c.best)
    requires var r := Advanced(v, c.best).replays;
             && quorum <= r.Keys
             && Merges(v.cfg, r, v.canon + [c.best], quorum, v.reserve + rest, c.order, c.source, w.replays, w.canon)
             && w.canonDelayed == Max(v.canonDelayed, Min(|w.canon|, LeastDelayed(r, quorum)))
    requires w == v.(canon := w.canon, replays := w.replays, canonDelayed := w.canonDelayed,
                     mode := Quorum(quorum), reserve := v.reserve + rest)
    ensures w == QuorumMachine.ExitStalemate(v, c)
  {
    hide IsBest;
    hide SetsOk;
    hide QuorumPrefix;
    hide Advanced;
    hide OnAll;
    hide Canon2;
    hide AfterExit;
    hide LeastDelayed;
    assert quorum == Elements(c.order);
    assert rest == Group(v.mode.cand, c.best) - quorum;
    AssembledCanon(v, c, rest, w.replays, w.canon);
    AssembledReplays(v, c, rest, w.replays, w.canon);
    AssembledDelay(v, c);
  }

  lemma GoodReplayHasByte(v: State, best: byte, ids: seq<nat>)
    requires Core(v) && v.mode.Stalemate? && ids != [] && Elements(ids) == Group(v.mode.cand, best)
    ensures var n := |v.canon|;
            && ids[0] in v.replays && v.replays[ids[0]].window <= n < |v.replays[ids[0]].log|
            && v.replays[ids[0]].log[n..n + 1] == [best]
  {
    var id := ids[0];
    assert id in Elements(ids);
    assert CandidateOk(v.canon, v.replays[id], v.mode.cand[id]);
  }

  lemma StartsByDelay(v: State, id: nat)
    requires WellFormed(v) && id in v.replays
    ensures UpdateCall(v, id).started <==> v.started || (v.mode.Stalemate? && v.replays[id].delayed > 0)
  {
  }

  lemma PlaceKeepsRest(v: State, ids: set<nat>)
    requires v.mode.Stalemate? && ids <= v.replays.Keys
    ensures Place(v, ids).canonFinished == v.canonFinished && Place(v, ids).started == v.started
    ensures forall id :: id in v.replays ==> Place(v, ids).replays[id].delayed == v.replays[id].delayed
  {
  }

  lemma EnterKeepsFlag(v: State)
    requires WellFormed(v) && v.mode.Quorum?
    ensures QuorumMachine.EnterStalemate(v).canonFinished == v.canonFinished
  {
  }

  lemma ExitKeepsFlag(v: State, c: Choice)
    requires WellFormed(v) && v.mode.Stalemate? && ValidChoice(v, c)
    ensures QuorumMachine.ExitStalemate(v, c).canonFinished == v.canonFinished
  {
  }
}
