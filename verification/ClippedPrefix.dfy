/**
 * What comparing a quorum would compute if every comparison stopped at the prefix found so far. The
 * code does so for one or two members only; for more, `QuorumOverrun` shows what can go wrong.
 */
module ClippedPrefixes {
  import opened Bytes
  import opened CommonPrefix
  import opened QuorumInvariant
  import opened QuorumMachine

  ghost function Clipped(replays: map<nat, Replay>, order: seq<nat>, start: nat): nat
    requires order != [] && Elements(order) <= replays.Keys
  {
    var shortest := replays[order[0]].log;
    if |order| == 1 then |shortest| else
      var last := |order| - 1;
      var prefix := Clipped(replays, order[..last], start);
      Min(prefix, PrefixFromTo(shortest, replays[order[last]].log, start, Some(prefix)))
  }

  /** The members come with a shortest one first, and all reach the start of the comparison. */
  ghost predicate Comparable(replays: map<nat, Replay>, order: seq<nat>, start: nat) {
    && order != [] && Elements(order) <= replays.Keys
    && forall id :: id in Elements(order) ==> start <= |replays[order[0]].log| <= |replays[id].log|
  }

  lemma FewerAreComparable(replays: map<nat, Replay>, order: seq<nat>, start: nat)
    requires Comparable(replays, order, start) && |order| > 1
    ensures Comparable(replays, order[..|order| - 1], start)
    ensures Elements(order) == Elements(order[..|order| - 1]) + {order[|order| - 1]}
  {
    var last := |order| - 1;
    assert order[..last] + [order[last]] == order;
    ElementsSnoc(order[..last], order[last]);
  }

  /** For a quorum of any size, every member holds the clipped prefix. */
  lemma {:induction false} ClippedIsHeldByAll(replays: map<nat, Replay>, order: seq<nat>, start: nat, id: nat)
    requires Comparable(replays, order, start) && id in Elements(order)
    ensures start <= Clipped(replays, order, start) <= |replays[order[0]].log|
    ensures Agree(replays[id].log, replays[order[0]].log, start, Clipped(replays, order, start))
    decreases |order|
  {
    if |order| == 1 {
      assert id == order[0];
    } else {
      var last := |order| - 1;
      var (shortest, other) := (replays[order[0]].log, replays[order[last]].log);
      FewerAreComparable(replays, order, start);
      ClippedIsHeldByAll(replays, order[..last], start, if id in Elements(order[..last]) then id else order[0]);
      PrefixIsBytewise(shortest, other, start, Some(Clipped(replays, order[..last], start)));
    }
  }

  /** It cannot be longer: it ends with the shortest member or where some member differs from it. */
  lemma {:induction false} ClippedIsLongest(replays: map<nat, Replay>, order: seq<nat>, start: nat)
    requires Comparable(replays, order, start)
    ensures var (end, shortest) := (Clipped(replays, order, start), replays[order[0]].log);
            start <= end && (end >= |shortest| ||
              exists id :: id in Elements(order) && end < |replays[id].log| && replays[id].log[end] != shortest[end])
    decreases |order|
  {
    if |order| > 1 {
      var last := |order| - 1;
      var (shortest, other) := (replays[order[0]].log, replays[order[last]].log);
      FewerAreComparable(replays, order, start);
      ClippedIsLongest(replays, order[..last], start);
      ClippedIsHeldByAll(replays, order[..last], start, order[0]);
      var prefix := Clipped(replays, order[..last], start);
      PrefixIsBytewise(shortest, other, start, Some(prefix));
      if Clipped(replays, order, start) < prefix {
        assert order[last] in Elements(order);
      }
    }
  }

  /** What the code computes is never shorter, and the same for one or two members. */
  lemma {:induction false} OverrunsOnly(replays: map<nat, Replay>, order: seq<nat>, start: nat)
    requires Comparable(replays, order, start)
    ensures Clipped(replays, order, start) <= QuorumPrefix(replays, order, start)
    ensures |order| <= 2 ==> QuorumPrefix(replays, order, start) == Clipped(replays, order, start)
    decreases |order|
  {
    hide PrefixFromTo;
    if |order| > 1 {
      var last := |order| - 1;
      var (shortest, other) := (replays[order[0]].log, replays[order[last]].log);
      FewerAreComparable(replays, order, start);
      OverrunsOnly(replays, order[..last], start);
      ClippedIsHeldByAll(replays, order[..last], start, order[0]);
      var (clipped, prefix) := (Clipped(replays, order[..last], start), QuorumPrefix(replays, order[..last], start));
      QuorumPrefixInRange(replays, order[..last], start);
      PrefixIsBytewise(shortest, other, start, Some(clipped));
      PrefixIsBytewise(shortest, other, start, Some(prefix));
      LaterEndGoesFurther(shortest, other, start, clipped, prefix);
    }
  }

  /** Comparing up to a later end finds at least as much of what lies before the earlier one. */
  lemma LaterEndGoesFurther(a: seq<byte>, b: seq<byte>, start: nat, end: nat, later: nat)
    requires start <= end <= later <= |a| <= |b|
    ensures Min(end, PrefixFromTo(a, b, start, Some(end))) <= PrefixFromTo(a, b, start, Some(later))
  {
    PrefixIsBytewise(a, b, start, Some(end));
    PrefixIsBytewise(a, b, start, Some(later));
  }
}
