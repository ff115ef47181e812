/** What comparing two chunked logs computes, as functions of the logs alone. */
module CommonPrefix {
  import opened Bytes

  /** `a` and `b` both reach `hi` and hold the same bytes at positions `lo..hi`. */
  ghost predicate Agree(a: seq<byte>, b: seq<byte>, lo: nat, hi: nat) {
    hi <= |a| && hi <= |b| && forall i :: lo <= i < hi ==> a[i] == b[i]
  }

  /** First position from `start` on where the logs differ, or `stop` when they agree up to there. */
  ghost function MatchEnd(a: seq<byte>, b: seq<byte>, start: nat, stop: nat): (r: nat)
    requires start <= stop <= |a| && stop <= |b|
    ensures start <= r <= stop
    ensures Agree(a, b, start, r)
    ensures r < stop ==> a[r] != b[r]
    decreases stop - start
  {
    if start == stop || a[start] != b[start] then start else MatchEnd(a, b, start + 1, stop)
  }

  /** Where the comparison has to get to: the shorter length, or `end` when that comes first. */
  function Target(a: seq<byte>, b: seq<byte>, end: Option<nat>): (t: nat)
    ensures t <= |a| && t <= |b|
  {
    var shorter := Min(|a|, |b|);
    if end.Some? then Min(shorter, end.value) else shorter
  }

  /**
   * The result of `common_prefix_from_to`. Chunks are not clipped to `end`, so a comparison that
   * starts before its target runs on to the next chunk boundary (or the end of a log).
   */
  ghost function PrefixFromTo(a: seq<byte>, b: seq<byte>, start: nat, end: Option<nat>): nat {
    var target := Target(a, b, end);
    if start >= target then start
    else MatchEnd(a, b, start, Min(Min(|a|, |b|), ChunkCeil(target)))
  }

  /** Only the first difference (or the stop) fits the description of `MatchEnd`. */
  lemma {:induction false} MatchEndUnique(a: seq<byte>, b: seq<byte>, start: nat, stop: nat, r: nat)
    requires start <= r <= stop <= |a| && stop <= |b|
    requires Agree(a, b, start, r)
    requires r < stop ==> a[r] != b[r]
    ensures r == MatchEnd(a, b, start, stop)
    decreases stop - start
  {
    if start < r {
      MatchEndUnique(a, b, start + 1, stop, r);
    }
  }

  /**
   * The comparison agrees with a byte-wise one: everything up to the result is equal, the result
   * stays inside both logs, and it stops early only at a difference.
   */
  lemma PrefixIsBytewise(a: seq<byte>, b: seq<byte>, start: nat, end: Option<nat>)
    requires start <= |a| && start <= |b|
    ensures var r := PrefixFromTo(a, b, start, end);
            && start <= r <= Min(|a|, |b|)
            && Agree(a, b, start, r)
            && (r >= Target(a, b, end) || a[r] != b[r])
  {
  }

  /** Without an effective `end` the result is exactly the longest common prefix. */
  lemma PrefixIsLongest(a: seq<byte>, b: seq<byte>, start: nat, end: Option<nat>)
    requires start <= |a| && start <= |b|
    requires end.Some? ==> end.value >= Min(|a|, |b|)
    ensures PrefixFromTo(a, b, start, end) == MatchEnd(a, b, start, Min(|a|, |b|))
  {
  }

  /**
   * The result passes `end` in exactly one situation: the comparison does start, `end` lies strictly
   * inside both logs and not on a chunk boundary, and the logs still agree at `end` itself.
   */
  lemma PrefixPassesEndExactlyWhen(a: seq<byte>, b: seq<byte>, start: nat, end: nat)
    requires start <= end
    ensures PrefixFromTo(a, b, start, Some(end)) > end <==>
            start < end < Min(|a|, |b|) && end % 4096 != 0 && Agree(a, b, start, end + 1)
  {
    if start < end < Min(|a|, |b|) {
      assert end % 4096 == 0 ==> ChunkCeil(end) == end;
    }
  }
}
