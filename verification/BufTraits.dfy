/** Comparing, iterating over and reading from chunked buffers. */
module BufTraits {
  import opened Bytes
  import opened BufDeques
  import opened CommonPrefix

  /** Number of leading bytes two chunks share. */
  method EqualLength(a: seq<byte>, b: seq<byte>) returns (n: nat)
    ensures n <= |a| && n <= |b| && a[..n] == b[..n]
    ensures n < |a| && n < |b| ==> a[n] != b[n]
  {
    n := 0;
    while n < |a| && n < |b| && a[n] == b[n]
      invariant n <= |a| && n <= |b| && a[..n] == b[..n]
    {
      n := n + 1;
    }
  }

  /** `at` is where a comparison that has found no difference so far may stand. */
  ghost predicate Standing(a: seq<byte>, b: seq<byte>, start: nat, target: nat, at: nat) {
    && start <= at <= Min(Min(|a|, |b|), ChunkCeil(target)) && Agree(a, b, start, at)
    && (at < target || at == Min(|a|, |b|) || at == ChunkCeil(target))
  }

  lemma StandsAtStart(a: seq<byte>, b: seq<byte>, start: nat, target: nat)
    ensures start < target <= Min(|a|, |b|) ==> Standing(a, b, start, target, start)
  {
  }

  lemma ChunkStepStands(a: seq<byte>, b: seq<byte>, start: nat, target: nat, at: nat, n: nat)
    requires Standing(a, b, start, target, at) && at < target <= Min(|a|, |b|)
    requires var (x, y) := (ChunkAt(a, at), ChunkAt(b, at));
             n == Min(|x|, |y|) && x[..n] == y[..n]
    ensures Standing(a, b, start, target, at + n)
  {
    var (x, y) := (ChunkAt(a, at), ChunkAt(b, at));
    forall i | at <= i < at + n ensures a[i] == b[i] {
      assert x[..n][i - at] == a[i] && y[..n][i - at] == b[i];
    }
    BoundaryReached(at, target);
  }

  /** The first chunk boundary past a position short of the target does not pass the target's ceiling. */
  lemma BoundaryReached(at: nat, target: nat)
    requires at < target
    ensures ChunkFloor(at) + CHUNK_SIZE < target || ChunkFloor(at) + CHUNK_SIZE == ChunkCeil(target)
  {
  }

  /**
   * Compares chunk by chunk. Chunks are not clipped to `end`; `PrefixFromTo` says what that means.
   * Neither buffer may have discarded past `start` when there is anything to compare.
   */
  method CommonPrefixFromTo(me: BufDeque, other: BufDeque, start: nat, end: Option<nat>) returns (at: nat)
    requires me.Valid() && other.Valid()
    requires start < Target(me.log, other.log, end) ==> me.WindowStart() <= start && other.WindowStart() <= start
    ensures at == PrefixFromTo(me.log, other.log, start, end)
  {
    hide BufDeque.Valid;
    hide ChunkAt;
    hide Standing;
    hide ChunkCeil;
    me.LenIsLogLength();
    other.LenIsLogLength();
    at := start;
    var maxCmp := Min(me.Len(), other.Len());
    if end.Some? {
      maxCmp := Min(maxCmp, end.value);
    }
    StandsAtStart(me.log, other.log, start, maxCmp);
    while at < maxCmp
      invariant start <= at
      invariant start < maxCmp ==> Standing(me.log, other.log, start, maxCmp, at)
      invariant start >= maxCmp ==> at == start
      decreases maxCmp - at
    {
      var myChunk := me.GetChunk(at);
      var otherChunk := other.GetChunk(at);
      var eqLen := EqualLength(myChunk, otherChunk);
      assert eqLen <= Min(|myChunk|, |otherChunk|);
      if eqLen < Min(|myChunk|, |otherChunk|) {
        DifferenceEnds(me.log, other.log, start, maxCmp, at, eqLen);
        at := at + eqLen;
        return;
      }
      ChunkStepStands(me.log, other.log, start, maxCmp, at, eqLen);
      at := at + eqLen;
    }
    if start < maxCmp {
      StandingEnds(me.log, other.log, start, maxCmp, at);
    }
  }

  lemma StandingEnds(a: seq<byte>, b: seq<byte>, start: nat, target: nat, at: nat)
    requires Standing(a, b, start, target, at) && target <= at && start < target <= Min(|a|, |b|)
    ensures at == MatchEnd(a, b, start, Min(Min(|a|, |b|), ChunkCeil(target)))
  {
    MatchEndUnique(a, b, start, Min(Min(|a|, |b|), ChunkCeil(target)), at);
  }

  lemma DifferenceEnds(a: seq<byte>, b: seq<byte>, start: nat, target: nat, at: nat, n: nat)
    requires Standing(a, b, start, target, at) && at < target <= Min(|a|, |b|)
    requires var (x, y) := (ChunkAt(a, at), ChunkAt(b, at));
             n < Min(|x|, |y|) && x[..n] == y[..n] && x[n] != y[n]
    ensures at + n == MatchEnd(a, b, start, Min(Min(|a|, |b|), ChunkCeil(target)))
  {
    var (x, y) := (ChunkAt(a, at), ChunkAt(b, at));
    forall i | at <= i < at + n ensures a[i] == b[i] {
      assert x[..n][i - at] == a[i] && y[..n][i - at] == b[i];
    }
    assert x[n] == a[at + n] && y[n] == b[at + n];
    BoundaryReached(at, target);
    MatchEndUnique(a, b, start, Min(Min(|a|, |b|), ChunkCeil(target)), at + n);
  }

  method CommonPrefixFrom(me: BufDeque, other: BufDeque, start: nat) returns (at: nat)
    requires me.Valid() && other.Valid()
    requires start < Min(|me.log|, |other.log|) ==> me.WindowStart() <= start && other.WindowStart() <= start
    ensures at == PrefixFromTo(me.log, other.log, start, None)
  {
    at := CommonPrefixFromTo(me, other, start, None);
  }

  method At(b: BufDeque, pos: nat) returns (x: byte)
    requires b.Valid() && b.WindowStart() <= pos < |b.log|
    ensures x == b.log[pos]
  {
    var chunk := b.GetChunk(pos);
    x := chunk[0];
  }

  /** Iterates over the chunks between two positions. */
  class IterChunks {
    const b: BufDeque
    var start: nat
    const end: nat

    ghost predicate Valid()
      reads this, b, b.buffers
    {
      b.Valid() && start <= end <= |b.log| && (start < end ==> b.WindowStart() <= start)
    }

    constructor (b: BufDeque, start: nat, end: nat)
      requires b.Valid() && start <= end <= |b.log| && (start < end ==> b.WindowStart() <= start)
      ensures Valid() && this.b == b && this.start == start && this.end == end
    {
      this.b, this.start, this.end := b, start, end;
    }

    /** Yields the next bytes and moves past them; nothing comes exactly at the end. */
    method Next() returns (item: Option<seq<byte>>)
      requires Valid()
      modifies this
      ensures Valid() && old(start) <= start <= end
      ensures item.None? <==> old(start) == end
      ensures item.Some? ==> item.value != [] && item.value == b.log[old(start)..start]
      ensures start == Min(end, old(start) + 4096 - old(start) % 4096)
      ensures item.None? ==> start == end
    {
      if start == end {
        return None;
      }
      var chunk := b.GetChunk(start);
      if start + |chunk| > end {
        chunk := chunk[..end - start];
      }
      start := start + |chunk|;
      item := Some(chunk);
    }
  }

  /** A read that keeps no reference: as much of one chunk as fits, nothing at the end. */
  method ReadAt(b: BufDeque, start: nat, capacity: nat) returns (bytes: seq<byte>)
    requires b.Valid() && (start < |b.log| ==> b.WindowStart() <= start)
    ensures start + |bytes| <= |b.log| || bytes == []
    ensures bytes == [] <==> start >= |b.log| || capacity == 0
    ensures |bytes| <= capacity && (start <= |b.log| ==> bytes == b.log[start..start + |bytes|])
    ensures start <= |b.log| ==> |bytes| == Min(capacity, Min(|b.log| - start, 4096 - start % 4096))
  {
    if start >= b.Len() {
      return [];
    }
    var chunk := b.GetChunk(start);
    bytes := chunk[..Min(|chunk|, capacity)];
  }

  lemma SlicesJoin(before: seq<byte>, log: seq<byte>, from: nat, middle: nat, end: nat)
    requires from <= middle <= end <= |log|
    ensures log[from..middle] + log[middle..end] == log[from..end]
    ensures before + log[from..middle] + log[middle..end] == before + log[from..end]
    ensures log[end..end] == []
  {
  }

  class ReadAtCursor {
    const src: BufDeque
    var start: nat

    constructor (src: BufDeque, start: nat)
      ensures this.src == src && this.start == start
    {
      this.src, this.start := src, start;
    }

    method Read(capacity: nat) returns (bytes: seq<byte>)
      requires src.Valid() && start <= |src.log| && (start < |src.log| ==> src.WindowStart() <= start)
      modifies this
      ensures |bytes| <= capacity && old(start) <= start == old(start) + |bytes| <= |src.log|
      ensures bytes == src.log[old(start)..start]
      ensures bytes == [] <==> old(start) == |src.log| || capacity == 0
      ensures |bytes| == Min(capacity, Min(|src.log| - old(start), 4096 - old(start) % 4096))
    {
      bytes := ReadAt(src, start, capacity);
      start := start + |bytes|;
    }

    /** Repeated reads into a nonempty buffer deliver exactly the rest of the log. */
    method ReadToEnd(capacity: nat) returns (all: seq<byte>)
      requires src.Valid() && start <= |src.log| && (start < |src.log| ==> src.WindowStart() <= start)
      requires capacity > 0
      modifies this
      ensures all == src.log[old(start)..] && start == |src.log|
    {
      all := [];
      var bytes := Read(capacity);
      while bytes != []
        invariant src.Valid() && old(start) <= start <= |src.log|
        invariant start < |src.log| ==> src.WindowStart() <= start
        invariant all + bytes == src.log[old(start)..start]
        invariant bytes == [] ==> start == |src.log|
        decreases |src.log| - start, |bytes|
      {
        all := all + bytes;
        ghost var middle := start;
        bytes := Read(capacity);
        SlicesJoin([], src.log, old(start), middle, start);
      }
      assert all + bytes == all && src.log[old(start)..|src.log|] == src.log[old(start)..];
    }
  }
}
