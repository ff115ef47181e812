/** The chunked sliding window of replay data, as a refinement of an append-only log. */
module BufDeques {
  import opened Bytes

  /** The bytes from `start` to the next chunk boundary or the end of the log. */
  function ChunkAt(log: seq<byte>, start: nat): (chunk: seq<byte>)
    requires start < |log|
    ensures 0 < |chunk| <= CHUNK_SIZE && start + |chunk| <= |log|
  {
    log[start..Min(ChunkFloor(start) + CHUNK_SIZE, |log|)]
  }

  /** Chunks needed for the part of the log that lies past the discard mark. */
  function ChunksFor(windowStart: nat, windowEnd: nat): nat {
    if windowEnd <= windowStart then 0 else (windowEnd - windowStart + CHUNK_SIZE - 1) / 4096
  }

  lemma PiecesJoin(log: seq<byte>, buf: seq<byte>, skipped: nat, written: nat)
    requires skipped <= |buf| && written <= |buf[skipped..]|
    ensures log + buf[..skipped] + buf[skipped..][..written] == log + buf[..skipped + written]
  {
  }

  /** Where the end of the log lies within the last of `n` chunks. */
  lemma EndOffset(discarded: nat, windowEnd: nat, n: nat)
    requires discarded * 4096 <= windowEnd && n == ChunksFor(discarded * 4096, windowEnd)
    ensures windowEnd == discarded * 4096 + n * 4096 ==> windowEnd % 4096 == 0
    ensures windowEnd != discarded * 4096 + n * 4096 ==>
              n > 0 && windowEnd == discarded * 4096 + (n - 1) * 4096 + windowEnd % 4096
  {
  }

  /** The chunk a position lies in, counted from the discard mark. */
  lemma ChunkOf(discarded: nat, at: nat)
    ensures ChunkFloor(discarded * 4096 + at) == discarded * 4096 + at / 4096 * 4096
  {
  }

  lemma BoundaryIsMultiple(discarded: nat, n: nat)
    ensures (discarded * 4096 + n * 4096) % 4096 == 0
  {
    assert discarded * 4096 + n * 4096 == (discarded + n) * 4096;
  }

  class BufDeque {
    var chunks: seq<array<byte>>
    var discardedChunks: nat
    var windowEnd: nat

    /** All bytes ever written, discarded or not. */
    ghost var log: seq<byte>
    /** The chunks this deque owns. */
    ghost var buffers: set<array<byte>>

    ghost predicate Valid()
      reads this, buffers
    {
      && windowEnd == |log|
      && WindowStart() <= USIZE_MAX
      && |chunks| == ChunksFor(WindowStart(), windowEnd)
      && (forall k :: 0 <= k < |chunks| ==> chunks[k] in buffers && chunks[k].Length == CHUNK_SIZE)
      && (forall j, k :: 0 <= j < k < |chunks| ==> chunks[j] != chunks[k])
      && (forall k, i ::
            (0 <= k < |chunks| && 0 <= i < CHUNK_SIZE && WindowStart() + k * 4096 + i < windowEnd) ==>
            chunks[k][i] == log[WindowStart() + k * 4096 + i])
    }

    constructor ()
      ensures Valid() && buffers == {}
      ensures log == [] && WindowStart() == 0
    {
      chunks, discardedChunks, windowEnd := [], 0, 0;
      log, buffers := [], {};
    }

    function WindowStart(): nat
      reads this
    {
      discardedChunks * 4096
    }

    function Len(): nat
      reads this
    {
      windowEnd
    }

    lemma LenIsLogLength()
      requires Valid()
      ensures Len() == |log|
    {
    }

    method WindowSize() returns (n: nat)
      requires WindowStart() <= windowEnd
      ensures n == windowEnd - WindowStart()
    {
      n := windowEnd - WindowStart();
    }

    method NoSpaceInLastChunk() returns (b: bool)
      requires Valid() && WindowStart() <= windowEnd
      ensures b <==> windowEnd == WindowStart() + |chunks| * 4096
    {
      var size := WindowSize();
      b := size == |chunks| * 4096;
    }

    /** Moves the discard mark to the last chunk boundary at or before `until`, never backwards. */
    method Discard(until: nat)
      requires Valid() && until <= USIZE_MAX
      modifies this
      ensures Valid() && buffers == old(buffers)
      ensures log == old(log) && WindowStart() == Max(old(WindowStart()), ChunkFloor(until))
    {
      var discardableChunks := until / 4096;
      while discardedChunks < discardableChunks && chunks != []
        invariant Valid() && buffers == old(buffers) && log == old(log)
        invariant old(discardedChunks) <= discardedChunks <= Max(old(discardedChunks), discardableChunks)
        decreases |chunks|
      {
        chunks := chunks[1..];
        discardedChunks := discardedChunks + 1;
      }
      discardedChunks := if discardableChunks <= discardedChunks then discardedChunks else discardableChunks;
    }

    /** Valid but for a last chunk that may still be empty. */
    ghost predicate HasLastChunk()
      reads this, buffers
    {
      && windowEnd == |log| && WindowStart() <= USIZE_MAX && chunks != []
      && WindowStart() + (|chunks| - 1) * 4096 <= windowEnd < WindowStart() + |chunks| * 4096
      && (forall k :: 0 <= k < |chunks| ==> chunks[k] in buffers && chunks[k].Length == CHUNK_SIZE)
      && (forall j, k :: 0 <= j < k < |chunks| ==> chunks[j] != chunks[k])
      && (forall k, i ::
            (0 <= k < |chunks| && 0 <= i < CHUNK_SIZE && WindowStart() + k * 4096 + i < windowEnd) ==>
            chunks[k][i] == log[WindowStart() + k * 4096 + i])
    }

    /** The chunk the next byte goes to, added at the end if the last one is full. */
    method GetLastChunk() returns (chunk: array<byte>)
      requires Valid() && WindowStart() <= windowEnd
      modifies this
      ensures HasLastChunk() && chunk == chunks[|chunks| - 1]
      ensures windowEnd == WindowStart() + (|chunks| - 1) * 4096 + windowEnd % 4096
      ensures log == old(log) && windowEnd == old(windowEnd) && WindowStart() == old(WindowStart())
      ensures old(buffers) <= buffers && fresh(buffers - old(buffers))
      ensures if old(windowEnd == WindowStart() + |chunks| * 4096)
              then fresh(chunk) && chunks == old(chunks) + [chunk]
              else chunks == old(chunks)
    {
      EndOffset(discardedChunks, windowEnd, |chunks|);
      var full := NoSpaceInLastChunk();
      if full {
        var newChunk := new byte[CHUNK_SIZE](_ => 0);
        chunks := chunks + [newChunk];
        buffers := buffers + {newChunk};
      }
      chunk := chunks[|chunks| - 1];
    }

    /** Copies as much of `rest` behind the end of the log as the last chunk has room for. */
    method FillLastChunk(chunk: array<byte>, offset: nat, rest: seq<byte>) returns (written: nat)
      requires HasLastChunk() && chunk == chunks[|chunks| - 1] && rest != []
      requires windowEnd == WindowStart() + (|chunks| - 1) * 4096 + offset
      modifies this, chunk
      ensures Valid() && buffers == old(buffers) && WindowStart() == old(WindowStart())
      ensures 0 < written == Min(CHUNK_SIZE - offset, |rest|) && log == old(log) + rest[..written]
      ensures written < |rest| ==> |log| % 4096 == 0
    {
      BoundaryIsMultiple(discardedChunks, |chunks|);
      written := Min(CHUNK_SIZE - offset, |rest|);
      forall i | 0 <= i < written {
        chunk[offset + i] := rest[i];
      }
      windowEnd := windowEnd + written;
      log := log + rest[..written];
    }

    /** Bytes that lie before the discard mark are counted, but not kept. */
    method SkipDiscarded(buf: seq<byte>) returns (skipped: nat)
      requires Valid()
      modifies this
      ensures Valid() && buffers == old(buffers) && WindowStart() == old(WindowStart())
      ensures skipped == Min(|buf|, if old(windowEnd) < WindowStart() then WindowStart() - old(windowEnd) else 0)
      ensures log == old(log) + buf[..skipped]
      ensures skipped < |buf| ==> WindowStart() <= windowEnd
    {
      skipped := 0;
      if windowEnd < WindowStart() {
        skipped := Min(WindowStart() - windowEnd, |buf|);
        windowEnd := windowEnd + skipped;
        log := log + buf[..skipped];
      }
    }

    lemma LastChunkIsOwned()
      requires HasLastChunk()
      ensures chunks != [] && chunks[|chunks| - 1] in buffers
    {
    }

    /**
     * Takes some bytes off the front of `buf`: all of them, or as many as reach the next chunk
     * boundary. Bytes before the discard mark are counted but not kept.
     */
    method AppendSome(buf: seq<byte>) returns (taken: nat)
      requires Valid()
      modifies this, buffers
      ensures Valid() && fresh(buffers - old(buffers)) && old(buffers) <= buffers
      ensures taken <= |buf| && log == old(log) + buf[..taken]
      ensures WindowStart() == old(WindowStart())
      ensures taken < |buf| ==> taken > 0 && |log| % 4096 == 0
      ensures var skipped := if old(|log|) < WindowStart() then Min(|buf|, WindowStart() - old(|log|)) else 0;
              taken == Min(|buf|, skipped + 4096 - (old(|log|) + skipped) % 4096)
    {
      hide Valid;
      hide HasLastChunk;
      var written := 0;
      LenIsLogLength();
      var skipped := SkipDiscarded(buf);
      LenIsLogLength();
      var rest := buf[skipped..];
      if rest != [] {
        var offset := windowEnd % 4096;
        var chunk := GetLastChunk();
        LastChunkIsOwned();
        written := FillLastChunk(chunk, offset, rest);
        PiecesJoin(old(log), buf, skipped, written);
      }
      taken := skipped + written;
    }

    /** Writes all of `buf`; no call of `AppendSome` comes back empty-handed. */
    method WriteAll(buf: seq<byte>)
      requires Valid()
      modifies this, buffers
      ensures Valid() && fresh(buffers - old(buffers)) && old(buffers) <= buffers
      ensures log == old(log) + buf && WindowStart() == old(WindowStart())
    {
      var rest := buf;
      while rest != []
        invariant Valid() && fresh(buffers - old(buffers)) && old(buffers) <= buffers
        invariant WindowStart() == old(WindowStart())
        invariant old(log) + buf == log + rest
        decreases |rest|
      {
        var taken := AppendSome(rest);
        assert rest == rest[..taken] + rest[taken..];
        rest := rest[taken..];
      }
    }

    /** Bytes before the discard mark must not be asked for: the assertion of the original. */
    method GetChunk(start: nat) returns (chunk: seq<byte>)
      requires Valid()
      requires WindowStart() <= start < windowEnd
      ensures chunk == ChunkAt(log, start)
    {
      ChunkOf(discardedChunks, start - WindowStart());
      var at := start - WindowStart();
      var size := WindowSize();
      var chunkIdx, chunkStart := at / 4096, at % 4096;
      var chunkEnd := Min(CHUNK_SIZE, size - chunkIdx * 4096);
      chunk := chunks[chunkIdx][chunkStart..chunkEnd];
    }
  }
}
