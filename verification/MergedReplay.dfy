/** The canonical stream C and the readers that follow it. */
module MergedReplays {
  import opened Bytes
  import opened BufDeques
  import opened BufTraits
  import opened Events
  import opened OutputMachine
  import opened WriterReplays

  class MergedReplay {
    const data: BufDeque
    var header: Option<seq<byte>>
    var delayedDataLen: nat
    var finished: bool
    const readEvent: Event

    ghost predicate Valid()
      reads this, data, data.buffers
    {
      && data.Valid() && data.WindowStart() == 0 && delayedDataLen <= |data.log|
    }

    /** The stream as readers see it. */
    ghost function View(): Stream
      reads this, data, readEvent
    {
      Stream(header, data.log, delayedDataLen, finished, readEvent.wakers, readEvent.woken)
    }

    constructor ()
      ensures Valid() && fresh(data) && data.buffers == {} && fresh(readEvent)
      ensures View() == Start.stream
    {
      data := new BufDeque();
      header, delayedDataLen, finished := None, 0, false;
      readEvent := new Event();
    }

    function DataLen(): nat
      reads this, data
    {
      data.Len()
    }

    function HeaderLen(): nat
      reads this
    {
      if header.Some? then |header.value| else 0
    }

    /** Length of what readers may see. */
    function Len(): nat
      reads this
    {
      delayedDataLen + HeaderLen()
    }

    method AddHeader(h: seq<byte>)
      requires Valid() && !finished && data.log == []
      modifies this`header, readEvent
      ensures Valid() && View() == WithHeader(old(View()), h)
    {
      header := Some(h);
      readEvent.Notify();
    }

    /** Copies the writer's bytes from the end of C up to `until`, chunk by chunk. */
    method AddData(writer: WriterReplay, until: nat)
      requires Valid() && writer.Valid() && !finished
      requires writer.data != data && writer.data.buffers !! data.buffers
      requires |data.log| <= until <= |writer.data.log|
      requires |data.log| < until ==> writer.data.WindowStart() <= |data.log|
      modifies data, data.buffers
      ensures Valid() && fresh(data.buffers - old(data.buffers)) && old(data.buffers) <= data.buffers
      ensures View() == WithData(old(View()), writer.data.log[old(|data.log|)..until])
    {
      hide BufDeque.Valid;
      data.LenIsLogLength();
      ghost var source := writer.data.log;
      var from := data.Len();
      var chunks := new IterChunks(writer.data, from, until);
      var chunk := chunks.Next();
      while chunk.Some?
        invariant fresh(chunks)
        invariant chunks.b == writer.data && chunks.end == until
        invariant Valid() && writer.Valid() && writer.data.buffers !! data.buffers
        invariant fresh(data.buffers - old(data.buffers)) && old(data.buffers) <= data.buffers
        invariant unchanged(this) && unchanged(writer.data) && unchanged(writer.data.buffers)
        invariant writer.data.log == source
        invariant from <= chunks.start <= until && chunks.Valid()
        invariant data.log + (if chunk.Some? then chunk.value else []) ==
                  old(data.log) + source[from..chunks.start]
        invariant chunk.None? ==> chunks.start == until
        decreases until - chunks.start, if chunk.Some? then 1 else 0
      {
        data.WriteAll(chunk.value);
        ghost var middle := chunks.start;
        chunk := chunks.Next();
        SlicesJoin(old(data.log), source, from, middle, chunks.start);
      }
    }

    method AdvanceDelayedData(len: nat)
      requires Valid() && !finished && len <= |data.log|
      modifies this`delayedDataLen, readEvent
      ensures Valid() && View() == WithDelayed(old(View()), len)
    {
      delayedDataLen := len;
      readEvent.Notify();
    }

    method Finish()
      requires Valid()
      modifies this`finished, readEvent
      ensures Valid() && View() == Ended(old(View()))
    {
      finished := true;
      readEvent.Notify();
    }

    /** A contiguous piece of header ++ visible data. */
    method GetChunk(start: nat) returns (chunk: seq<byte>)
      requires Valid() && start < Len()
      ensures IsPiece(View(), start, chunk)
    {
      hide IsPiece;
      hide ChunkAt;
      if start < HeaderLen() {
        chunk := header.value[start..];
        HeaderIsPiece(View(), start);
      } else {
        var at := start - HeaderLen();
        var delayLimit := delayedDataLen - at;
        var whole := data.GetChunk(at);
        var readMax := Min(|whole|, delayLimit);
        chunk := whole[..readMax];
        DataIsPiece(View(), at);
      }
    }
  }

  /** A nonempty piece of what readers may see, up to where one read into a large buffer stops. */
  ghost predicate IsPiece(s: Stream, start: nat, chunk: seq<byte>)
    requires s.delayed <= |s.data| && start < |Visible(s)|
  {
    && 0 < |chunk| && start + |chunk| <= |Visible(s)| && chunk == Visible(s)[start..start + |chunk|]
    && forall capacity: nat :: start + Min(|chunk|, capacity) == ReadEnd(s, start, capacity)
  }

  /** Copying from a piece is what one poll delivers. */
  lemma PieceIsOutcome(s: Stream, position: nat, chunk: seq<byte>, capacity: nat)
    requires s.delayed <= |s.data| && position < |Visible(s)| && IsPiece(s, position, chunk)
    ensures PollOutcome(s, position, capacity) == Ready(chunk[..Min(|chunk|, capacity)])
  {
    var n := Min(|chunk|, capacity);
    assert position + n == ReadEnd(s, position, capacity);
    assert Visible(s)[position..position + |chunk|][..n] == Visible(s)[position..position + n];
  }

  lemma HeaderIsPiece(s: Stream, start: nat)
    requires s.delayed <= |s.data| && start < |HeaderBytes(s)|
    ensures IsPiece(s, start, HeaderBytes(s)[start..])
  {
    var h := HeaderBytes(s);
    assert h[start..] == Visible(s)[start..|h|];
  }

  lemma DataIsPiece(s: Stream, at: nat)
    requires at < s.delayed <= |s.data|
    ensures var chunk := ChunkAt(s.data, at);
            IsPiece(s, |HeaderBytes(s)| + at, chunk[..Min(|chunk|, s.delayed - at)])
  {
    var chunk := ChunkAt(s.data, at);
    var n := Min(|chunk|, s.delayed - at);
    assert chunk[..n] == s.data[at..at + n];
    DataIsVisible(s, at, n);
  }

  /** A piece of the visible data lies behind the header. */
  lemma DataIsVisible(s: Stream, at: nat, n: nat)
    requires s.delayed <= |s.data| && at + n <= s.delayed
    ensures var h := |HeaderBytes(s)|; Visible(s)[h + at..h + at + n] == s.data[at..at + n]
  {
  }

  /** One reader of C. */
  class MReplayReader {
    const replay: MergedReplay
    var position: nat

    constructor (replay: MergedReplay)
      ensures this.replay == replay && position == 0
    {
      this.replay, position := replay, 0;
    }

    /** One poll: parks the task when there is nothing to read yet, otherwise copies from one chunk. */
    method PollRead(task: nat, capacity: nat) returns (outcome: Outcome)
      requires replay.Valid()
      modifies this, replay.readEvent
      ensures replay.Valid()
      ensures outcome == PollOutcome(old(replay.View()), old(position), capacity)
      ensures replay.View() == PollStream(old(replay.View()), old(position), task)
      ensures position == old(position) + if outcome.Ready? then |outcome.bytes| else 0
    {
      if replay.Len() <= position {
        if replay.finished {
          outcome := Ready([]);
        } else {
          replay.readEvent.Wait(task);
          outcome := Pending;
        }
      } else {
        hide IsPiece;
        hide PollOutcome;
        var chunk := replay.GetChunk(position);
        PieceIsOutcome(replay.View(), position, chunk, capacity);
        var copyable := Min(|chunk|, capacity);
        outcome := Ready(chunk[..copyable]);
        position := position + copyable;
      }
    }
  }
}
