/** A replay as one connection sends it. */
module WriterReplays {
  import opened Bytes
  import opened BufDeques

  class WriterReplay {
    var header: Option<seq<byte>>
    const data: BufDeque
    var delayedDataLen: nat
    var finished: bool

    ghost predicate Valid()
      reads data, data.buffers
    {
      data.Valid()
    }

    constructor ()
      ensures Valid() && fresh(data) && data.buffers == {}
      ensures data.log == [] && data.WindowStart() == 0
      ensures header == None && delayedDataLen == 0 && !finished
    {
      data := new BufDeque();
      header, delayedDataLen, finished := None, 0, false;
    }

    function DataLen(): nat
      reads this, data
    {
      data.Len()
    }

    method AddHeader(h: seq<byte>)
      modifies this`header
      ensures header == Some(h)
    {
      header := Some(h);
    }

    /** Hands the header over; it can be taken only once. */
    method TakeHeader() returns (h: seq<byte>)
      requires header.Some?
      modifies this`header
      ensures old(header) == Some(h) && header == None
    {
      h := header.value;
      header := None;
    }

    method AddData(buf: seq<byte>)
      requires Valid()
      modifies data, data.buffers
      ensures Valid() && fresh(data.buffers - old(data.buffers)) && old(data.buffers) <= data.buffers
      ensures data.log == old(data.log) + buf && data.WindowStart() == old(data.WindowStart())
    {
      data.WriteAll(buf);
    }

    /** Delayed positions never move back: the assertion of the original. */
    method SetDelayedDataLen(n: nat)
      requires delayedDataLen <= n
      modifies this`delayedDataLen
      ensures delayedDataLen == n
    {
      delayedDataLen := n;
    }

    method Discard(until: nat)
      requires Valid() && until <= USIZE_MAX
      modifies data
      ensures Valid() && data.buffers == old(data.buffers) && data.log == old(data.log)
      ensures data.WindowStart() == Max(old(data.WindowStart()), ChunkFloor(until))
    {
      data.Discard(until);
    }

    method DiscardAll()
      requires Valid()
      modifies data
      ensures Valid() && data.buffers == old(data.buffers) && data.log == old(data.log)
      ensures data.WindowStart() == Max(old(data.WindowStart()), ChunkFloor(USIZE_MAX))
    {
      data.Discard(USIZE_MAX);
    }

    method Finish()
      modifies this`finished
      ensures finished
    {
      finished := true;
    }
  }
}
