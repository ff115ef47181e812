/** The streaming header parser, proved to consume and keep exactly what `HeaderFormat` says. */
module ReplayHeaders {
  import opened Bytes
  import opened HeaderFormat

  /** A connection is the bytes it has still to deliver; nothing follows the last one. */
  class Connection {
    var rest: seq<byte>

    constructor (bytes: seq<byte>)
      ensures rest == bytes
    {
      rest := bytes;
    }
  }

  /** The parser with its size limit and the bytes it has collected. */
  class HeaderReader {
    const c: Connection
    var left: nat
    var data: seq<byte>

    /** What the connection had to deliver when parsing began. */
    ghost const input: seq<byte>

    ghost function Limited(): seq<byte> {
      input[..Min(|input|, MAX_SIZE)]
    }

    /** The collected bytes are those taken off the connection, and no others. */
    ghost predicate Reading()
      reads this, c
    {
      && left + |data| == MAX_SIZE
      && input == data + c.rest
    }

    constructor (c: Connection)
      ensures this.c == c && input == c.rest && data == [] && Reading()
    {
      this.c, left, data, input := c, MAX_SIZE, [], c.rest;
    }

    /** Bytes that may still be taken. */
    function Available(): nat
      reads this, c
    {
      Min(|c.rest|, left)
    }

    /** Takes as many bytes as allowed, but not more than `n`. */
    method Take(n: nat) returns (bytes: seq<byte>)
      requires Reading()
      modifies this`left, c
      ensures bytes == old(c.rest)[..Min(n, old(Available()))]
      ensures c.rest == old(c.rest)[|bytes|..] && left == old(left) - |bytes|
    {
      bytes := c.rest[..Min(n, Available())];
      c.rest := c.rest[|bytes|..];
      left := left - |bytes|;
    }

    method Skip(n: nat) returns (ok: bool)
      requires Reading()
      modifies this`left, this`data, c
      ensures Reading() && ok == HeaderFormat.Skip(Limited(), old(|data|), n).Some?
      ensures ok ==> Some(|data|) == HeaderFormat.Skip(Limited(), old(|data|), n)
    {
      var bytes := Take(n);
      data := data + bytes;
      ok := |bytes| == n;
    }

    method ReadUntilExact() returns (ok: bool)
      requires Reading()
      modifies this`left, this`data, c
      ensures Reading() && ok == Until(Limited(), old(|data|)).Some?
      ensures ok ==> Some(|data|) == Until(Limited(), old(|data|))
    {
      var last := 1;
      while last != 0 && Available() > 0
        invariant Reading() && old(|data|) <= |data|
        invariant last != 0 ==> Until(Limited(), old(|data|)) == Until(Limited(), |data|)
        invariant last == 0 ==> Until(Limited(), old(|data|)) == Some(|data|)
        decreases |c.rest|
      {
        assert c.rest[0] == Limited()[|data|];
        var bytes := Take(1);
        data := data + bytes;
        last := bytes[0];
      }
      ok := last == 0;
    }

    /** `read_value!(read_u8)` */
    method ReadU8() returns (ok: bool, i: byte)
      requires Reading()
      modifies this`left, this`data, c
      ensures Reading() && ok == HeaderFormat.Skip(Limited(), old(|data|), 1).Some?
      ensures ok ==> |data| == old(|data|) + 1 && i == Limited()[old(|data|)]
    {
      var bytes := Take(1);
      i := 0;
      ok := bytes != [];
      if ok {
        i := bytes[0];
        data := data + [i];
      }
    }

    /** `read_value!(read_u32_le)`: the number is put back into the bytes it was read from. */
    method ReadU32Le() returns (ok: bool, i: nat)
      requires Reading()
      modifies this`left, this`data, c
      ensures ok ==> Reading()
      ensures ok == HeaderFormat.Skip(Limited(), old(|data|), 4).Some?
      ensures ok ==> |data| == old(|data|) + 4 && i == FromLe(Limited()[old(|data|)..old(|data|) + 4])
      ensures ok ==> var (s, at) := (Limited(), old(|data|));
                     i == s[at] as nat + 0x100 * s[at + 1] as nat + 0x1_0000 * s[at + 2] as nat +
                          0x100_0000 * s[at + 3] as nat
    {
      var bytes := Take(4);
      i := 0;
      ok := |bytes| == 4;
      if ok {
        i := FromLe(bytes);
        data := data + ToLe(i);
        LeBytesReturn(bytes);
        assert bytes == Limited()[old(|data|)..old(|data|) + 4];
      }
    }

    method ReadSized() returns (ok: bool)
      requires Reading()
      modifies this`left, this`data, c
      ensures ok ==> Reading()
      ensures ok == Sized(Limited(), old(|data|)).Some?
      ensures ok ==> Some(|data|) == Sized(Limited(), old(|data|))
    {
      var size;
      ok, size := ReadU32Le();
      if ok {
        ok := Skip(size);
      }
    }

    method ReadNames() returns (ok: bool)
      requires Reading()
      modifies this`left, this`data, c
      ensures ok ==> Reading()
      ensures ok == Names(Limited(), old(|data|)).Some?
      ensures ok ==> Some(|data|) == Names(Limited(), old(|data|))
    {
      ok := ReadUntilExact();
      if !ok {
        return;
      }
      ok := Skip(3);
      if !ok {
        return;
      }
      ok := ReadUntilExact();
      if !ok {
        return;
      }
      ok := Skip(4);
    }

    method ReadPlayers(n: nat) returns (ok: bool)
      requires Reading()
      modifies this`left, this`data, c
      ensures ok ==> Reading()
      ensures |Limited()| >= old(|data|)
      ensures ok == Players(Limited(), old(|data|), n).Some?
      ensures ok ==> Some(|data|) == Players(Limited(), old(|data|), n)
    {
      for i := 0 to n
        invariant Reading() && |data| <= |Limited()|
        invariant Players(Limited(), old(|data|), n) == Players(Limited(), |data|, n - i)
      {
        ok := ReadUntilExact();
        if !ok {
          return;
        }
        var timeoutCount;
        ok, timeoutCount := ReadU32Le();
        if !ok {
          return;
        }
      }
      ok := true;
    }

    method ReadArmy() returns (ok: bool)
      requires Reading()
      modifies this`left, this`data, c
      ensures ok ==> Reading()
      ensures ok == Army(Limited(), old(|data|)).Some?
      ensures ok ==> Some(|data|) == Army(Limited(), old(|data|))
    {
      ok := ReadSized();
      if !ok {
        return;
      }
      var playerId;
      ok, playerId := ReadU8();
      if !ok {
        return;
      }
      if playerId != 255 {
        ok := Skip(1);
      }
    }

    method ReadArmies(n: nat) returns (ok: bool)
      requires Reading()
      modifies this`left, this`data, c
      ensures ok ==> Reading()
      ensures |Limited()| >= old(|data|)
      ensures ok == Armies(Limited(), old(|data|), n).Some?
      ensures ok ==> Some(|data|) == Armies(Limited(), old(|data|), n)
    {
      for i := 0 to n
        invariant Reading() && |data| <= |Limited()|
        invariant Armies(Limited(), old(|data|), n) == Armies(Limited(), |data|, n - i)
      {
        ok := ReadArmy();
        if !ok {
          return;
        }
      }
      ok := true;
    }

    method ReadCounts() returns (ok: bool)
      requires Reading()
      modifies this`left, this`data, c
      ensures ok ==> Reading()
      ensures ok == Counts(Limited(), old(|data|)).Some?
      ensures ok ==> Some(|data|) == Counts(Limited(), old(|data|))
    {
      hide Players;
      hide Armies;
      hide FromLe;
      var playerCount;
      ok, playerCount := ReadU8();
      if !ok {
        return;
      }
      ok := ReadPlayers(playerCount);
      if !ok {
        return;
      }
      var cheatsEnabled;
      ok, cheatsEnabled := ReadU8();
      if !ok {
        return;
      }
      var armyCount;
      ok, armyCount := ReadU8();
      if !ok {
        return;
      }
      ok := ReadArmies(armyCount);
      if !ok {
        return;
      }
      var randomSeed;
      ok, randomSeed := ReadU32Le();
    }

    method DoFromConnection() returns (ok: bool)
      requires Reading() && data == []
      modifies this`left, this`data, c
      ensures ok ==> Reading()
      ensures ok == Header(Limited()).Some?
      ensures ok ==> Some(|data|) == Header(Limited())
    {
      ok := ReadNames();
      if !ok {
        return;
      }
      ok := ReadSized();
      if !ok {
        return;
      }
      ok := ReadSized();
      if !ok {
        return;
      }
      ok := ReadCounts();
    }
  }

  /** Takes a header off the connection; what follows it stays there to be read as data. */
  method ReadFromConnection(c: Connection) returns (header: Option<seq<byte>>)
    modifies c
    ensures header == FromConnection(old(c.rest))
    ensures header.Some? ==> old(c.rest) == header.value + c.rest
  {
    var reader := new HeaderReader(c);
    var ok := reader.DoFromConnection();
    header := if ok then Some(reader.data) else None;
  }
}
