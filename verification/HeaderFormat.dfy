/** Replay headers: how far a parse gets, and what the accepted byte strings look like. */
module HeaderFormat {
  import opened Bytes

  const MAX_SIZE: nat := 1024 * 1024

  const U32_END: nat := 0x1_0000_0000

  // ---- Little-endian numbers ----

  function FromLe(b: seq<byte>): (n: nat)
    requires |b| == 4
    ensures n < U32_END
  {
    b[0] as nat + 256 * (b[1] as nat + 256 * (b[2] as nat + 256 * (b[3] as nat)))
  }

  function ToLe(n: nat): (b: seq<byte>)
    requires n < U32_END
    ensures |b| == 4
  {
    [n % 256, n / 256 % 256, n / 256 / 256 % 256, n / 256 / 256 / 256]
  }

  lemma LowByte(low: byte, high: nat)
    ensures (low as nat + 256 * high) % 256 == low && (low as nat + 256 * high) / 256 == high
  {
  }

  /** Writing a number back gives the bytes it was read from. */
  lemma LeBytesReturn(b: seq<byte>)
    requires |b| == 4
    ensures ToLe(FromLe(b)) == b
  {
    LowByte(b[2], b[3]);
    LowByte(b[1], b[2] as nat + 256 * (b[3] as nat));
    LowByte(b[0], b[1] as nat + 256 * (b[2] as nat + 256 * (b[3] as nat)));
  }

  lemma LeNumberReturns(n: nat)
    requires n < U32_END
    ensures FromLe(ToLe(n)) == n
  {
  }

  /** What each of the four bytes weighs: the first one least. */
  lemma FirstByteWeighsLeast(a: byte, b: byte, c: byte, d: byte)
    ensures FromLe([a, 0, 0, 0]) == a && FromLe([0, b, 0, 0]) == 0x100 * b
    ensures FromLe([0, 0, c, 0]) == 0x1_0000 * c && FromLe([0, 0, 0, d]) == 0x100_0000 * d
    ensures FromLe([a, b, c, d]) == a + 0x100 * b + 0x1_0000 * c + 0x100_0000 * d
    ensures ToLe(a + 0x100 * b + 0x1_0000 * c + 0x100_0000 * d) == [a, b, c, d]
  {
    LeBytesReturn([a, b, c, d]);
  }

  // ---- How far each step of the parser gets in `s` when it starts at `at` ----

  function Until(s: seq<byte>, at: nat): (end: Option<nat>)
    ensures end.Some? ==> at < end.value <= |s|
    decreases |s| - at
  {
    if at >= |s| then None
    else if s[at] == 0 then Some(at + 1)
    else Until(s, at + 1)
  }

  function Skip(s: seq<byte>, at: nat, n: nat): (end: Option<nat>)
    ensures end.Some? ==> at <= end.value <= |s| && end.value == at + n
  {
    if at + n <= |s| then Some(at + n) else None
  }

  /** A four-byte size, and as many bytes. */
  function Sized(s: seq<byte>, at: nat): (end: Option<nat>)
    ensures end.Some? ==> at < end.value <= |s|
  {
    var a :- Skip(s, at, 4);
    Skip(s, a, FromLe(s[at..a]))
  }

  function Player(s: seq<byte>, at: nat): (end: Option<nat>)
    ensures end.Some? ==> at < end.value <= |s|
  {
    var a :- Until(s, at);
    Skip(s, a, 4)
  }

  function Players(s: seq<byte>, at: nat, n: nat): (end: Option<nat>)
    requires at <= |s|
    ensures end.Some? ==> at <= end.value <= |s|
    decreases n
  {
    if n == 0 then Some(at) else
      var a :- Player(s, at);
      Players(s, a, n - 1)
  }

  /** The byte after the player id is missing for id 255. */
  function Army(s: seq<byte>, at: nat): (end: Option<nat>)
    ensures end.Some? ==> at < end.value <= |s|
  {
    var a :- Sized(s, at);
    var b :- Skip(s, a, 1);
    if s[a] != 255 then Skip(s, b, 1) else Some(b)
  }

  function Armies(s: seq<byte>, at: nat, n: nat): (end: Option<nat>)
    requires at <= |s|
    ensures end.Some? ==> at <= end.value <= |s|
    decreases n
  {
    if n == 0 then Some(at) else
      var a :- Army(s, at);
      Armies(s, a, n - 1)
  }

  function Counts(s: seq<byte>, at: nat): (end: Option<nat>)
    ensures end.Some? ==> at < end.value <= |s|
  {
    var a :- Skip(s, at, 1);
    var b :- Players(s, a, s[at]);
    var c :- Skip(s, b, 1);
    var d :- Skip(s, c, 1);
    var e :- Armies(s, d, s[c]);
    Skip(s, e, 4)
  }

  function Names(s: seq<byte>, at: nat): (end: Option<nat>)
    ensures end.Some? ==> at < end.value <= |s|
  {
    var a :- Until(s, at);
    var b :- Skip(s, a, 3);
    var c :- Until(s, b);
    Skip(s, c, 4)
  }

  function Header(s: seq<byte>): (end: Option<nat>)
    ensures end.Some? ==> 0 < end.value <= |s|
  {
    var a :- Names(s, 0);
    var b :- Sized(s, a);
    var c :- Sized(s, b);
    Counts(s, c)
  }

  /** `ReplayHeader::from_connection` on the bytes a connection is going to send: the header taken. */
  function FromConnection(input: seq<byte>): (header: Option<seq<byte>>)
    ensures header.Some? ==> 0 < |header.value| <= MAX_SIZE && header.value <= input
  {
    var n :- Header(input[..Min(|input|, MAX_SIZE)]);
    Some(input[..n])
  }

  // ---- The format itself ----

  datatype PlayerEntry = PlayerEntry(name: seq<byte>, timeouts: nat)

  datatype ArmyEntry = ArmyEntry(data: seq<byte>, owner: byte, extra: seq<byte>)

  datatype Naming = Naming(version: seq<byte>, gap: seq<byte>, versionAndMap: seq<byte>, gap2: seq<byte>)

  datatype Listing = Listing(players: seq<PlayerEntry>, cheats: byte, armies: seq<ArmyEntry>, seed: nat)

  datatype Layout = Layout(naming: Naming, modData: seq<byte>, scenario: seq<byte>, listing: Listing)

  predicate IsText(b: seq<byte>) {
    forall i :: 0 <= i < |b| ==> b[i] != 0
  }

  predicate PlayerOk(p: PlayerEntry) {
    IsText(p.name) && p.timeouts < U32_END
  }

  predicate ArmyOk(a: ArmyEntry) {
    |a.data| < U32_END && |a.extra| == if a.owner == 255 then 0 else 1
  }

  predicate NamingOk(n: Naming) {
    IsText(n.version) && |n.gap| == 3 && IsText(n.versionAndMap) && |n.gap2| == 4
  }

  predicate ListingOk(l: Listing) {
    && |l.players| < 256 && (forall i :: 0 <= i < |l.players| ==> PlayerOk(l.players[i]))
    && |l.armies| < 256 && (forall i :: 0 <= i < |l.armies| ==> ArmyOk(l.armies[i]))
    && l.seed < U32_END
  }

  predicate LayoutOk(h: Layout) {
    NamingOk(h.naming) && |h.modData| < U32_END && |h.scenario| < U32_END && ListingOk(h.listing)
  }

  function EncodeText(b: seq<byte>): seq<byte> {
    b + [0]
  }

  function EncodeSized(b: seq<byte>): seq<byte>
    requires |b| < U32_END
  {
    ToLe(|b|) + b
  }

  function EncodePlayer(p: PlayerEntry): seq<byte>
    requires PlayerOk(p)
  {
    EncodeText(p.name) + ToLe(p.timeouts)
  }

  function EncodePlayers(ps: seq<PlayerEntry>): seq<byte>
    requires forall i :: 0 <= i < |ps| ==> PlayerOk(ps[i])
  {
    if ps == [] then [] else EncodePlayer(ps[0]) + EncodePlayers(ps[1..])
  }

  function EncodeArmy(a: ArmyEntry): seq<byte>
    requires ArmyOk(a)
  {
    EncodeSized(a.data) + ([a.owner] + a.extra)
  }

  function EncodeArmies(armies: seq<ArmyEntry>): seq<byte>
    requires forall i :: 0 <= i < |armies| ==> ArmyOk(armies[i])
  {
    if armies == [] then [] else EncodeArmy(armies[0]) + EncodeArmies(armies[1..])
  }

  function EncodeNaming(n: Naming): seq<byte> {
    EncodeText(n.version) + (n.gap + (EncodeText(n.versionAndMap) + n.gap2))
  }

  function EncodeListing(l: Listing): seq<byte>
    requires ListingOk(l)
  {
    [|l.players|] + (EncodePlayers(l.players) +
                     ([l.cheats] + ([|l.armies|] + (EncodeArmies(l.armies) + ToLe(l.seed)))))
  }

  function Encode(h: Layout): seq<byte>
    requires LayoutOk(h)
  {
    EncodeNaming(h.naming) + (EncodeSized(h.modData) + (EncodeSized(h.scenario) + EncodeListing(h.listing)))
  }

  /** What a header consists of: the conditions, with their numbers. */
  lemma LayoutMeans(h: Layout)
    ensures LayoutOk(h) <==>
            && 0 !in h.naming.version && |h.naming.gap| == 3 && 0 !in h.naming.versionAndMap && |h.naming.gap2| == 4
            && |h.modData| < 0x1_0000_0000 && |h.scenario| < 0x1_0000_0000
            && |h.listing.players| < 0x100 && |h.listing.armies| < 0x100 && h.listing.seed < 0x1_0000_0000
            && (forall p :: p in h.listing.players ==> 0 !in p.name && p.timeouts < 0x1_0000_0000)
            && (forall a :: a in h.listing.armies ==>
                  |a.data| < 0x1_0000_0000 && if a.owner == 0xFF then a.extra == [] else |a.extra| == 1)
  {
    hide PlayerOk;
    hide ArmyOk;
    forall p | p in h.listing.players
      ensures PlayerOk(p) <==> 0 !in p.name && p.timeouts < 0x1_0000_0000
    {
      PlayerMeans(p);
    }
    forall a | a in h.listing.armies
      ensures ArmyOk(a) <==> |a.data| < 0x1_0000_0000 && if a.owner == 0xFF then a.extra == [] else |a.extra| == 1
    {
      ArmyMeans(a);
    }
  }

  lemma PlayerMeans(p: PlayerEntry)
    ensures PlayerOk(p) <==> 0 !in p.name && p.timeouts < 0x1_0000_0000
  {
  }

  lemma ArmyMeans(a: ArmyEntry)
    ensures ArmyOk(a) <==> |a.data| < 0x1_0000_0000 && if a.owner == 0xFF then a.extra == [] else |a.extra| == 1
  {
  }

  /** The four bytes of a number, the least significant first. */
  function Quad(n: nat): seq<byte>
    requires n < 0x1_0000_0000
  {
    [n % 0x100, n / 0x100 % 0x100, n / 0x1_0000 % 0x100, n / 0x100_0000]
  }

  lemma QuadIsLe(n: nat)
    requires n < 0x1_0000_0000
    ensures ToLe(n) == Quad(n)
  {
  }

  /** A header byte by byte, but for the entries of its two lists. */
  lemma HeaderSpelledOut(h: Layout)
    requires LayoutOk(h)
    ensures var (n, l) := (h.naming, h.listing);
            Encode(h) == n.version + [0] + n.gap + n.versionAndMap + [0] + n.gap2 +
                         Quad(|h.modData|) + h.modData + Quad(|h.scenario|) + h.scenario +
                         [|l.players|] + EncodePlayers(l.players) + [l.cheats] +
                         [|l.armies|] + EncodeArmies(l.armies) + Quad(l.seed)
  {
    hide ToLe;
    hide Quad;
    hide EncodePlayers;
    hide EncodeArmies;
    QuadIsLe(|h.modData|);
    QuadIsLe(|h.scenario|);
    QuadIsLe(h.listing.seed);
  }

  /** The entries of both lists follow one another. */
  lemma {:induction false} PlayersSpelledOut(ps: seq<PlayerEntry>, p: PlayerEntry)
    requires (forall i :: 0 <= i < |ps| ==> PlayerOk(ps[i])) && PlayerOk(p)
    ensures EncodePlayers([]) == []
    ensures EncodePlayers(ps + [p]) == EncodePlayers(ps) + p.name + [0] + Quad(p.timeouts)
    decreases |ps|
  {
    hide ToLe;
    hide Quad;
    QuadIsLe(p.timeouts);
    var more := ps + [p];
    if ps == [] {
      assert more[1..] == [];
    } else {
      assert more[1..] == ps[1..] + [p];
      PlayersSpelledOut(ps[1..], p);
    }
  }

  lemma {:induction false} ArmiesSpelledOut(armies: seq<ArmyEntry>, a: ArmyEntry)
    requires (forall i :: 0 <= i < |armies| ==> ArmyOk(armies[i])) && ArmyOk(a)
    ensures EncodeArmies([]) == []
    ensures EncodeArmies(armies + [a]) == EncodeArmies(armies) + Quad(|a.data|) + a.data + [a.owner] + a.extra
    decreases |armies|
  {
    hide ToLe;
    hide Quad;
    QuadIsLe(|a.data|);
    var more := armies + [a];
    if armies == [] {
      assert more[1..] == [];
    } else {
      assert more[1..] == armies[1..] + [a];
      ArmiesSpelledOut(armies[1..], a);
    }
  }

  // ---- Everything encoded is parsed ----

  predicate At(s: seq<byte>, at: nat, b: seq<byte>) {
    at + |b| <= |s| && s[at..at + |b|] == b
  }

  lemma AtSplit(s: seq<byte>, at: nat, b: seq<byte>, c: seq<byte>)
    ensures At(s, at, b + c) <==> At(s, at, b) && At(s, at + |b|, c)
  {
    if At(s, at, b + c) {
      assert s[at..at + |b|] == (b + c)[..|b|] == b;
      assert s[at + |b|..at + |b| + |c|] == (b + c)[|b|..] == c;
    }
  }

  lemma PrefixIsAt(s: seq<byte>, b: seq<byte>)
    ensures At(s, 0, b) <==> b <= s
  {
  }

  lemma AtBounds(s: seq<byte>, at: nat, b: seq<byte>)
    requires At(s, at, b)
    ensures at + |b| <= |s| && (|b| == 1 ==> s[at] == b[0])
  {
    assert |b| == 1 ==> s[at..at + |b|][0] == b[0];
  }

  lemma {:induction false} TextIsParsed(s: seq<byte>, at: nat, b: seq<byte>)
    requires IsText(b) && At(s, at, EncodeText(b))
    ensures Until(s, at) == Some(at + |b| + 1)
    decreases |b|
  {
    assert s[at] == EncodeText(b)[0];
    if b != [] {
      assert EncodeText(b) == [b[0]] + EncodeText(b[1..]);
      AtSplit(s, at, [b[0]], EncodeText(b[1..]));
      TextIsParsed(s, at + 1, b[1..]);
    }
  }

  lemma SizedIsParsed(s: seq<byte>, at: nat, b: seq<byte>)
    requires |b| < U32_END && At(s, at, EncodeSized(b))
    ensures Sized(s, at) == Some(at + |EncodeSized(b)|)
  {
    AtSplit(s, at, ToLe(|b|), b);
    LeNumberReturns(|b|);
  }

  lemma PlayerIsParsed(s: seq<byte>, at: nat, p: PlayerEntry)
    requires PlayerOk(p) && At(s, at, EncodePlayer(p))
    ensures Player(s, at) == Some(at + |EncodePlayer(p)|)
  {
    AtSplit(s, at, EncodeText(p.name), ToLe(p.timeouts));
    TextIsParsed(s, at, p.name);
  }

  lemma {:induction false} PlayersAreParsed(s: seq<byte>, at: nat, ps: seq<PlayerEntry>)
    requires at <= |s| && (forall i :: 0 <= i < |ps| ==> PlayerOk(ps[i])) && At(s, at, EncodePlayers(ps))
    ensures Players(s, at, |ps|) == Some(at + |EncodePlayers(ps)|)
    decreases |ps|
  {
    hide At;
    hide Player;
    hide EncodePlayer;
    if ps != [] {
      AtSplit(s, at, EncodePlayer(ps[0]), EncodePlayers(ps[1..]));
      PlayerIsParsed(s, at, ps[0]);
      AtBounds(s, at, EncodePlayer(ps[0]));
      PlayersAreParsed(s, at + |EncodePlayer(ps[0])|, ps[1..]);
    }
  }

  lemma ArmyIsParsed(s: seq<byte>, at: nat, a: ArmyEntry)
    requires ArmyOk(a) && At(s, at, EncodeArmy(a))
    ensures Army(s, at) == Some(at + |EncodeArmy(a)|)
  {
    AtSplit(s, at, EncodeSized(a.data), [a.owner] + a.extra);
    SizedIsParsed(s, at, a.data);
    AtSplit(s, at + |EncodeSized(a.data)|, [a.owner], a.extra);
  }

  lemma {:induction false} ArmiesAreParsed(s: seq<byte>, at: nat, armies: seq<ArmyEntry>)
    requires at <= |s| && (forall i :: 0 <= i < |armies| ==> ArmyOk(armies[i])) && At(s, at, EncodeArmies(armies))
    ensures Armies(s, at, |armies|) == Some(at + |EncodeArmies(armies)|)
    decreases |armies|
  {
    hide At;
    hide Army;
    hide EncodeArmy;
    if armies != [] {
      AtSplit(s, at, EncodeArmy(armies[0]), EncodeArmies(armies[1..]));
      ArmyIsParsed(s, at, armies[0]);
      AtBounds(s, at, EncodeArmy(armies[0]));
      ArmiesAreParsed(s, at + |EncodeArmy(armies[0])|, armies[1..]);
    }
  }

  lemma NamingIsParsed(s: seq<byte>, at: nat, n: Naming)
    requires NamingOk(n) && At(s, at, EncodeNaming(n))
    ensures Names(s, at) == Some(at + |EncodeNaming(n)|)
  {
    hide At;
    var (a, b) := (at + |n.version| + 1, at + |n.version| + 4);
    AtSplit(s, at, EncodeText(n.version), n.gap + (EncodeText(n.versionAndMap) + n.gap2));
    TextIsParsed(s, at, n.version);
    AtSplit(s, a, n.gap, EncodeText(n.versionAndMap) + n.gap2);
    AtSplit(s, b, EncodeText(n.versionAndMap), n.gap2);
    TextIsParsed(s, b, n.versionAndMap);
    AtBounds(s, a, n.gap);
    AtBounds(s, b + |n.versionAndMap| + 1, n.gap2);
  }

  lemma ListingIsParsed(s: seq<byte>, at: nat, l: Listing)
    requires ListingOk(l) && At(s, at, EncodeListing(l))
    ensures Counts(s, at) == Some(at + |EncodeListing(l)|)
  {
    hide At;
    hide EncodePlayers;
    hide EncodeArmies;
    hide ToLe;
    hide Players;
    hide Armies;
    var (players, armies) := (EncodePlayers(l.players), EncodeArmies(l.armies));
    var last := armies + ToLe(l.seed);
    var a := at + 1;
    var b := a + |players|;
    AtSplit(s, at, [|l.players|], players + ([l.cheats] + ([|l.armies|] + last)));
    AtSplit(s, a, players, [l.cheats] + ([|l.armies|] + last));
    AtSplit(s, b, [l.cheats], [|l.armies|] + last);
    AtSplit(s, b + 1, [|l.armies|], last);
    AtSplit(s, b + 2, armies, ToLe(l.seed));
    AtBounds(s, at, [|l.players|]);
    AtBounds(s, b, [l.cheats]);
    AtBounds(s, b + 1, [|l.armies|]);
    AtBounds(s, b + 2 + |armies|, ToLe(l.seed));
    PlayersAreParsed(s, a, l.players);
    ArmiesAreParsed(s, b + 2, l.armies);
  }

  /** Every well-formed header is accepted, whatever follows it. */
  lemma HeaderIsParsed(s: seq<byte>, h: Layout)
    requires LayoutOk(h) && Encode(h) <= s
    ensures Header(s) == Some(|Encode(h)|)
  {
    hide At;
    hide EncodeNaming;
    hide EncodeSized;
    hide EncodeListing;
    hide Names;
    hide Sized;
    hide Counts;
    var (a, b, c) := (EncodeNaming(h.naming), EncodeSized(h.modData), EncodeSized(h.scenario));
    PrefixIsAt(s, Encode(h));
    AtSplit(s, 0, a, b + (c + EncodeListing(h.listing)));
    NamingIsParsed(s, 0, h.naming);
    AtSplit(s, |a|, b, c + EncodeListing(h.listing));
    SizedIsParsed(s, |a|, h.modData);
    AtSplit(s, |a| + |b|, c, EncodeListing(h.listing));
    SizedIsParsed(s, |a| + |b|, h.scenario);
    ListingIsParsed(s, |a| + |b| + |c|, h.listing);
  }

  // ---- Everything parsed is an encoding ----

  lemma {:induction false} TextWasEncoded(s: seq<byte>, at: nat)
    requires Until(s, at).Some?
    ensures var end := Until(s, at).value;
            IsText(s[at..end - 1]) && At(s, at, EncodeText(s[at..end - 1]))
    decreases |s| - at
  {
    var end := Until(s, at).value;
    if s[at] != 0 {
      TextWasEncoded(s, at + 1);
      assert s[at..end - 1] == [s[at]] + s[at + 1..end - 1];
    }
    assert s[at..end] == s[at..end - 1] + [0];
  }

  lemma NumberWasEncoded(s: seq<byte>, at: nat)
    requires at + 4 <= |s|
    ensures At(s, at, ToLe(FromLe(s[at..at + 4])))
  {
    LeBytesReturn(s[at..at + 4]);
  }

  lemma SizedWasEncoded(s: seq<byte>, at: nat) returns (b: seq<byte>)
    requires Sized(s, at).Some?
    ensures |b| < U32_END && At(s, at, EncodeSized(b)) && Sized(s, at).value == at + |EncodeSized(b)|
  {
    var end := Sized(s, at).value;
    b := s[at + 4..end];
    NumberWasEncoded(s, at);
    AtSplit(s, at, ToLe(|b|), b);
  }

  lemma PlayerWasEncoded(s: seq<byte>, at: nat) returns (p: PlayerEntry)
    requires Player(s, at).Some?
    ensures PlayerOk(p) && At(s, at, EncodePlayer(p)) && Player(s, at).value == at + |EncodePlayer(p)|
  {
    var a := Until(s, at).value;
    p := PlayerEntry(s[at..a - 1], FromLe(s[a..a + 4]));
    TextWasEncoded(s, at);
    NumberWasEncoded(s, a);
    AtSplit(s, at, EncodeText(p.name), ToLe(p.timeouts));
  }

  lemma {:induction false} PlayersWereEncoded(s: seq<byte>, at: nat, n: nat) returns (ps: seq<PlayerEntry>)
    requires at <= |s| && Players(s, at, n).Some?
    ensures |ps| == n && forall i :: 0 <= i < n ==> PlayerOk(ps[i])
    ensures At(s, at, EncodePlayers(ps)) && Players(s, at, n).value == at + |EncodePlayers(ps)|
    decreases n
  {
    hide At;
    hide Player;
    hide EncodePlayer;
    if n == 0 {
      ps := [];
      SliceIsAt(s, at, at);
    } else {
      var p := PlayerWasEncoded(s, at);
      var rest := PlayersWereEncoded(s, Player(s, at).value, n - 1);
      ps := [p] + rest;
      assert ps[1..] == rest;
      AtSplit(s, at, EncodePlayer(p), EncodePlayers(rest));
    }
  }

  lemma ArmyWasEncoded(s: seq<byte>, at: nat) returns (a: ArmyEntry)
    requires Army(s, at).Some?
    ensures ArmyOk(a) && At(s, at, EncodeArmy(a)) && Army(s, at).value == at + |EncodeArmy(a)|
  {
    hide At;
    hide Sized;
    hide EncodeSized;
    var (mid, end) := (Sized(s, at).value, Army(s, at).value);
    var data := SizedWasEncoded(s, at);
    a := ArmyEntry(data, s[mid], s[mid + 1..end]);
    SliceIsAt(s, mid, mid + 1);
    SliceIsAt(s, mid + 1, end);
    assert s[mid..mid + 1] == [a.owner];
    AtSplit(s, mid, [a.owner], a.extra);
    AtSplit(s, at, EncodeSized(data), [a.owner] + a.extra);
  }

  lemma {:induction false} ArmiesWereEncoded(s: seq<byte>, at: nat, n: nat) returns (armies: seq<ArmyEntry>)
    requires at <= |s| && Armies(s, at, n).Some?
    ensures |armies| == n && forall i :: 0 <= i < n ==> ArmyOk(armies[i])
    ensures At(s, at, EncodeArmies(armies)) && Armies(s, at, n).value == at + |EncodeArmies(armies)|
    decreases n
  {
    hide At;
    hide Army;
    hide EncodeArmy;
    if n == 0 {
      armies := [];
      SliceIsAt(s, at, at);
    } else {
      var a := ArmyWasEncoded(s, at);
      var rest := ArmiesWereEncoded(s, Army(s, at).value, n - 1);
      armies := [a] + rest;
      assert armies[1..] == rest;
      AtSplit(s, at, EncodeArmy(a), EncodeArmies(rest));
    }
  }

  lemma ByteIsAt(s: seq<byte>, at: nat)
    requires at < |s|
    ensures At(s, at, [s[at]])
  {
  }

  lemma SliceIsAt(s: seq<byte>, at: nat, end: nat)
    requires at <= end <= |s|
    ensures At(s, at, s[at..end])
  {
  }

  lemma NamingWasEncoded(s: seq<byte>, at: nat) returns (n: Naming)
    requires Names(s, at).Some?
    ensures NamingOk(n) && At(s, at, EncodeNaming(n)) && Names(s, at).value == at + |EncodeNaming(n)|
  {
    hide At;
    hide Until;
    hide IsText;
    var a := Until(s, at).value;
    var b := Until(s, a + 3).value;
    n := Naming(s[at..a - 1], s[a..a + 3], s[a + 3..b - 1], s[b..b + 4]);
    SliceIsAt(s, b, b + 4);
    TextWasEncoded(s, a + 3);
    AtSplit(s, a + 3, EncodeText(n.versionAndMap), n.gap2);
    SliceIsAt(s, a, a + 3);
    AtSplit(s, a, n.gap, EncodeText(n.versionAndMap) + n.gap2);
    TextWasEncoded(s, at);
    AtSplit(s, at, EncodeText(n.version), n.gap + (EncodeText(n.versionAndMap) + n.gap2));
  }

  lemma ListingWasEncoded(s: seq<byte>, at: nat) returns (l: Listing)
    requires Counts(s, at).Some?
    ensures ListingOk(l) && At(s, at, EncodeListing(l)) && Counts(s, at).value == at + |EncodeListing(l)|
  {
    hide At;
    hide EncodePlayers;
    hide EncodeArmies;
    hide ToLe;
    hide FromLe;
    hide Players;
    hide Armies;
    var b := Players(s, at + 1, s[at]).value;
    var e := Armies(s, b + 2, s[b + 1]).value;
    var players := PlayersWereEncoded(s, at + 1, s[at]);
    var armies := ArmiesWereEncoded(s, b + 2, s[b + 1]);
    l := Listing(players, s[b], armies, FromLe(s[e..e + 4]));
    NumberWasEncoded(s, e);
    var last := EncodeArmies(armies) + ToLe(l.seed);
    AtSplit(s, b + 2, EncodeArmies(armies), ToLe(l.seed));
    ByteIsAt(s, b + 1);
    AtSplit(s, b + 1, [|armies|], last);
    ByteIsAt(s, b);
    AtSplit(s, b, [s[b]], [|armies|] + last);
    AtSplit(s, at + 1, EncodePlayers(players), [s[b]] + ([|armies|] + last));
    ByteIsAt(s, at);
    AtSplit(s, at, [|players|], EncodePlayers(players) + ([s[b]] + ([|armies|] + last)));
  }

  /** Whatever is accepted is the encoding of some header, byte for byte. */
  lemma HeaderWasEncoded(s: seq<byte>) returns (h: Layout)
    requires Header(s).Some?
    ensures LayoutOk(h) && Encode(h) <= s && Header(s).value == |Encode(h)|
  {
    hide At;
    hide EncodeNaming;
    hide EncodeSized;
    hide EncodeListing;
    hide NamingOk;
    hide ListingOk;
    hide Names;
    hide Sized;
    hide Counts;
    var a := Names(s, 0).value;
    var b := Sized(s, a).value;
    var c := Sized(s, b).value;
    var naming := NamingWasEncoded(s, 0);
    var modData := SizedWasEncoded(s, a);
    var scenario := SizedWasEncoded(s, b);
    var listing := ListingWasEncoded(s, c);
    h := Layout(naming, modData, scenario, listing);
    AtSplit(s, b, EncodeSized(scenario), EncodeListing(listing));
    AtSplit(s, a, EncodeSized(modData), EncodeSized(scenario) + EncodeListing(listing));
    AtSplit(s, 0, EncodeNaming(naming), EncodeSized(modData) + (EncodeSized(scenario) + EncodeListing(listing)));
    PrefixIsAt(s, Encode(h));
  }

  // ---- What a connection may rely on ----

  /** The bytes accepted are exactly the encodings of at most 2^20 bytes that the input starts with. */
  lemma AcceptsExactlyEncodings(input: seq<byte>, d: seq<byte>)
    ensures FromConnection(input) == Some(d) <==>
            d <= input && |d| <= 0x10_0000 && exists h :: LayoutOk(h) && Encode(h) == d
  {
    hide LayoutOk;
    hide Encode;
    hide Header;
    var limited := input[..Min(|input|, MAX_SIZE)];
    if FromConnection(input) == Some(d) {
      var h := HeaderWasEncoded(limited);
      assert Encode(h) == d;
    }
    if d <= input && |d| <= MAX_SIZE && exists h :: LayoutOk(h) && Encode(h) == d {
      var h :| LayoutOk(h) && Encode(h) == d;
      assert Encode(h) <= limited;
      HeaderIsParsed(limited, h);
      assert input[..|d|] == d;
    }
  }

  /**
   * A header shows where it ends: what follows it makes no difference, and none of its proper
   * prefixes is accepted.
   */
  lemma HeaderIsSelfDelimiting(input: seq<byte>, d: seq<byte>, more: seq<byte>)
    requires FromConnection(input) == Some(d)
    ensures d <= input && 0 < |d| <= MAX_SIZE
    ensures FromConnection(d + more) == Some(d)
    ensures forall k :: 0 <= k < |d| ==> FromConnection(d[..k]) == None
  {
    hide LayoutOk;
    hide Encode;
    hide FromConnection;
    AcceptsExactlyEncodings(input, d);
    AcceptsExactlyEncodings(d + more, d);
    forall k | 0 <= k < |d| ensures FromConnection(d[..k]) == None {
      var r := FromConnection(d[..k]);
      if r.Some? {
        AcceptsExactlyEncodings(d[..k], r.value);
        AcceptsExactlyEncodings(d, r.value);
        AcceptsExactlyEncodings(d, d);
      }
    }
  }
}
