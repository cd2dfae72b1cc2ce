/** The wire format between peers: framing, message bodies and the handshake. */
module Protocol {
  import opened Counting
  import opened Assembly
  import opened ByteOrder

  const BITFIELD: byte := 5
  const PIECE: byte := 7
  const PEX: byte := 9
  const MAX_MSG_SIZE: nat := 65536

  // ---------------------------------------------------------------- framing

  datatype Frame = Frame(id: byte, body: seq<byte>)

  function BuildMessage(f: Frame): seq<byte> {
    Big(1 + |f.body|, 4) + [f.id] + f.body
  }

  function Encode(frames: seq<Frame>): seq<byte> {
    if frames == [] then [] else BuildMessage(frames[0]) + Encode(frames[1..])
  }

  /** What a reader has made of a stream so far: the messages it dispatched, the bytes it still holds,
      and whether it is still connected. */
  datatype Reading = Reading(frames: seq<Frame>, rest: seq<byte>, connected: bool)

  /** What the reader does next: wait for more bytes, break the connection, or dispatch a message. */
  datatype Next = Wait | Broken | Dispatch(frame: Frame, size: nat)

  function Peek(stream: seq<byte>): (n: Next)
    ensures n.Dispatch? ==> 0 < n.size <= |stream|
  {
    if |stream| < 5 then Wait
    else
      var length := FromBig(stream[..4]);
      if length < 1 || length - 1 > MAX_MSG_SIZE then Broken
      else if |stream| < 4 + length then Wait
      else Dispatch(Frame(stream[4], stream[5..4 + length]), 4 + length)
  }

  function Decode(stream: seq<byte>): (r: Reading)
    decreases |stream|
  {
    match Peek(stream)
    case Wait => Reading([], stream, true)
    case Broken => Reading([], stream, false)
    case Dispatch(frame, size) =>
      var r := Decode(stream[size..]);
      Reading([frame] + r.frames, r.rest, r.connected)
  }

  predicate Fits(f: Frame) { |f.body| <= MAX_MSG_SIZE }

  /** A body length a 32-bit length field can carry. */
  predicate Sendable(f: Frame) { 1 + |f.body| < U32 }

  lemma HeaderReads(f: Frame, more: seq<byte>)
    requires Sendable(f)
    ensures var s := BuildMessage(f) + more;
            && |s| >= 4 + (1 + |f.body|) && FromBig(s[..4]) == 1 + |f.body| && s[4] == f.id
            && s[5..4 + (1 + |f.body|)] == f.body && s[4 + (1 + |f.body|)..] == more
  {
    Widths();
    FromBigOfBig(1 + |f.body|, 4);
    var s := BuildMessage(f) + more;
    assert s[..4] == Big(1 + |f.body|, 4);
  }

  /** One message in front of a stream is dispatched, or breaks the connection when its body is over
      the limit. */
  lemma DecodeOne(f: Frame, more: seq<byte>)
    requires Sendable(f)
    ensures Decode(BuildMessage(f) + more) ==
            if Fits(f) then var r := Decode(more); Reading([f] + r.frames, r.rest, r.connected)
            else Reading([], BuildMessage(f) + more, false)
  {
    HeaderReads(f, more);
  }

  /** The messages in front of the first one that is over the limit. */
  function Readable(frames: seq<Frame>): seq<Frame> {
    if frames == [] || !Fits(frames[0]) then [] else [frames[0]] + Readable(frames[1..])
  }

  /** Decoding a concatenation of built messages gives back the messages before the first one that is
      over the limit, and keeps the connection exactly when there is none. */
  lemma {:induction false} DecodeEncoded(frames: seq<Frame>)
    requires forall i :: 0 <= i < |frames| ==> Sendable(frames[i])
    ensures Decode(Encode(frames)).frames == Readable(frames)
    ensures Decode(Encode(frames)).connected <==> forall i :: 0 <= i < |frames| ==> Fits(frames[i])
    ensures Decode(Encode(frames)).connected ==> Decode(Encode(frames)).rest == [] && Readable(frames) == frames
  {
    if frames != [] {
      DecodeOne(frames[0], Encode(frames[1..]));
      DecodeEncoded(frames[1..]);
      assert frames == [frames[0]] + frames[1..];
    }
  }

  /** More bytes do not change a decision once it is made. */
  lemma PeekIsStable(a: seq<byte>, b: seq<byte>)
    requires Peek(a) != Wait
    ensures Peek(a + b) == Peek(a)
  {
    assert (a + b)[..4] == a[..4];
    var length := FromBig(a[..4]);
    if Peek(a).Dispatch? { assert (a + b)[5..4 + length] == a[5..4 + length]; }
  }

  lemma FramesAssociate(a: seq<Frame>, b: seq<Frame>, c: seq<Frame>)
    ensures (a + b) + c == a + (b + c)
  {
  }

  /** It does not matter how the stream is cut into pieces on its way. */
  lemma {:induction false} DecodeInPieces(a: seq<byte>, b: seq<byte>)
    ensures var r := Decode(a);
            if r.connected
            then var later := Decode(r.rest + b);
                 Decode(a + b) == Reading(r.frames + later.frames, later.rest, later.connected)
            else Decode(a + b).frames == r.frames && !Decode(a + b).connected
    decreases |a|
  {
    if Peek(a) == Wait {
      assert [] + Decode(a + b).frames == Decode(a + b).frames;
    } else {
      PeekIsStable(a, b);
      if Peek(a).Dispatch? {
        var size := Peek(a).size;
        DecodeInPieces(a[size..], b);
        assert (a + b)[size..] == a[size..] + b;
        FramesAssociate([Peek(a).frame], Decode(a[size..]).frames, Decode(Decode(a).rest + b).frames);
      }
    }
  }

  // ---------------------------------------------------------------- message bodies

  function RequestBody(index: nat, begin: nat, length: nat): seq<byte> {
    Big(index, 4) + Big(begin, 4) + Big(length, 4)
  }

  function BuildPiece(index: nat, begin: nat, data: seq<byte>): seq<byte> {
    Big(1 + 8 + |data|, 4) + [PIECE] + Big(index, 4) + Big(begin, 4) + data
  }

  function Word(body: seq<byte>, at: nat): nat
    requires at + 4 <= |body|
  {
    FromBig(body[at..at + 4])
  }

  lemma RequestRoundTrip(index: nat, begin: nat, length: nat)
    requires index < U32 && begin < U32 && length < U32
    ensures var body := RequestBody(index, begin, length);
            |body| == 12 && Word(body, 0) == index && Word(body, 4) == begin && Word(body, 8) == length
  {
    Widths();
    var body := RequestBody(index, begin, length);
    FromBigOfBig(index, 4);
    FromBigOfBig(begin, 4);
    FromBigOfBig(length, 4);
    assert body[0..4] == Big(index, 4) && body[4..8] == Big(begin, 4) && body[8..12] == Big(length, 4);
  }

  /** A piece is built in one buffer, yet is framed like every other message, and the reader finds
      index, begin and data in it. */
  lemma PieceRoundTrip(index: nat, begin: nat, data: seq<byte>)
    requires index < U32 && begin < U32 && 9 + |data| < U32
    ensures var body := Big(index, 4) + Big(begin, 4) + data;
            && BuildPiece(index, begin, data) == BuildMessage(Frame(PIECE, body))
            && Word(body, 0) == index && Word(body, 4) == begin && body[8..] == data
  {
    Widths();
    var body := Big(index, 4) + Big(begin, 4) + data;
    FromBigOfBig(index, 4);
    FromBigOfBig(begin, 4);
    assert body[0..4] == Big(index, 4) && body[4..8] == Big(begin, 4);
    assert BuildPiece(index, begin, data) == BuildMessage(Frame(PIECE, body));
  }

  // ---------------------------------------------------------------- bitfields

  function Pow2(n: nat): nat { if n == 0 then 1 else 2 * Pow2(n - 1) }

  lemma {:induction false} OrBitBounded(v: nat, k: nat, n: nat)
    requires v < Pow2(n) && k < n
    ensures OrBit(v, k) < Pow2(n)
  {
    if k > 0 { OrBitBounded(v / 2, k - 1, n - 1); }
    else { assert Pow2(n) % 2 == 0; }
  }

  lemma ByteOr(v: byte, k: nat)
    requires k < 8
    ensures OrBit(v, k) < 256
  {
    assert Pow2(4) == 16 && Pow2(8) == 256;
    OrBitBounded(v, k, 8);
  }

  /** Bit i of a bitfield, counted from the most significant bit of its first byte. */
  predicate BitAt(bytes: seq<byte>, i: nat)
    requires i < 8 * |bytes|
  {
    Bit(bytes[i / 8], 7 - i % 8)
  }

  method BuildBitfield(have: seq<bool>) returns (bf: seq<byte>)
    ensures |bf| == (|have| + 7) / 8
    ensures forall i :: 0 <= i < 8 * |bf| ==> (BitAt(bf, i) <==> i < |have| && have[i])
  {
    bf := seq((|have| + 7) / 8, _ => 0);
    forall i | 0 <= i < 8 * |bf| ensures !BitAt(bf, i) { ZeroHasNoBit(7 - i % 8); }
    for i := 0 to |have|
      invariant |bf| == (|have| + 7) / 8
      invariant forall j :: 0 <= j < 8 * |bf| ==> (BitAt(bf, j) <==> j < i && have[j])
    {
      if have[i] {
        SetOne(bf, i);
        ByteOr(bf[i / 8], 7 - i % 8);
        bf := bf[i / 8 := OrBit(bf[i / 8], 7 - i % 8)];
      }
    }
  }

  lemma SetOne(bf: seq<byte>, i: nat)
    requires i < 8 * |bf|
    ensures OrBit(bf[i / 8], 7 - i % 8) < 256
    ensures var bf' := bf[i / 8 := OrBit(bf[i / 8], 7 - i % 8)];
            forall j :: 0 <= j < 8 * |bf| ==> (BitAt(bf', j) <==> j == i || BitAt(bf, j))
  {
    ByteOr(bf[i / 8], 7 - i % 8);
    var bf' := bf[i / 8 := OrBit(bf[i / 8], 7 - i % 8)];
    forall j | 0 <= j < 8 * |bf| ensures BitAt(bf', j) <==> j == i || BitAt(bf, j) {
      if j / 8 == i / 8 {
        OrBitSets(bf[i / 8], 7 - i % 8, 7 - j % 8);
        assert j % 8 == i % 8 <==> j == i;
      }
    }
  }

  method RecordBitfield(data: seq<byte>) returns (bits: seq<bool>)
    ensures |bits| == 8 * |data| && forall i :: 0 <= i < |bits| ==> (bits[i] <==> BitAt(data, i))
  {
    bits := [];
    for i := 0 to 8 * |data|
      invariant |bits| == i && forall j :: 0 <= j < i ==> (bits[j] <==> BitAt(data, j))
    {
      bits := bits + [Bit(data[i / 8], 7 - i % 8)];
    }
  }

  /** The bitfield is framed, sent, read and recorded: up to 524288 chunks the peer sees it again,
      padded with false to a multiple of eight; from there on it disconnects instead. */
  method SendBitfield(have: seq<bool>) returns (seen: Option<seq<bool>>)
    requires |have| + 7 < U32
    ensures seen.Some? <==> |have| <= 8 * MAX_MSG_SIZE
    ensures seen.Some? ==>
              && |seen.value| % 8 == 0 && |have| <= |seen.value| < |have| + 8
              && seen.value[..|have|] == have && forall i :: |have| <= i < |seen.value| ==> !seen.value[i]
  {
    var bf := BuildBitfield(have);
    ghost var f := Frame(BITFIELD, bf);
    DecodeOne(f, []);
    assert BuildMessage(f) + [] == BuildMessage(f);
    var next := Peek(BuildMessage(Frame(BITFIELD, bf)));
    if !next.Dispatch? {
      return None;
    }
    HeaderReads(f, []);
    var bits := RecordBitfield(next.frame.body);
    return Some(bits);
  }

  // ---------------------------------------------------------------- handshake

  /** "thinBT Protocol" and four zero bytes. */
  const PROTOCOL_ID: seq<byte> :=
    [116, 104, 105, 110, 66, 84, 32, 80, 114, 111, 116, 111, 99, 111, 108, 0, 0, 0, 0]

  datatype Handshake = Handshake(speed: nat, listenPort: nat, infoHash: seq<byte>, peerId: seq<byte>)

  function SerializeHandshake(h: Handshake): seq<byte> {
    PROTOCOL_ID + (Big(h.listenPort, 2) + [0, 0]) + Big(h.speed, 4) + h.infoHash + h.peerId
  }

  function ParseHandshake(data: seq<byte>): Option<Handshake> {
    if |data| < 67 || data[..19] != PROTOCOL_ID then None
    else Some(Handshake(FromBig(data[23..27]), FromBig(data[19..21]), data[27..47], data[47..67]))
  }

  lemma HandshakeRoundTrip(h: Handshake)
    requires h.speed < U32 && h.listenPort < U16 && |h.infoHash| == 20 && |h.peerId| == 20
    ensures |SerializeHandshake(h)| == 67 && ParseHandshake(SerializeHandshake(h)) == Some(h)
  {
    Widths();
    var data := SerializeHandshake(h);
    FromBigOfBig(h.speed, 4);
    FromBigOfBig(h.listenPort, 2);
    HandshakeParts(PROTOCOL_ID, Big(h.listenPort, 2), Big(h.speed, 4), h.infoHash, h.peerId, data);
  }

  lemma HandshakeParts(id: seq<byte>, port: seq<byte>, speed: seq<byte>, info: seq<byte>, peer: seq<byte>,
                       data: seq<byte>)
    requires |id| == 19 && |port| == 2 && |speed| == 4 && |info| == 20 && |peer| == 20
    requires data == id + (port + [0, 0]) + speed + info + peer
    ensures |data| == 67 && data[..19] == id && data[19..21] == port && data[23..27] == speed
    ensures data[27..47] == info && data[47..67] == peer
  {
    var front := id + (port + [0, 0]);
    assert front[19..21] == port;
    assert data[..23] == front && data[23..27] == speed;
    assert data[19..21] == data[..23][19..21];
  }

  // ---------------------------------------------------------------- peer exchange

  /** A PEX record is eight bytes sent as they are. */
  ghost predicate Records(peers: seq<seq<byte>>) { forall i :: 0 <= i < |peers| ==> |peers[i]| == 8 }

  function Concat(peers: seq<seq<byte>>): seq<byte> {
    if peers == [] then [] else peers[0] + Concat(peers[1..])
  }

  function PexBody(isDelta: bool, peers: seq<seq<byte>>): seq<byte> {
    [if isDelta then 1 else 0] + Big(|peers|, 2) + Concat(peers)
  }

  function Split(data: seq<byte>, count: nat): seq<seq<byte>>
    requires 8 * count <= |data|
    decreases count
  {
    if count == 0 then [] else [data[..8]] + Split(data[8..], count - 1)
  }

  /** The records a reader takes from a PEX body, if it takes any. */
  function ParsePex(body: seq<byte>): Option<seq<seq<byte>>> {
    if |body| < 3 then None
    else
      var count := FromBig(body[1..3]);
      if |body| < 3 + count * 8 then None else Some(Split(body[3..], count))
  }

  lemma {:induction false} SplitConcat(peers: seq<seq<byte>>)
    requires Records(peers)
    ensures |Concat(peers)| == 8 * |peers| && Split(Concat(peers), |peers|) == peers
  {
    if peers != [] {
      SplitConcat(peers[1..]);
      assert Concat(peers)[..8] == peers[0] && Concat(peers)[8..] == Concat(peers[1..]);
    }
  }

  /** A 16-bit count: the body is read back exactly when there are fewer than 65536 records. */
  lemma PexBodyRoundTrip(isDelta: bool, peers: seq<seq<byte>>)
    requires Records(peers)
    ensures |PexBody(isDelta, peers)| == 3 + 8 * |peers|
    ensures ParsePex(PexBody(isDelta, peers)) == Some(peers) <==> |peers| < U16
  {
    Widths();
    var body := PexBody(isDelta, peers);
    SplitConcat(peers);
    assert body[1..3] == Big(|peers|, 2) && body[3..] == Concat(peers);
    if |peers| < U16 {
      FromBigOfBig(|peers|, 2);
    } else {
      BigOfFromBig(body[1..3]);
      if 3 + FromBig(body[1..3]) * 8 <= |body| { SplitLength(body[3..], FromBig(body[1..3])); }
    }
  }

  /** What a PEX message at the front of a stream tells the reader. */
  function PexAtFront(stream: seq<byte>): Option<seq<seq<byte>>> {
    var r := Decode(stream);
    if r.frames != [] && r.frames[0].id == PEX then ParsePex(r.frames[0].body) else None
  }

  /** The frame limit comes before the count: a PEX message tells the peer its records exactly when
      there are at most 8191. */
  lemma PexRoundTrip(isDelta: bool, peers: seq<seq<byte>>, more: seq<byte>)
    requires Records(peers) && 4 + 8 * |peers| < U32
    ensures PexAtFront(BuildMessage(Frame(PEX, PexBody(isDelta, peers))) + more) == Some(peers) <==> |peers| <= 8191
  {
    PexBodyRoundTrip(isDelta, peers);
    DecodeOne(Frame(PEX, PexBody(isDelta, peers)), more);
  }

  lemma {:induction false} SplitLength(data: seq<byte>, count: nat)
    requires 8 * count <= |data|
    ensures |Split(data, count)| == count
    decreases count
  {
    if count > 0 { SplitLength(data[8..], count - 1); }
  }
}
