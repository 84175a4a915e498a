/** ACP frames on a byte stream: 12 fixed header bytes, an unsigned varint length, the payload. */
module Codec {
  import opened Bytes

  const MAGIC: byte := 0xAC
  const VERSION: byte := 0x01
  const MAX_PAYLOAD := 16 * 1024 * 1024
  const HEADER_SIZE := 12
  const MAX_VARINT := 10

  datatype Frame = Frame(kind: byte, flags: byte, seqNo: word, payload: seq<byte>)

  datatype Error = EOF | UnexpectedEOF | BadMagic | BadVersion | PayloadTooLong | VarintOverflow | VarintTooLong | WriteFailed
  datatype Result<+T> = Ok(value: T) | Err(error: Error)

  // ---- what the wire format says ----

  /** Base-128 groups, least significant first, the high bit set on all but the last. */
  function Uvarint(v: nat): (r: seq<byte>)
    ensures r != []
  {
    if v < 128 then [v] else [v % 128 + 128] + Uvarint(v / 128)
  }

  function EncodeFrame(f: Frame): seq<byte> {
    [MAGIC, VERSION, f.kind, f.flags] + BigEndian(f.seqNo, 8) + Uvarint(|f.payload|) + f.payload
  }

  /** A value and the bytes left after it. */
  datatype Parsed<+T> = Parsed(value: T, rest: seq<byte>)

  /** Reads `n` bytes; what is there is used up even when it is too little. */
  function Take(s: seq<byte>, n: nat): Result<Parsed<seq<byte>>> {
    if |s| >= n then Ok(Parsed(s[..n], s[n..]))
    else Err(if s == [] then EOF else UnexpectedEOF)
  }

  /** The exact sum of the groups, from the i-th byte of a varint on. */
  function DecodeUvarint(s: seq<byte>, i: nat): Result<Parsed<nat>>
    decreases MAX_VARINT - i
  {
    if i >= MAX_VARINT then Err(VarintTooLong)
    else if s == [] then Err(EOF)
    else if s[0] < 128 then
      if i == MAX_VARINT - 1 && s[0] > 1 then Err(VarintOverflow) else Ok(Parsed(s[0], s[1..]))
    else
      match DecodeUvarint(s[1..], i + 1)
      case Err(e) => Err(e)
      case Ok(p) => Ok(Parsed(s[0] - 128 + 128 * p.value, p.rest))
  }

  function DecodeFrame(s: seq<byte>): Result<Parsed<Frame>> {
    match Take(s, HEADER_SIZE)
    case Err(e) => Err(e)
    case Ok(head) =>
      if head.value[0] != MAGIC then Err(BadMagic)
      else if head.value[1] != VERSION then Err(BadVersion)
      else
        match DecodeUvarint(head.rest, 0)
        case Err(e) => Err(e)
        case Ok(len) =>
          if len.value > MAX_PAYLOAD then Err(PayloadTooLong)
          else
            match Take(len.rest, len.value)
            case Err(e) => Err(e)
            case Ok(body) =>
              EightBytesFitAWord(head.value[4..12]);
              Ok(Parsed(Frame(head.value[2], head.value[3], FromBigEndian(head.value[4..12]), body.value), body.rest))
  }

  /** Where everything is in a frame: magic, version, kind, flags, the number's eight bytes, most significant first, then the
      varint of the length and the payload. */
  lemma FrameLayout(f: Frame)
    ensures var s := EncodeFrame(f);
            && |s| == 12 + |Uvarint(|f.payload|)| + |f.payload|
            && s[0] == 0xAC && s[1] == 0x01 && s[2] == f.kind && s[3] == f.flags
            && (forall k | 4 <= k < 12 :: s[k] == ShiftRight(f.seqNo, 8 * (11 - k)) % 256)
            && s[12..] == Uvarint(|f.payload|) + f.payload
  {
    hide Uvarint, ShiftRight, BigEndian;
    var s := EncodeFrame(f);
    var head, number, tail := [MAGIC, VERSION, f.kind, f.flags], BigEndian(f.seqNo, 8), Uvarint(|f.payload|) + f.payload;
    assert |head| == 4 && |number| == 8 && s == head + number + tail;
    forall k | 4 <= k < 12 ensures s[k] == ShiftRight(f.seqNo, 8 * (11 - k)) % 256 {
      BigEndianAt(f.seqNo, 8, 11 - k);
    }
  }

  // ---- round trips ----

  /** A varint that fits in what is left of 64 bits. */
  function Room(i: nat): nat
    requires i <= MAX_VARINT - 1
  {
    2 * Pow(128, MAX_VARINT - 1 - i)
  }

  lemma {:induction false} RoomShrinks(i: nat)
    requires i < MAX_VARINT
    ensures if i == MAX_VARINT - 1 then Room(i) == 2 else Room(i) == 128 * Room(i + 1)
  {
  }

  /** One byte of a varint that goes on. */
  lemma {:induction false} DecodeNext(b: byte, s: seq<byte>, i: nat)
    requires b >= 128 && i < MAX_VARINT
    ensures DecodeUvarint([b] + s, i) ==
            match DecodeUvarint(s, i + 1)
            case Err(e) => Err(e)
            case Ok(p) => Ok(Parsed(b - 128 + 128 * p.value, p.rest))
  {
    assert ([b] + s)[1..] == s;
  }

  lemma {:induction false} UvarintRoundTrip(v: nat, rest: seq<byte>, i: nat)
    requires i < MAX_VARINT && v < Room(i)
    ensures DecodeUvarint(Uvarint(v) + rest, i) == Ok(Parsed(v, rest))
    decreases MAX_VARINT - i
  {
    RoomShrinks(i);
    if v < 128 {
      assert ([v] + rest)[1..] == rest;
    } else {
      assert Uvarint(v) + rest == [v % 128 + 128] + (Uvarint(v / 128) + rest);
      hide *;
      UvarintRoundTrip(v / 128, rest, i + 1);
      DecodeNext(v % 128 + 128, Uvarint(v / 128) + rest, i);
    }
  }

  lemma RoomOfAWord()
    ensures Room(0) == WORD
  {
    assert Pow(128, 1) == 128;
    PowAdds(128, 1, 2);
    assert Pow(128, 2) == 16384;
    assert Pow(128, 3) == 2097152;
    PowAdds(128, 3, 3);
    PowAdds(128, 6, 3);
  }

  /** Decoding never yields more than 64 bits. */
  lemma {:induction false} DecodedFits(s: seq<byte>, i: nat)
    requires i < MAX_VARINT && DecodeUvarint(s, i).Ok?
    ensures DecodeUvarint(s, i).value.value < Room(i)
    decreases MAX_VARINT - i
  {
    PowPositive(128, MAX_VARINT - 1 - i);
    if s[0] < 128 {
      if i == MAX_VARINT - 1 {
        assert Room(i) == 2;
      } else {
        PowPositive(128, MAX_VARINT - 1 - (i + 1));
      }
    } else {
      assert i + 1 < MAX_VARINT;
      DecodedFits(s[1..], i + 1);
      assert Room(i) == 128 * Room(i + 1);
    }
  }

  lemma {:induction false} FrameRoundTrip(f: Frame, rest: seq<byte>)
    requires |f.payload| <= MAX_PAYLOAD
    ensures DecodeFrame(EncodeFrame(f) + rest) == Ok(Parsed(f, rest))
  {
    hide Uvarint, DecodeUvarint, BigEndian, FromBigEndian, Pow, Room;
    var s := EncodeFrame(f) + rest;
    var head := [MAGIC, VERSION, f.kind, f.flags] + BigEndian(f.seqNo, 8);
    var tail := Uvarint(|f.payload|) + (f.payload + rest);
    assert s == head + tail;
    assert s[..HEADER_SIZE] == head && s[HEADER_SIZE..] == tail;
    assert head[4..12] == BigEndian(f.seqNo, 8);
    EightBytesAreAWord();
    BigEndianRoundTrip(f.seqNo, 8);
    RoomOfAWord();
    UvarintRoundTrip(|f.payload|, f.payload + rest, 0);
    assert (f.payload + rest)[..|f.payload|] == f.payload && (f.payload + rest)[|f.payload|..] == rest;
  }

  /** Frames one after another. */
  function EncodeAll(fs: seq<Frame>): seq<byte> {
    if fs == [] then [] else EncodeFrame(fs[0]) + EncodeAll(fs[1..])
  }

  lemma DecodeConsumes(s: seq<byte>)
    requires DecodeFrame(s).Ok?
    ensures |DecodeFrame(s).value.rest| < |s|
  {
    UvarintConsumes(s[HEADER_SIZE..], 0);
  }

  lemma {:induction false} UvarintConsumes(s: seq<byte>, i: nat)
    requires DecodeUvarint(s, i).Ok?
    ensures var rest := DecodeUvarint(s, i).value.rest; |rest| < |s| && s[|s| - |rest|..] == rest
    decreases MAX_VARINT - i
  {
    if s[0] >= 128 {
      UvarintConsumes(s[1..], i + 1);
    }
  }

  /** Reads frames until the stream ends cleanly or breaks. */
  function DecodeAll(s: seq<byte>): Result<seq<Frame>>
    decreases |s|
  {
    if s == [] then Ok([])
    else
      match DecodeFrame(s)
      case Err(e) => Err(e)
      case Ok(p) =>
        DecodeConsumes(s);
        match DecodeAll(p.rest)
        case Err(e) => Err(e)
        case Ok(fs) => Ok([p.value] + fs)
  }

  lemma EncodedFrameNotEmpty(f: Frame)
    ensures EncodeFrame(f) != []
  {
  }

  /** The stream delimits itself: any concatenation of frames reads back as those frames. */
  lemma {:induction false} StreamRoundTrip(fs: seq<Frame>)
    requires forall f | f in fs :: |f.payload| <= MAX_PAYLOAD
    ensures DecodeAll(EncodeAll(fs)) == Ok(fs)
  {
    hide DecodeFrame, EncodeFrame;
    if fs != [] {
      assert fs[0] in fs;
      EncodedFrameNotEmpty(fs[0]);
      FrameRoundTrip(fs[0], EncodeAll(fs[1..]));
      assert forall f | f in fs[1..] :: f in fs;
      StreamRoundTrip(fs[1..]);
      assert fs == [fs[0]] + fs[1..];
    }
  }

  lemma {:induction false} StreamIsUnambiguous(fs: seq<Frame>, gs: seq<Frame>)
    requires forall f | f in fs :: |f.payload| <= MAX_PAYLOAD
    requires forall g | g in gs :: |g.payload| <= MAX_PAYLOAD
    requires EncodeAll(fs) == EncodeAll(gs)
    ensures fs == gs
  {
    StreamRoundTrip(fs);
    StreamRoundTrip(gs);
  }

  // ---- streams cut off anywhere ----

  lemma {:induction false} UvarintExtends(s: seq<byte>, more: seq<byte>, i: nat)
    requires DecodeUvarint(s, i).Ok?
    ensures DecodeUvarint(s + more, i) == Ok(DecodeUvarint(s, i).value.(rest := DecodeUvarint(s, i).value.rest + more))
    decreases MAX_VARINT - i
  {
    assert (s + more)[1..] == s[1..] + more;
    if s[0] >= 128 {
      UvarintExtends(s[1..], more, i + 1);
    }
  }

  /** A frame that decodes does so whatever follows it. */
  lemma {:induction false} FrameExtends(s: seq<byte>, more: seq<byte>)
    requires DecodeFrame(s).Ok?
    ensures DecodeFrame(s + more) == Ok(DecodeFrame(s).value.(rest := DecodeFrame(s).value.rest + more))
  {
    hide DecodeUvarint, FromBigEndian;
    var whole := s + more;
    assert whole[..HEADER_SIZE] == s[..HEADER_SIZE];
    assert whole[HEADER_SIZE..] == s[HEADER_SIZE..] + more;
    UvarintExtends(s[HEADER_SIZE..], more, 0);
    var len := DecodeUvarint(s[HEADER_SIZE..], 0).value;
    assert (len.rest + more)[..len.value] == len.rest[..len.value];
    assert (len.rest + more)[len.value..] == len.rest[len.value..] + more;
  }

  /** A frame cut short is never taken for a frame. */
  lemma {:induction false} TruncatedFrame(f: Frame, k: nat)
    requires |f.payload| <= MAX_PAYLOAD && k < |EncodeFrame(f)|
    ensures DecodeFrame(EncodeFrame(f)[..k]).Err?
  {
    var all := EncodeFrame(f);
    assert all[..k] + all[k..] == all == all + [];
    FrameRoundTrip(f, []);
    hide DecodeFrame, EncodeFrame;
    if DecodeFrame(all[..k]).Ok? {
      FrameExtends(all[..k], all[k..]);
    }
  }

  /** The frames read before the stream ends or breaks. */
  function Received(s: seq<byte>): seq<Frame>
    decreases |s|
  {
    match DecodeFrame(s)
    case Err(_) => []
    case Ok(p) => DecodeConsumes(s); [p.value] + Received(p.rest)
  }

  /** Where a cut falls: in the first frame, or after it. */
  lemma {:induction false} CutAt(fs: seq<Frame>, k: nat)
    requires fs != [] && |fs[0].payload| <= MAX_PAYLOAD && k <= |EncodeAll(fs)|
    ensures var m := |EncodeFrame(fs[0])|;
            if k < m then Received(EncodeAll(fs)[..k]) == []
            else k - m <= |EncodeAll(fs[1..])| && Received(EncodeAll(fs)[..k]) == [fs[0]] + Received(EncodeAll(fs[1..])[..k - m])
  {
    var f, rest := fs[0], fs[1..];
    var m := |EncodeFrame(f)|;
    if k < m {
      TruncatedFrame(f, k);
      assert EncodeAll(fs)[..k] == EncodeFrame(f)[..k];
    } else {
      assert EncodeAll(fs)[..k] == EncodeFrame(f) + EncodeAll(rest)[..k - m];
      FrameReceived(f, EncodeAll(rest)[..k - m]);
    }
    hide DecodeFrame, EncodeFrame;
  }

  /** However a stream of frames is cut, what is read is an initial run of those frames. */
  lemma {:induction false} CutStreamReadsPrefix(fs: seq<Frame>, k: nat)
    requires forall f | f in fs :: |f.payload| <= MAX_PAYLOAD
    requires k <= |EncodeAll(fs)|
    ensures Received(EncodeAll(fs)[..k]) <= fs
  {
    if fs == [] {
      assert EncodeAll(fs)[..k] == [] && DecodeFrame([]).Err?;
    } else {
      hide *;
      assert fs[0] in fs && forall f | f in fs[1..] :: f in fs;
      CutAt(fs, k);
      if k >= |EncodeFrame(fs[0])| {
        CutStreamReadsPrefix(fs[1..], k - |EncodeFrame(fs[0])|);
        PrefixOfRest(fs, Received(EncodeAll(fs[1..])[..k - |EncodeFrame(fs[0])|]));
      }
    }
  }

  lemma PrefixOfRest(fs: seq<Frame>, read: seq<Frame>)
    requires fs != [] && read <= fs[1..]
    ensures [fs[0]] + read <= fs
  {
  }

  /** And every frame whose bytes came through is among them. */
  lemma {:induction false} WholeFramesAreRead(fs: seq<Frame>, k: nat, n: nat)
    requires forall f | f in fs :: |f.payload| <= MAX_PAYLOAD
    requires n <= |fs| && |EncodeAll(fs[..n])| <= k <= |EncodeAll(fs)|
    ensures n <= |Received(EncodeAll(fs)[..k])|
  {
    hide *;
    if n > 0 {
      assert fs[0] in fs && forall f | f in fs[1..] :: f in fs;
      FirstOfMany(fs, n);
      CutAt(fs, k);
      WholeFramesAreRead(fs[1..], k - |EncodeFrame(fs[0])|, n - 1);
    }
  }

  /** Nothing is read of a frame whose bytes did not all arrive. */
  lemma {:induction false} ReadFramesArrived(fs: seq<Frame>, k: nat) returns (n: nat)
    requires forall f | f in fs :: |f.payload| <= MAX_PAYLOAD
    requires k <= |EncodeAll(fs)|
    ensures n <= |fs| && Received(EncodeAll(fs)[..k]) == fs[..n] && |EncodeAll(fs[..n])| <= k
  {
    n := 0;
    NoFramesNoBytes(fs);
    if fs == [] {
      assert EncodeAll(fs)[..k] == [] && DecodeFrame([]).Err?;
    } else {
      hide *;
      assert fs[0] in fs && forall f | f in fs[1..] :: f in fs;
      CutAt(fs, k);
      if k >= |EncodeFrame(fs[0])| {
        n := ReadFramesArrived(fs[1..], k - |EncodeFrame(fs[0])|);
        FirstOfMany(fs, 1 + n);
        assert fs[..1 + n] == [fs[0]] + fs[1..][..n];
        n := 1 + n;
      }
    }
  }

  lemma NoFramesNoBytes(fs: seq<Frame>)
    ensures EncodeAll(fs[..0]) == []
  {
  }

  lemma {:induction false} EncodeAllSnoc(fs: seq<Frame>, f: Frame)
    ensures EncodeAll(fs + [f]) == EncodeAll(fs) + EncodeFrame(f)
  {
    hide EncodeFrame;
    if fs == [] {
      assert [f][1..] == [];
    } else {
      assert (fs + [f])[1..] == fs[1..] + [f];
      EncodeAllSnoc(fs[1..], f);
    }
  }

  /** The same with the leading bytes of one more frame at the end: it is not read. */
  lemma {:induction false} PartialFrameIsNotRead(fs: seq<Frame>, f: Frame, part: nat, k: nat)
    requires (forall g | g in fs :: |g.payload| <= MAX_PAYLOAD) && |f.payload| <= MAX_PAYLOAD
    requires part < |EncodeFrame(f)| && k <= |EncodeAll(fs)| + part
    ensures Received((EncodeAll(fs) + EncodeFrame(f)[..part])[..k]) <= fs
  {
    hide *;
    EncodeAllSnoc(fs, f);
    var longer := fs + [f];
    assert (EncodeAll(fs) + EncodeFrame(f)[..part])[..k] == EncodeAll(longer)[..k];
    assert longer[..|longer|] == longer;
    var n := ReadFramesArrived(longer, k);
    assert longer[..|fs|] == fs;
  }

  lemma {:induction false} FirstOfMany(fs: seq<Frame>, n: nat)
    requires 0 < n <= |fs|
    ensures |EncodeAll(fs[..n])| == |EncodeFrame(fs[0])| + |EncodeAll(fs[1..][..n - 1])|
  {
    hide EncodeFrame;
    assert fs[..n][0] == fs[0] && fs[..n][1..] == fs[1..][..n - 1];
  }

  lemma {:induction false} FrameReceived(f: Frame, rest: seq<byte>)
    requires |f.payload| <= MAX_PAYLOAD
    ensures Received(EncodeFrame(f) + rest) == [f] + Received(rest)
  {
    FrameRoundTrip(f, rest);
    hide DecodeFrame, EncodeFrame;
  }

  /** The other way round holds only for shortest varints: a length may be padded with empty groups. */
  predicate Shortest(varint: seq<byte>) {
    |varint| <= 1 || varint[|varint| - 1] != 0
  }

  /** A frame whose length 0 is padded to two bytes is accepted, and written again it is one byte shorter. */
  lemma PaddedLengthIsAccepted() returns (s: seq<byte>)
    ensures s == [MAGIC, VERSION, 0x30, 0, 0, 0, 0, 0, 0, 0, 0, 0, 0x80, 0x00]
    ensures DecodeFrame(s) == Ok(Parsed(Frame(0x30, 0, 0, []), []))
    ensures EncodeFrame(Frame(0x30, 0, 0, [])) == s[..12] + [0x00]
  {
    s := [MAGIC, VERSION, 0x30, 0, 0, 0, 0, 0, 0, 0, 0, 0, 0x80, 0x00];
    ZeroBytes(8);
    assert s[12..] == [0x80, 0x00] && s[12..][1..] == [0x00] && s[12..][1..][1..] == [];
    assert DecodeUvarint([0x00], 1) == Ok(Parsed(0, []));
    assert DecodeUvarint(s[12..], 0) == Ok(Parsed(0, []));
    assert s[..12][4..12] == seq(8, _ => 0);
    assert Uvarint(0) == [0x00];
  }

  lemma {:induction false} ZeroBytes(n: nat)
    ensures BigEndian(0, n) == seq(n, _ => 0) && FromBigEndian(seq(n, _ => 0)) == 0
  {
    if n > 0 {
      ZeroBytes(n - 1);
      assert seq(n, _ => 0)[..n - 1] == seq(n - 1, _ => 0);
      assert seq(n, _ => 0) == seq(n - 1, _ => 0) + [0];
    }
  }

  lemma {:induction false} ReencodesWhenShortest(s: seq<byte>, i: nat)
    requires DecodeUvarint(s, i).Ok?
    ensures var p := DecodeUvarint(s, i).value;
            |p.rest| < |s| && (Uvarint(p.value) + p.rest == s <==> Shortest(s[..|s| - |p.rest|]))
    decreases MAX_VARINT - i
  {
    hide *;
    DecodedFirst(s, i);
    if s[0] >= 128 {
      var q := DecodeUvarint(s[1..], i + 1).value;
      ReencodesWhenShortest(s[1..], i + 1);
      UvarintConsumes(s[1..], i + 1);
      LastGroup(s[1..], i + 1);
      var used := s[1..][..|s| - 1 - |q.rest|];
      SplitVarint(s, used, q.rest);
      assert |s[1..]| - |q.rest| == |used|;
      ContinuedVarint(s[0], used, q.value, q.rest);
    }
  }

  /** The first byte of what decodes: the whole varint, or a group with the rest to follow. */
  lemma {:induction false} DecodedFirst(s: seq<byte>, i: nat)
    requires DecodeUvarint(s, i).Ok?
    ensures i < MAX_VARINT && s != []
    ensures var p := DecodeUvarint(s, i).value;
            if s[0] < 128 then p == Parsed(s[0], s[1..]) && Uvarint(p.value) + p.rest == s && Shortest(s[..|s| - |p.rest|])
            else DecodeUvarint(s[1..], i + 1).Ok? &&
                 var q := DecodeUvarint(s[1..], i + 1).value;
                 p == Parsed(s[0] - 128 + 128 * q.value, q.rest)
  {
    if s[0] < 128 {
      assert Uvarint(s[0]) == [s[0]] && [s[0]] + s[1..] == s;
    }
  }

  lemma {:induction false} SplitVarint(s: seq<byte>, used: seq<byte>, rest: seq<byte>)
    requires s != [] && |rest| < |s[1..]| && s[1..][|s[1..]| - |rest|..] == rest
    requires used == s[1..][..|s| - 1 - |rest|]
    ensures used != [] && s[1..] == used + rest
    ensures s == [s[0]] + (used + rest) && s[..|s| - |rest|] == [s[0]] + used
  {
    assert s == [s[0]] + s[1..];
  }

  lemma {:induction false} ContinuedVarint(b: byte, used: seq<byte>, v: nat, rest: seq<byte>)
    requires b >= 128 && used != []
    requires Uvarint(v) + rest == used + rest <==> Shortest(used)
    requires v == 0 ==> used[|used| - 1] == 0
    requires |used| == 1 ==> v == used[0]
    ensures Uvarint(b - 128 + 128 * v) + rest == [b] + (used + rest) <==> Shortest([b] + used)
  {
    var w := b - 128 + 128 * v;
    if v == 0 {
      assert (Uvarint(w) + rest)[0] == b - 128;
    } else {
      assert Uvarint(w) == [b] + Uvarint(v);
      assert Uvarint(w) + rest == [b] + (Uvarint(v) + rest);
      assert ([b] + (used + rest))[1..] == used + rest;
      assert ([b] + (Uvarint(v) + rest))[1..] == Uvarint(v) + rest;
    }
  }

  lemma {:induction false} LastGroup(s: seq<byte>, i: nat)
    requires DecodeUvarint(s, i).Ok?
    ensures var p := DecodeUvarint(s, i).value;
            && |p.rest| < |s|
            && (p.value == 0 ==> s[|s| - |p.rest| - 1] == 0)
            && (|p.rest| == |s| - 1 ==> p.value == s[0])
    decreases MAX_VARINT - i
  {
    UvarintConsumes(s, i);
    if s[0] >= 128 {
      UvarintConsumes(s[1..], i + 1);
      LastGroup(s[1..], i + 1);
    }
  }

  // ---- the code ----

  /** An `io.Reader` over the bytes still to come. */
  class Reader {
    var rest: seq<byte>

    constructor (bytes: seq<byte>)
      ensures rest == bytes
    {
      rest := bytes;
    }

    /** `io.ReadFull` */
    method ReadFull(n: nat) returns (r: Result<seq<byte>>)
      modifies this
      ensures match Take(old(rest), n)
              case Ok(p) => r == Ok(p.value) && rest == p.rest
              case Err(e) => r == Err(e) && rest == []
    {
      if |rest| >= n {
        r := Ok(rest[..n]);
        rest := rest[n..];
      } else {
        r := Err(if rest == [] then EOF else UnexpectedEOF);
        rest := [];
      }
    }

    /** Never reads past the varint it returns, and returns the exact sum of its groups. */
    method ReadUvarint() returns (r: Result<word>)
      modifies this
      ensures match DecodeUvarint(old(rest), 0)
              case Ok(p) => r == Ok(p.value) && rest == p.rest
              case Err(e) => r == Err(e)
    {
      var x: word, s: nat := 0, 0;
      ghost var whole := DecodeUvarint(rest, 0);
      assert Pow(2, 0) == 1 && SameVarint(whole, whole, 0, 0);
      hide DecodeUvarint, SameVarint, Pow, OrWord, ShiftLeft;
      for i := 0 to MAX_VARINT
        invariant s == 7 * i
        invariant i < MAX_VARINT ==> x < Pow(2, s) && SameVarint(whole, DecodeUvarint(rest, i), x, s)
        invariant i == MAX_VARINT ==> whole == Err(VarintTooLong)
      {
        NextByte(whole, rest, i, x, s);
        var read := ReadFull(1);
        if read.Err? {
          return Err(read.error);
        }
        var b := read.value[0];
        if b < 0x80 {
          if i == MAX_VARINT - 1 && b > 1 {
            return Err(VarintOverflow);
          }
          return Ok(OrWord(x, ShiftLeft(b, s)));
        }
        x := OrWord(x, ShiftLeft(b % 128, s));
        s := s + 7;
      }
      return Err(VarintTooLong);
    }
  }

  /** What the next byte means for the varint being read. */
  lemma {:induction false} NextByte(whole: Result<Parsed<nat>>, s: seq<byte>, i: nat, x: word, shift: nat)
    requires i < MAX_VARINT && shift == 7 * i && x < Pow(2, shift)
    requires SameVarint(whole, DecodeUvarint(s, i), x, shift)
    ensures s == [] ==> whole == Err(EOF)
    ensures s != [] && s[0] < 128 ==>
              whole == if i == MAX_VARINT - 1 && s[0] > 1 then Err(VarintOverflow)
                       else Ok(Parsed(OrWord(x, ShiftLeft(s[0], shift)), s[1..]))
    ensures s != [] && s[0] >= 128 && i == MAX_VARINT - 1 ==> whole == Err(VarintTooLong)
    ensures s != [] && s[0] >= 128 && i < MAX_VARINT - 1 ==>
              var x' := OrWord(x, ShiftLeft(s[0] % 128, shift));
              x' < Pow(2, shift + 7) && SameVarint(whole, DecodeUvarint(s[1..], i + 1), x', shift + 7)
  {
    if s != [] {
      if s[0] >= 128 {
        if i < MAX_VARINT - 1 {
          ShiftKeepsGroup(x, s[0] % 128, i);
          GroupAdds(whole, s, i, x, shift);
          hide *;
        }
      } else if i < MAX_VARINT - 1 || s[0] <= 1 {
        ShiftKeepsGroup(x, s[0], i);
        hide Pow, OrWord, ShiftLeft;
      }
    }
  }

  /** The whole varint is what has been read, `x`, plus what follows shifted by `s`. */
  ghost predicate SameVarint(whole: Result<Parsed<nat>>, tail: Result<Parsed<nat>>, x: nat, s: nat) {
    match whole
    case Err(e) => tail == Err(e)
    case Ok(p) => tail.Ok? && tail.value.rest == p.rest && p.value == x + tail.value.value * Pow(2, s)
  }

  /** No bit of a 7-bit group is lost by the shift, nor do its bits meet those already there. */
  lemma ShiftKeepsGroup(x: nat, g: nat, i: nat)
    requires i < MAX_VARINT && g < 128 && (i == MAX_VARINT - 1 ==> g <= 1)
    requires x < Pow(2, 7 * i)
    ensures ShiftLeft(g, 7 * i) == g * Pow(2, 7 * i)
    ensures x < WORD && OrWord(x, ShiftLeft(g, 7 * i)) == x + g * Pow(2, 7 * i)
    ensures i < MAX_VARINT - 1 ==> x + g * Pow(2, 7 * i) < Pow(2, 7 * i + 7)
  {
    hide Pow, Or;
    var p := Pow(2, 7 * i);
    GroupRoom(i);
    ProductBound(g, if i < MAX_VARINT - 1 then 127 else 1, p);
    assert g * p < WORD;
    OrIsSum(x, g, 7 * i);
  }

  lemma GroupRoom(i: nat)
    requires i < MAX_VARINT
    ensures var p := Pow(2, 7 * i);
            if i < MAX_VARINT - 1 then Pow(2, 7 * i + 7) == 128 * p && 128 * p <= WORD / 2 else 2 * p == WORD
  {
    WordIsPow();
    if i < MAX_VARINT - 1 {
      PowAdds(2, 7 * i, 7);
      PowTwoSeven();
      PowMonotone(2, 7 * i + 7, 63);
    }
  }

  lemma ProductBound(g: nat, n: nat, p: nat)
    requires g <= n
    ensures g * p <= n * p
  {
    assert n * p == g * p + (n - g) * p;
  }

  lemma PowTwoSeven()
    ensures Pow(2, 7) == 128
  {
    assert Pow(2, 4) == 16 && Pow(2, 3) == 8;
    PowAdds(2, 4, 3);
  }

  /** Reading a continued group keeps the sum. */
  lemma GroupAdds(whole: Result<Parsed<nat>>, s: seq<byte>, i: nat, x: nat, shift: nat)
    requires i < MAX_VARINT - 1 && s != [] && s[0] >= 128
    requires SameVarint(whole, DecodeUvarint(s, i), x, shift)
    ensures SameVarint(whole, DecodeUvarint(s[1..], i + 1), x + s[0] % 128 * Pow(2, shift), shift + 7)
  {
    if DecodeUvarint(s[1..], i + 1).Ok? {
      PowAdds(2, shift, 7);
      PowTwoSeven();
      GroupDistributes(s[0] % 128, DecodeUvarint(s[1..], i + 1).value.value, Pow(2, shift));
    }
  }

  lemma GroupDistributes(g: nat, v: nat, p: nat)
    ensures (g + 128 * v) * p == g * p + v * (p * 128)
  {
  }

  /** An `io.Writer` that takes `limit` bytes in all and then fails. */
  class Writer {
    const limit: nat
    var data: seq<byte>

    ghost predicate Valid()
      reads this
    {
      |data| <= limit
    }

    constructor (limit: nat)
      ensures Valid() && data == [] && this.limit == limit
    {
      this.limit, data := limit, [];
    }

    method Write(bs: seq<byte>) returns (ok: bool)
      requires Valid()
      modifies this
      ensures Valid()
      ensures ok <==> |old(data)| + |bs| <= limit
      ensures data == old(data) + if ok then bs else bs[..limit - |old(data)|]
    {
      ok := |data| + |bs| <= limit;
      data := data + if ok then bs else bs[..limit - |data|];
    }
  }

  /** `binary.BigEndian.PutUint64` at `at`. */
  method PutUint64(buf: array<byte>, at: nat, v: word)
    requires at + 8 <= buf.Length
    modifies buf
    ensures buf[..at] == old(buf[..at]) && buf[at..at + 8] == BigEndian(v, 8)
  {
    ghost var bytes := BigEndian(v, 8);
    for i := 0 to 8
      invariant buf[..at] == old(buf[..at])
      invariant forall k | 8 - i <= k < 8 :: buf[at + k] == bytes[k]
    {
      BigEndianAt(v, 8, i);
      buf[at + 7 - i] := ShiftRight(v, 8 * i) % 256;
    }
  }

  lemma {:induction false} UvarintLength(v: nat, n: nat)
    requires n >= 1 && v < Pow(128, n)
    ensures |Uvarint(v)| <= n
  {
    if v >= 128 {
      assert Pow(128, n) == 128 * Pow(128, n - 1) && Pow(128, 0) == 1;
      UvarintLength(v / 128, n - 1);
    }
  }

  /** `binary.PutUvarint` at `at`. */
  method PutUvarint(buf: array<byte>, at: nat, v: nat) returns (n: nat)
    requires at + |Uvarint(v)| <= buf.Length
    modifies buf
    ensures n == |Uvarint(v)|
    ensures buf[..at] == old(buf[..at]) && buf[at..at + n] == Uvarint(v)
  {
    var x := v;
    n := 0;
    while x >= 0x80
      invariant n + |Uvarint(x)| == |Uvarint(v)|
      invariant buf[..at] == old(buf[..at])
      invariant buf[at..at + n] + Uvarint(x) == Uvarint(v)
      decreases x
    {
      ghost var done := buf[at..at + n];
      assert Uvarint(x) == [x % 128 + 128] + Uvarint(x / 128);
      buf[at + n] := x % 128 + 0x80;
      assert buf[at..at + n + 1] == done + [x % 128 + 128];
      x := x / 128;
      n := n + 1;
    }
    ghost var done := buf[at..at + n];
    buf[at + n] := x;
    n := n + 1;
    assert buf[at..at + n] == done + [x];
  }

  method PutHeader(buf: array<byte>, f: Frame)
    requires HEADER_SIZE <= buf.Length
    modifies buf
    ensures buf[..HEADER_SIZE] == [MAGIC, VERSION, f.kind, f.flags] + BigEndian(f.seqNo, 8)
  {
    buf[0], buf[1], buf[2], buf[3] := MAGIC, VERSION, f.kind, f.flags;
    PutUint64(buf, 4, f.seqNo);
    assert buf[..4] == [MAGIC, VERSION, f.kind, f.flags];
    assert buf[..12] == buf[..4] + buf[4..12];
  }

  /** `copy(buf[off:], payload)` */
  method Copy(buf: array<byte>, off: nat, payload: seq<byte>)
    requires off + |payload| <= buf.Length
    modifies buf
    ensures buf[..off + |payload|] == old(buf[..off]) + payload
  {
    for i := 0 to |payload|
      invariant buf[..off] == old(buf[..off])
      invariant forall k | 0 <= k < i :: buf[off + k] == payload[k]
    {
      buf[off + i] := payload[i];
    }
    assert buf[..off + |payload|] == buf[..off] + buf[off..off + |payload|];
    assert buf[off..off + |payload|] == payload;
  }

  /** Fills one buffer and writes it in a single call. */
  method WriteFrame(w: Writer, f: Frame) returns (r: Result<()>)
    requires w.Valid()
    modifies w
    ensures w.Valid()
    ensures |f.payload| > MAX_PAYLOAD ==> r == Err(PayloadTooLong) && w.data == old(w.data)
    ensures |f.payload| <= MAX_PAYLOAD ==>
              var bytes := EncodeFrame(f);
              if |old(w.data)| + |bytes| <= w.limit then r == Ok(()) && w.data == old(w.data) + bytes
              else r == Err(WriteFailed) && w.data == old(w.data) + bytes[..w.limit - |old(w.data)|]
  {
    hide BigEndian, Uvarint;
    if |f.payload| > MAX_PAYLOAD {
      return Err(PayloadTooLong);
    }
    var buf := new byte[HEADER_SIZE + MAX_VARINT + |f.payload|];
    PutHeader(buf, f);
    ghost var head := buf[..HEADER_SIZE];
    LengthFitsVarint(|f.payload|);
    var n := PutUvarint(buf, HEADER_SIZE, |f.payload|);
    var off := HEADER_SIZE + n;
    assert buf[..off] == head + Uvarint(|f.payload|);
    Copy(buf, off, f.payload);
    off := off + |f.payload|;
    assert buf[..off] == EncodeFrame(f);
    var ok := w.Write(buf[..off]);
    r := if ok then Ok(()) else Err(WriteFailed);
  }

  lemma LengthFitsVarint(n: nat)
    requires n <= MAX_PAYLOAD
    ensures |Uvarint(n)| <= MAX_VARINT
  {
    RoomOfAWord();
    PowMonotone(128, 9, 10);
    UvarintLength(n, 10);
  }

  method ReadFrame(r: Reader) returns (f: Result<Frame>)
    modifies r
    ensures match DecodeFrame(old(r.rest))
            case Ok(p) => f == Ok(p.value) && r.rest == p.rest
            case Err(e) => f == Err(e)
  {
    var head := r.ReadFull(HEADER_SIZE);
    if head.Err? {
      return Err(head.error);
    }
    if head.value[0] != MAGIC {
      return Err(BadMagic);
    }
    if head.value[1] != VERSION {
      return Err(BadVersion);
    }
    EightBytesFitAWord(head.value[4..12]);
    var frame := Frame(head.value[2], head.value[3], FromBigEndian(head.value[4..12]), []);
    var length := r.ReadUvarint();
    if length.Err? {
      return Err(length.error);
    }
    if length.value > MAX_PAYLOAD {
      return Err(PayloadTooLong);
    }
    if length.value > 0 {
      var body := r.ReadFull(length.value);
      if body.Err? {
        return Err(body.error);
      }
      frame := frame.(payload := body.value);
    }
    return Ok(frame);
  }
}
