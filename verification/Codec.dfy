/**
 The log frame codec: a 24-byte big-endian header followed by the payload.

 A chunk is the concatenation of its encoded frames.  Compression is taken to be
 the identity on the decoded stream, so a torn file is a cut of that stream.
 */
module Codec {

  type byte = x: int | 0 <= x < 256

  const VERSION: byte := 1
  const HEADER := 24
  const MAX_PAYLOAD := 16 * 1024 * 1024
  const U32 := 0x1_0000_0000
  const U63 := 0x8000_0000_0000_0000
  const U64 := 0x1_0000_0000_0000_0000

  /** A log frame; the timestamp counts nanoseconds since the epoch. */
  datatype Frame = Frame(sequence: nat, timestamp: int, stream: byte, flags: byte, payload: seq<byte>)

  /** The frames the format can carry: 64-bit sequence, int64 microseconds, bounded payload. */
  predicate Valid(f: Frame) {
    && f.sequence < U64
    && -U63 <= f.timestamp / 1000 < U63
    && |f.payload| <= MAX_PAYLOAD
  }

  predicate AllValid(fs: seq<Frame>) {
    forall i :: 0 <= i < |fs| ==> Valid(fs[i])
  }

  /** The frame at the precision the format keeps. */
  function Micros(f: Frame): Frame {
    f.(timestamp := f.timestamp / 1000 * 1000)
  }

  function AllMicros(fs: seq<Frame>): seq<Frame> {
    if fs == [] then [] else [Micros(fs[0])] + AllMicros(fs[1..])
  }

  // ---------------------------------------------------------------- integers

  function Pow256(n: nat): (p: nat)
    ensures p > 0
  {
    if n == 0 then 1 else 256 * Pow256(n - 1)
  }

  function BigEndian(v: nat, n: nat): (s: seq<byte>)
    ensures |s| == n
    decreases n
  {
    if n == 0 then [] else BigEndian(v / 256, n - 1) + [v % 256]
  }

  function FromBigEndian(s: seq<byte>): (v: nat)
    ensures v < Pow256(|s|)
  {
    if s == [] then 0 else FromBigEndian(s[..|s| - 1]) * 256 + s[|s| - 1]
  }

  lemma {:induction false} BigEndianRoundTrip(v: nat, n: nat)
    requires v < Pow256(n)
    ensures FromBigEndian(BigEndian(v, n)) == v
    decreases n
  {
    if n > 0 {
      BigEndianRoundTrip(v / 256, n - 1);
      var s := BigEndian(v, n);
      assert s[..n - 1] == BigEndian(v / 256, n - 1);
    }
  }

  lemma WordSizes()
    ensures Pow256(Narrow()) == U32 && Pow256(Wide()) == U64
  {
    assert Pow256(2) == 65536;
    assert Pow256(4) == 256 * (256 * Pow256(2));
    assert Pow256(6) == 256 * (256 * Pow256(4));
    assert Pow256(8) == 256 * (256 * Pow256(6));
  }

  /** The uint64 bit pattern of an int64 and back. */
  function ToUnsigned(v: int): nat {
    v % U64
  }

  function ToSigned(v: nat): int
    requires v < U64
  {
    if v < U63 then v else v - U64
  }

  lemma {:induction false} SignRoundTrip(v: int)
    requires -U63 <= v < U63
    ensures ToUnsigned(v) < U64 && ToSigned(ToUnsigned(v)) == v
  {
    if v < 0 {
      assert v % U64 == v + U64;
    }
  }

  /** Field widths in bytes, named so that the verifier does not unroll them. */
  function Wide(): nat {
    8
  }

  function Narrow(): nat {
    4
  }

  // ---------------------------------------------------------------- one frame

  function EncodeHeader(f: Frame): (s: seq<byte>)
    ensures |s| == HEADER
  {
    [VERSION, f.stream, f.flags, 0]
    + BigEndian(f.sequence, Wide())
    + BigEndian(ToUnsigned(f.timestamp / 1000), Wide())
    + BigEndian(|f.payload| % U32, Narrow())
  }

  function Encode(f: Frame): (s: seq<byte>)
    ensures |s| == HEADER + |f.payload|
  {
    EncodeHeader(f) + f.payload
  }

  /** Reading a header: a clean end, a cut inside it, damage, or a payload-less frame. */
  datatype Header = Eof | Cut | Damaged | Header(frame: Frame, size: nat)

  function DecodeFields(tag: seq<byte>, sequence: seq<byte>, micros: seq<byte>, length: seq<byte>): (h: Header)
    requires |tag| == 4 && |sequence| == Wide() && |micros| == Wide() && |length| == Narrow()
    ensures h.Header? || h.Damaged?
    ensures h.Header? ==> h.size <= MAX_PAYLOAD
    ensures h.Header? ==> h.frame.payload == [] && Valid(h.frame) && h.frame.timestamp % 1000 == 0
  {
    if tag[0] != VERSION || FromBigEndian(length) > MAX_PAYLOAD then Damaged
    else
      WordSizes();
      Header(Frame(FromBigEndian(sequence), ToSigned(FromBigEndian(micros)) * 1000, tag[1], tag[2], []),
          FromBigEndian(length))
  }

  function DecodeHeader(src: seq<byte>): (h: Header)
    ensures h.Header? ==> |src| >= HEADER && h.size <= MAX_PAYLOAD
    ensures h.Header? ==> h.frame.payload == [] && Valid(h.frame) && h.frame.timestamp % 1000 == 0
  {
    if |src| == 0 then Eof
    else if |src| < HEADER then Cut
    else DecodeFields(src[..4], src[4..12], src[12..20], src[20..24])
  }

  datatype Decoded = NoMore | Torn | Corrupt | Got(frame: Frame, rest: seq<byte>)

  function Decode(src: seq<byte>): (d: Decoded)
    ensures d.Got? ==> |d.rest| < |src| && Valid(d.frame) && Micros(d.frame) == d.frame
  {
    match DecodeHeader(src)
    case Eof => NoMore
    case Cut => Torn
    case Damaged => Corrupt
    case Header(f, size) =>
      if |src| < HEADER + size then Torn
      else Got(f.(payload := src[HEADER..HEADER + size]), src[HEADER + size..])
  }

  /** What is left of a stream after its whole frames. */
  function Leftover(src: seq<byte>): seq<byte>
    decreases |src|
  {
    var d := Decode(src);
    if d.Got? then Leftover(d.rest) else src
  }

  lemma {:induction false} Slices(a: seq<byte>, b: seq<byte>, c: seq<byte>, d: seq<byte>)
    requires |a| == 4 && |b| == 8 && |c| == 8 && |d| == 4
    ensures (a + b + c + d)[..4] == a && (a + b + c + d)[4..12] == b
    ensures (a + b + c + d)[12..20] == c && (a + b + c + d)[20..24] == d
  {
  }

  lemma {:induction false} FieldsRoundTrip(f: Frame)
    requires Valid(f)
    ensures DecodeFields([VERSION, f.stream, f.flags, 0], BigEndian(f.sequence, Wide()),
                         BigEndian(ToUnsigned(f.timestamp / 1000), Wide()), BigEndian(|f.payload| % U32, Narrow()))
         == Header(Micros(f).(payload := []), |f.payload|)
  {
    WordSizes();
    SignRoundTrip(f.timestamp / 1000);
    BigEndianRoundTrip(f.sequence, Wide());
    BigEndianRoundTrip(ToUnsigned(f.timestamp / 1000), Wide());
    assert |f.payload| % U32 == |f.payload|;
    BigEndianRoundTrip(|f.payload|, Narrow());
  }

  lemma {:induction false} EncodedHeader(f: Frame)
    requires Valid(f)
    ensures DecodeHeader(EncodeHeader(f)) == Header(Micros(f).(payload := []), |f.payload|)
  {
    FieldsRoundTrip(f);
    Slices([VERSION, f.stream, f.flags, 0], BigEndian(f.sequence, Wide()),
           BigEndian(ToUnsigned(f.timestamp / 1000), Wide()), BigEndian(|f.payload| % U32, Narrow()));
  }

  /** The header only looks at the first 24 bytes. */
  lemma {:induction false} HeaderIsLocal(a: seq<byte>, b: seq<byte>)
    requires |a| >= HEADER && |b| >= HEADER && a[..HEADER] == b[..HEADER]
    ensures DecodeHeader(a) == DecodeHeader(b)
  {
    assert a[..4] == a[..HEADER][..4] == b[..4];
    assert a[4..12] == a[..HEADER][4..12] == b[4..12];
    assert a[12..20] == a[..HEADER][12..20] == b[12..20];
    assert a[20..24] == a[..HEADER][20..24] == b[20..24];
  }

  /** One frame round trip, with whatever follows it left untouched. */
  lemma {:induction false} DecodeEncoded(f: Frame, rest: seq<byte>)
    requires Valid(f)
    ensures Decode(Encode(f) + rest) == Got(Micros(f), rest)
  {
    var s, h := Encode(f) + rest, EncodeHeader(f);
    EncodedHeader(f);
    assert s[..HEADER] == h[..HEADER];
    HeaderIsLocal(s, h);
    assert s[HEADER..HEADER + |f.payload|] == f.payload;
    assert s[HEADER + |f.payload|..] == rest;
  }

  /** A proper, nonempty cut of one encoded frame is torn, never clean and never a frame. */
  lemma {:induction false} DecodeCut(f: Frame, k: nat)
    requires Valid(f)
    requires 0 < k < |Encode(f)|
    ensures Decode(Encode(f)[..k]) == Torn
  {
    if k >= HEADER {
      EncodedHeader(f);
      assert Encode(f)[..k][..HEADER] == EncodeHeader(f)[..HEADER];
      HeaderIsLocal(Encode(f)[..k], EncodeHeader(f));
    }
  }

  // ---------------------------------------------------------------- streams

  lemma {:induction false} Associative<T>(a: seq<T>, b: seq<T>, c: seq<T>)
    ensures a + (b + c) == (a + b) + c
  {
  }

  function EncodeAll(fs: seq<Frame>): seq<byte> {
    if fs == [] then [] else Encode(fs[0]) + EncodeAll(fs[1..])
  }

  datatype End = Clean | TornEnd | CorruptEnd

  datatype Salvaged = Salvaged(frames: seq<Frame>, end: End)

  /** What can be decoded from a possibly damaged stream, and how the stream ends. */
  function Salvage(s: seq<byte>): Salvaged
    decreases |s|
  {
    match Decode(s)
    case NoMore => Salvaged([], Clean)
    case Torn => Salvaged([], TornEnd)
    case Corrupt => Salvaged([], CorruptEnd)
    case Got(f, rest) =>
      var more := Salvage(rest);
      Salvaged([f] + more.frames, more.end)
  }

  function Frames(s: seq<byte>): seq<Frame> {
    Salvage(s).frames
  }

  /** Everything salvaged is a frame the format can carry, at its own precision. */
  lemma {:induction false} SalvageCanonical(s: seq<byte>)
    ensures AllValid(Frames(s)) && AllMicros(Frames(s)) == Frames(s)
    decreases |s|
  {
    var d := Decode(s);
    if d.Got? {
      SalvageCanonical(d.rest);
      assert Frames(s)[1..] == Frames(d.rest);
    }
  }

  /** The loop of the source, proved to compute Salvage. */
  method SalvageFrames(blob: seq<byte>) returns (frames: seq<Frame>, end: End)
    ensures Salvaged(frames, end) == Salvage(blob)
  {
    frames := [];
    var rest := blob;
    while true
      invariant Salvage(blob) == Salvaged(frames + Salvage(rest).frames, Salvage(rest).end)
      decreases |rest|
    {
      match Decode(rest) {
        case NoMore => return frames, Clean;
        case Torn => return frames, TornEnd;
        case Corrupt => return frames, CorruptEnd;
        case Got(f, more) =>
          Associative(frames, [f], Salvage(more).frames);
          frames, rest := frames + [f], more;
      }
    }
  }

  method EncodeFrames(fs: seq<Frame>) returns (s: seq<byte>)
    ensures s == EncodeAll(fs)
  {
    hide Encode;
    s := [];
    for i := 0 to |fs|
      invariant s + EncodeAll(fs[i..]) == EncodeAll(fs)
    {
      assert fs[i..][1..] == fs[i + 1..];
      Associative(s, Encode(fs[i]), EncodeAll(fs[i + 1..]));
      s := s + Encode(fs[i]);
    }
  }

  lemma {:induction false} SalvageOne(f: Frame, rest: seq<byte>)
    requires Valid(f)
    ensures Salvage(Encode(f) + rest) == Salvaged([Micros(f)] + Salvage(rest).frames, Salvage(rest).end)
  {
    DecodeEncoded(f, rest);
  }

  /** Decoding the concatenation of encoded frames returns exactly those frames. */
  lemma {:induction false} RoundTrip(fs: seq<Frame>)
    requires AllValid(fs)
    ensures Salvage(EncodeAll(fs)) == Salvaged(AllMicros(fs), Clean)
  {
    if fs != [] {
      RoundTrip(fs[1..]);
      SalvageOne(fs[0], EncodeAll(fs[1..]));
    }
  }

  /** The byte offset at which frame j of the stream starts. */
  function Boundary(fs: seq<Frame>, j: nat): nat
    requires j <= |fs|
  {
    |EncodeAll(fs[..j])|
  }

  lemma {:induction false} BoundaryStep(fs: seq<Frame>, i: nat)
    requires i + 1 <= |fs|
    ensures Boundary(fs, i + 1) == |Encode(fs[0])| + Boundary(fs[1..], i)
    ensures AllMicros(fs[..i + 1]) == [Micros(fs[0])] + AllMicros(fs[1..][..i])
  {
    assert fs[..i + 1][1..] == fs[1..][..i];
  }

  /** A cut inside one frame salvages to nothing and reads as torn. */
  lemma {:induction false} SalvageInside(f: Frame, more: seq<byte>, k: nat)
    requires Valid(f)
    requires k < |Encode(f)|
    ensures Salvage((Encode(f) + more)[..k]) == Salvaged([], if k == 0 then Clean else TornEnd)
  {
    assert (Encode(f) + more)[..k] == Encode(f)[..k];
    if k > 0 {
      DecodeCut(f, k);
    }
  }

  lemma {:induction false} PastFirst(fs: seq<Frame>, k: nat)
    requires AllValid(fs) && fs != []
    requires |Encode(fs[0])| <= k <= |EncodeAll(fs)|
    ensures var rest := Salvage(EncodeAll(fs[1..])[..k - |Encode(fs[0])|]);
            Salvage(EncodeAll(fs)[..k]) == Salvaged([Micros(fs[0])] + rest.frames, rest.end)
  {
    var rest := EncodeAll(fs[1..])[..k - |Encode(fs[0])|];
    assert EncodeAll(fs)[..k] == Encode(fs[0]) + rest;
    SalvageOne(fs[0], rest);
  }

  /**
   Salvaging any cut of a stream returns a prefix of its frames: those that lie
   whole before the cut.  The error is nil exactly when the cut is on a frame
   boundary, and a cut anywhere else reads as torn, never as corruption.
   */
  lemma {:induction false} SalvageCut(fs: seq<Frame>, k: nat) returns (j: nat)
    requires AllValid(fs)
    requires k <= |EncodeAll(fs)|
    ensures j <= |fs| && Boundary(fs, j) <= k
    ensures j < |fs| ==> k < Boundary(fs, j + 1)
    ensures Frames(EncodeAll(fs)[..k]) == AllMicros(fs[..j])
    ensures Salvage(EncodeAll(fs)[..k]).end == if k == Boundary(fs, j) then Clean else TornEnd
  {
    if fs == [] {
      j := 0;
    } else if k < |Encode(fs[0])| {
      j := 0;
      SalvageInside(fs[0], EncodeAll(fs[1..]), k);
      BoundaryStep(fs, 0);
    } else {
      var cut := k - |Encode(fs[0])|;
      var i := SalvageCut(fs[1..], cut);
      j := i + 1;
      BoundaryStep(fs, i);
      if i < |fs[1..]| {
        BoundaryStep(fs, i + 1);
      }
      PastFirst(fs, k);
    }
  }

  /** Re-encoding what was salvaged from any bytes at all loses and invents nothing. */
  lemma {:induction false} Reencode(s: seq<byte>)
    ensures Salvage(EncodeAll(Frames(s))) == Salvaged(Frames(s), Clean)
  {
    SalvageCanonical(s);
    RoundTrip(Frames(s));
  }
}
