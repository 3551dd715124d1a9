/**
 The chunk layer of a PNG file: reading chunks one after the other accepts exactly
 the serializations of well-formed chunk lists (section 3.2 of RFC 2083). `crc`
 stands for CRC-32 over a chunk's type and data.
 */
module PngChunks {
  import opened Basics
  import opened PngPasses

  type U32 = n: int | 0 <= n < 0x1_0000_0000

  /** The five chunk types a documentation image may hold. */
  datatype Kind = Ihdr | Srgb | Plte | Idat | Iend

  datatype Chunk = Chunk(kind: Kind, data: seq<Byte>)

  type Crc = (seq<Byte>, seq<Byte>) -> U32

  const SIGNATURE: seq<Byte> := [0x89, 0x50, 0x4E, 0x47, 0x0D, 0x0A, 0x1A, 0x0A]

  function TypeOf(k: Kind): (t: seq<Byte>)
    ensures |t| == 4
  {
    match k
    case Ihdr => [73, 72, 68, 82]
    case Srgb => [115, 82, 71, 66]
    case Plte => [80, 76, 84, 69]
    case Idat => [73, 68, 65, 84]
    case Iend => [73, 69, 78, 68]
  }

  function KindOf(t: seq<Byte>): (k: Option<Kind>)
    ensures k.Some? ==> TypeOf(k.value) == t
    ensures forall x :: TypeOf(x) == t ==> k == Some(x)
  {
    if t == TypeOf(Ihdr) then Some(Ihdr)
    else if t == TypeOf(Srgb) then Some(Srgb)
    else if t == TypeOf(Plte) then Some(Plte)
    else if t == TypeOf(Idat) then Some(Idat)
    else if t == TypeOf(Iend) then Some(Iend)
    else
      TypesDiffer();
      None
  }

  lemma TypesDiffer()
    ensures forall a, b :: TypeOf(a) == TypeOf(b) ==> a == b
  {
    forall a, b | TypeOf(a) == TypeOf(b) ensures a == b {
      assert TypeOf(a)[0] == TypeOf(b)[0] && TypeOf(a)[1] == TypeOf(b)[1];
    }
  }

  /** Metadata chunk types that are refused by name: tEXt, zTXt, iTXt, eXIf and tIME. */
  const FORBIDDEN: set<seq<Byte>> := {
    [116, 69, 88, 116], [122, 84, 88, 116], [105, 84, 88, 116], [101, 88, 73, 102], [116, 73, 77, 69]}

  predicate Ancillary(t: seq<Byte>)
    requires |t| == 4
  {
    t[0] / 32 % 2 == 1
  }

  /** The rendering intent is one of four. */
  predicate GoodData(c: Chunk) { c.kind == Srgb ==> |c.data| == 1 && c.data[0] < 4 }

  function Be32(n: U32): (b: seq<Byte>)
    ensures |b| == 4
  {
    [n / 0x100_0000, n / 0x1_0000 % 0x100, n / 0x100 % 0x100, n % 0x100]
  }

  function FromBe32(b: seq<Byte>): U32
    requires |b| == 4
  {
    Joined(b[0], b[1], b[2], b[3])
  }

  function Joined(a: int, b: int, c: int, d: int): int { ((a * 0x100 + b) * 0x100 + c) * 0x100 + d }

  lemma Be32RoundTrip(n: U32)
    ensures FromBe32(Be32(n)) == n
  {
    var c := n / 0x100;
    var b := c / 0x100;
    assert n / 0x1_0000 == b && n / 0x100_0000 == b / 0x100;
  }

  lemma Digits(a: int, b: int, c: int, d: int)
    requires 0 <= b < 256 && 0 <= c < 256 && 0 <= d < 256
    ensures
      var n := Joined(a, b, c, d);
      n / 0x100_0000 == a && n / 0x1_0000 % 0x100 == b && n / 0x100 % 0x100 == c && n % 0x100 == d
  {
    var n := Joined(a, b, c, d);
    assert n / 0x100 == (a * 0x100 + b) * 0x100 + c;
    assert n / 0x1_0000 == a * 0x100 + b;
  }

  lemma FromBe32RoundTrip(b: seq<Byte>)
    requires |b| == 4
    ensures Be32(FromBe32(b)) == b
  {
    var n := FromBe32(b);
    Digits(b[0], b[1], b[2], b[3]);
    assert Be32(n)[0] == b[0] && Be32(n)[1] == b[1] && Be32(n)[2] == b[2] && Be32(n)[3] == b[3];
  }

  /** A chunk as bytes: length, type, data, checksum. */
  function Encode(crc: Crc, c: Chunk): seq<Byte>
    requires |c.data| < 0x1_0000_0000
  {
    Be32(|c.data|) + TypeOf(c.kind) + c.data + Be32(crc(TypeOf(c.kind), c.data))
  }

  ghost predicate Fits(cs: seq<Chunk>) { forall i :: 0 <= i < |cs| ==> |cs[i].data| < 0x1_0000_0000 }

  function Serialize(crc: Crc, cs: seq<Chunk>): seq<Byte>
    requires Fits(cs)
  {
    if cs == [] then [] else Encode(crc, cs[0]) + Serialize(crc, cs[1..])
  }

  /** Data is in order, and an end chunk is the last one. */
  ghost predicate Framed(cs: seq<Chunk>) {
    Fits(cs) && (forall i :: 0 <= i < |cs| ==> GoodData(cs[i])) &&
    forall i :: 0 <= i < |cs| - 1 ==> cs[i].kind != Iend
  }

  /** Reads the chunk a text starts with, if it starts with an acceptable one. */
  function Head(crc: Crc, p: seq<Byte>): (r: Option<Chunk>)
    ensures r.Some? ==> |r.value.data| + 12 <= |p|
  {
    if |p| < 12 then None
    else
      var length := FromBe32(p[..4]);
      if 12 + length > |p| then None
      else
        var t, data := p[4..8], p[8..8 + length];
        if crc(t, data) != FromBe32(p[8 + length..12 + length]) then None
        else
          var kind := KindOf(t);
          if kind.None? || !GoodData(Chunk(kind.value, data)) then None else Some(Chunk(kind.value, data))
  }

  /** The head is acceptable exactly when the text starts with an encoded chunk. */
  lemma HeadEncoded(crc: Crc, c: Chunk, rest: seq<Byte>)
    requires |c.data| < 0x1_0000_0000 && GoodData(c)
    ensures Head(crc, Encode(crc, c) + rest) == Some(c)
    ensures (Encode(crc, c) + rest)[12 + |c.data|..] == rest
  {
    hide TypeOf, GoodData, Be32, FromBe32;
    var n := |c.data|;
    var sum := crc(TypeOf(c.kind), c.data);
    var p := Encode(crc, c) + rest;
    assert p == Be32(n) + TypeOf(c.kind) + c.data + Be32(sum) + rest;
    assert p[..4] == Be32(n);
    assert p[4..8] == TypeOf(c.kind);
    assert p[8..8 + n] == c.data;
    assert p[8 + n..12 + n] == Be32(sum);
    Be32RoundTrip(n);
    Be32RoundTrip(sum);
  }

  lemma HeadMeaning(crc: Crc, p: seq<Byte>)
    requires Head(crc, p).Some?
    ensures
      var c := Head(crc, p).value;
      && |c.data| < 0x1_0000_0000 && GoodData(c)
      && p == Encode(crc, c) + p[12 + |c.data|..]
  {
    hide TypeOf, GoodData, Be32, FromBe32;
    var n := FromBe32(p[..4]);
    FromBe32RoundTrip(p[..4]);
    FromBe32RoundTrip(p[8 + n..12 + n]);
    assert p == p[..4] + p[4..8] + p[8..8 + n] + p[8 + n..12 + n] + p[12 + n..];
  }

  /** Everything after the signature, chunk by chunk; nothing may follow an end chunk. */
  function ReadAll(crc: Crc, p: seq<Byte>, sawEnd: bool): Option<seq<Chunk>>
    decreases |p|
  {
    if p == [] then Some([])
    else if sawEnd then None
    else
      var head := Head(crc, p);
      if head.None? then None
      else
        var c := head.value;
        var rest := ReadAll(crc, p[12 + |c.data|..], c.kind == Iend);
        if rest.None? then None else Some([c] + rest.value)
  }

  /** Reading back what was written gives the chunks. */
  lemma {:induction false} ReadSerialized(crc: Crc, cs: seq<Chunk>)
    requires Framed(cs)
    ensures ReadAll(crc, Serialize(crc, cs), false) == Some(cs)
  {
    hide Head, Encode, GoodData;
    if cs != [] {
      var rest := Serialize(crc, cs[1..]);
      HeadEncoded(crc, cs[0], rest);
      EncodeLength(crc, cs[0]);
      assert cs == [cs[0]] + cs[1..];
      FramedRest(cs);
      ReadSerialized(crc, cs[1..]);
    }
  }

  lemma FramedRest(cs: seq<Chunk>)
    requires Framed(cs) && cs != []
    ensures Framed(cs[1..]) && (|cs| > 1 ==> cs[0].kind != Iend)
  {
    forall i | 0 <= i < |cs[1..]| ensures cs[1..][i] == cs[i + 1] {}
  }

  lemma EncodeLength(crc: Crc, c: Chunk)
    requires |c.data| < 0x1_0000_0000
    ensures |Encode(crc, c)| == 12 + |c.data|
  {
  }

  /** What reads is what was written. */
  lemma {:induction false} ReadMeaning(crc: Crc, p: seq<Byte>, sawEnd: bool)
    requires ReadAll(crc, p, sawEnd).Some?
    ensures
      var cs := ReadAll(crc, p, sawEnd).value;
      Framed(cs) && p == Serialize(crc, cs) && (sawEnd ==> cs == [])
    decreases |p|
  {
    hide Head, Encode, GoodData;
    if p != [] {
      var c := Head(crc, p).value;
      HeadMeaning(crc, p);
      ReadMeaning(crc, p[12 + |c.data|..], c.kind == Iend);
    }
  }

  /** The reader accepts one language and inverts serialization on it. */
  lemma ReadsExactlySerializations(crc: Crc, p: seq<Byte>, cs: seq<Chunk>)
    ensures ReadAll(crc, p, false) == Some(cs) <==> Framed(cs) && p == Serialize(crc, cs)
  {
    if ReadAll(crc, p, false) == Some(cs) { ReadMeaning(crc, p, false); }
    if Framed(cs) && p == Serialize(crc, cs) { ReadSerialized(crc, cs); }
  }
}
