/**
 The whole checker: signature, chunks, chunk order, header, palette and image
 data. What it accepts is one language of files.
 */
module PngFile {
  import opened Basics
  import opened Sequences
  import opened PngPasses
  import opened PngChunks

  /* ---------------- the chunk loop ---------------- */

  const CRITICAL: set<seq<Byte>> := {TypeOf(Ihdr), TypeOf(Plte), TypeOf(Idat), TypeOf(Iend)}
  const ANCILLARY: set<seq<Byte>> := {TypeOf(Srgb)}

  /** The three type checks together let through exactly the five known types. */
  lemma TypeChecks(t: seq<Byte>)
    requires |t| == 4
    ensures t !in FORBIDDEN && (if Ancillary(t) then t in ANCILLARY else t in CRITICAL) <==> KindOf(t).Some?
  {
    assert TypeOf(Srgb)[0] == 115 && TypeOf(Ihdr)[0] == 73 && TypeOf(Plte)[0] == 80 && TypeOf(Idat)[0] == 73 && TypeOf(Iend)[0] == 73;
    forall f | f in FORBIDDEN ensures |f| == 4 && Ancillary(f) && f[1] != 82 {}
    assert TypeOf(Srgb)[1] == 82;
  }

  function After(before: seq<Chunk>, rest: Option<seq<Chunk>>): Option<seq<Chunk>> {
    if rest.None? then None else Some(before + rest.value)
  }

  function ReadFile(crc: Crc, payload: seq<Byte>): Option<seq<Chunk>> {
    if SIGNATURE <= payload then ReadAll(crc, payload[|SIGNATURE|..], false) else None
  }

  /** One step of the loop: the chunk at `offset`, or nothing if it is refused. */
  method ReadChunk(crc: Crc, payload: seq<Byte>, offset: nat) returns (chunk: Option<Chunk>)
    requires offset < |payload|
    ensures chunk == Head(crc, payload[offset..])
  {
    hide FromBe32, KindOf;
    ghost var p := payload[offset..];
    if |payload| - offset < 12 { return None; }
    assert p[..4] == payload[offset..offset + 4] && p[4..8] == payload[offset + 4..offset + 8];
    var length := FromBe32(payload[offset..offset + 4]);
    var chunkType := payload[offset + 4..offset + 8];
    var chunkEnd := offset + 12 + length;
    if chunkEnd > |payload| { return None; }
    var data := payload[offset + 8..offset + 8 + length];
    assert p[8..8 + length] == data && p[8 + length..12 + length] == payload[offset + 8 + length..chunkEnd];
    var expected := FromBe32(payload[offset + 8 + length..chunkEnd]);
    if crc(chunkType, data) != expected { return None; }
    TypeChecks(chunkType);
    hide Ancillary;
    if chunkType in FORBIDDEN { return None; }
    if Ancillary(chunkType) && chunkType !in ANCILLARY { return None; }
    if chunkType == TypeOf(Srgb) && !(|data| == 1 && data[0] < 4) {
      assert KindOf(chunkType) == Some(Srgb);
      return None;
    }
    if !Ancillary(chunkType) && chunkType !in CRITICAL { return None; }
    var kind := KindOf(chunkType).value;
    assert TypeOf(kind) == chunkType;
    return Some(Chunk(kind, data));
  }

  /** Reads chunks to the end of the file. */
  method ReadChunks(crc: Crc, payload: seq<Byte>) returns (r: Option<seq<Chunk>>)
    ensures r == ReadFile(crc, payload)
  {
    hide Head;
    if !(SIGNATURE <= payload) { return None; }
    var offset := |SIGNATURE|;
    var chunks: seq<Chunk> := [];
    var sawIend := false;
    NothingBefore(ReadAll(crc, payload[offset..], false));
    while offset < |payload|
      invariant |SIGNATURE| <= offset <= |payload|
      invariant ReadAll(crc, payload[|SIGNATURE|..], false) == After(chunks, ReadAll(crc, payload[offset..], sawIend))
      decreases |payload| - offset
    {
      if sawIend { return None; }
      var chunk := ReadChunk(crc, payload, offset);
      if chunk.None? { return None; }
      var c := chunk.value;
      assert payload[offset..][12 + |c.data|..] == payload[offset + 12 + |c.data|..];
      Appended(chunks, c, ReadAll(crc, payload[offset + 12 + |c.data|..], c.kind == Iend));
      chunks := chunks + [c];
      sawIend := c.kind == Iend;
      offset := offset + 12 + |c.data|;
    }
    assert payload[offset..] == [] && chunks + [] == chunks;
    return Some(chunks);
  }

  lemma NothingBefore(rest: Option<seq<Chunk>>)
    ensures After([], rest) == rest
  {
    if rest.Some? { assert [] + rest.value == rest.value; }
  }

  lemma Appended(before: seq<Chunk>, c: Chunk, rest: Option<seq<Chunk>>)
    ensures rest.Some? ==> before + ([c] + rest.value) == before + [c] + rest.value
  {
  }

  /* ---------------- chunk order ---------------- */

  function Kinds(cs: seq<Chunk>): seq<Kind> { Map((c: Chunk) => c.kind, cs) }

  function Index(k: Kind, s: seq<Kind>): nat
    requires k in s
  {
    if s[0] == k then 0 else 1 + Index(k, s[1..])
  }

  function IndexesOf(k: Kind, s: seq<Kind>): seq<nat> {
    if s == [] then []
    else IndexesOf(k, s[..|s| - 1]) + if s[|s| - 1] == k then [|s| - 1] else []
  }

  function Range(from: nat, to: nat): seq<nat> { seq(Max(0, to - from), i requires 0 <= i => from + i) }

  /** The checks, as the checker makes them. */
  predicate OrderChecks(s: seq<Kind>) {
    && s != [] && s[0] == Ihdr
    && multiset(s)[Ihdr] == 1
    && multiset(s)[Iend] == 1 && s[|s| - 1] == Iend
    && Idat in s
    && multiset(s)[Srgb] <= 1
    && (Srgb in s ==> Index(Srgb, s) <= Index(Idat, s))
    && (Srgb in s && Plte in s ==> Index(Srgb, s) <= Index(Plte, s))
    && multiset(s)[Plte] <= 1
    && (var at := IndexesOf(Idat, s); at != [] && at == Range(at[0], at[|at| - 1] + 1))
    && (Plte in s ==> Index(Plte, s) <= IndexesOf(Idat, s)[0])
  }

  /** The one layout: header, perhaps a rendering intent, perhaps a palette, image data, end. */
  function Canonical(srgb: bool, plte: bool, n: nat): seq<Kind> {
    [Ihdr] + (if srgb then [Srgb] else []) + (if plte then [Plte] else []) + seq(n, _ => Idat) + [Iend]
  }

  ghost predicate AtMostOnce(k: Kind, s: seq<Kind>) {
    forall i, j :: 0 <= i < j < |s| ==> !(s[i] == k && s[j] == k)
  }

  ghost predicate Precedes(a: Kind, b: Kind, s: seq<Kind>) {
    forall i, j :: 0 <= i < |s| && 0 <= j < |s| && s[i] == a && s[j] == b ==> i < j
  }

  ghost predicate Together(k: Kind, s: seq<Kind>) {
    forall i, j, l :: 0 <= i < j < l < |s| && s[i] == k && s[l] == k ==> s[j] == k
  }

  /** The same order, position by position. */
  ghost predicate LaidOut(s: seq<Kind>) {
    && s != [] && s[0] == Ihdr && s[|s| - 1] == Iend && Idat in s
    && AtMostOnce(Ihdr, s) && AtMostOnce(Iend, s) && AtMostOnce(Srgb, s) && AtMostOnce(Plte, s)
    && Precedes(Srgb, Idat, s) && Precedes(Srgb, Plte, s) && Precedes(Plte, Idat, s) && Together(Idat, s)
  }

  lemma {:induction false} IndexMeaning(k: Kind, s: seq<Kind>)
    requires k in s
    ensures Index(k, s) < |s| && s[Index(k, s)] == k
    ensures forall i :: 0 <= i < |s| && s[i] == k ==> Index(k, s) <= i
  {
    if s[0] != k {
      IndexMeaning(k, s[1..]);
      forall i | 0 <= i < |s| && s[i] == k ensures Index(k, s) <= i { assert s[1..][i - 1] == s[i]; }
    }
  }

  ghost predicate Increasing(s: seq<nat>) { forall a, b :: 0 <= a < b < |s| ==> s[a] < s[b] }

  lemma {:induction false} IndexesMeaning(k: Kind, s: seq<Kind>)
    ensures forall i: int :: i in IndexesOf(k, s) <==> 0 <= i < |s| && s[i] == k
    ensures Increasing(IndexesOf(k, s))
  {
    if s != [] {
      var init := s[..|s| - 1];
      IndexesMeaning(k, init);
      var before := IndexesOf(k, init);
      forall a | 0 <= a < |before| ensures before[a] < |init| { assert before[a] in before; }
    }
  }

  lemma AtMostOne(k: Kind, s: seq<Kind>)
    ensures multiset(s)[k] <= 1 <==> AtMostOnce(k, s)
    ensures multiset(s)[k] == 1 <==> AtMostOnce(k, s) && k in s
  {
    assert k in s <==> k in multiset(s);
    if i, j :| 0 <= i < j < |s| && s[i] == k && s[j] == k {
      assert s == s[..j] + [s[j]] + s[j + 1..];
      assert s[i] in s[..j];
      assert k in multiset(s[..j]);
    }
    if AtMostOnce(k, s) { UniqueCount(k, s); }
  }

  lemma {:induction false} UniqueCount(k: Kind, s: seq<Kind>)
    requires AtMostOnce(k, s)
    ensures multiset(s)[k] == if k in s then 1 else 0
  {
    if s != [] {
      var init := s[..|s| - 1];
      assert s == init + [s[|s| - 1]];
      UniqueCount(k, init);
    }
  }

  /** Increasing sequences with the same members are equal. */
  lemma IncreasingUnique(s: seq<nat>, t: seq<nat>)
    requires Increasing(s) && Increasing(t) && forall i: int :: i in s <==> i in t
    ensures s == t
  {
    DistinctPermuted(s, t);
    SortedUnique((a: nat, b: nat) => a <= b, s, t);
  }

  lemma {:induction false} RangeMembers(from: nat, to: nat)
    ensures Increasing(Range(from, to)) && forall j: int :: j in Range(from, to) <==> from <= j < to
  {
    forall j: int | from <= j < to ensures j in Range(from, to) { assert Range(from, to)[j - from] == j; }
  }

  lemma IndexesEnds(s: seq<Kind>)
    requires Idat in s
    ensures
      var at := IndexesOf(Idat, s);
      && at != [] && at[0] == Index(Idat, s)
      && (forall i: int :: i in at ==> at[0] <= i <= at[|at| - 1])
      && at[|at| - 1] in at
  {
    hide IndexesOf;
    var at := IndexesOf(Idat, s);
    IndexesMeaning(Idat, s);
    IndexMeaning(Idat, s);
    assert Index(Idat, s) in at;
    assert at[0] in at && at[|at| - 1] in at;
  }

  /** The image data indexes form a range exactly when nothing else stands between two of them. */
  lemma ConsecutiveMeaning(s: seq<Kind>)
    requires Idat in s
    ensures
      var at := IndexesOf(Idat, s);
      at != [] && at[0] == Index(Idat, s) && (at == Range(at[0], at[|at| - 1] + 1) <==> Together(Idat, s))
  {
    hide IndexesOf, Range, Increasing, Index;
    var at := IndexesOf(Idat, s);
    IndexesMeaning(Idat, s);
    IndexesEnds(s);
    var first, last := at[0], at[|at| - 1];
    RangeMembers(first, last + 1);
    if Together(Idat, s) {
      assert first in at;
      IncreasingUnique(at, Range(first, last + 1));
    }
  }

  lemma PrecedesMeaning(a: Kind, b: Kind, s: seq<Kind>)
    requires a != b && AtMostOnce(a, s)
    ensures (a in s && b in s ==> Index(a, s) <= Index(b, s)) <==> Precedes(a, b, s)
  {
    hide Index;
    if a in s { IndexMeaning(a, s); }
    if b in s { IndexMeaning(b, s); }
  }

  lemma ChecksMeanLaidOut(s: seq<Kind>)
    ensures OrderChecks(s) <==> LaidOut(s)
  {
    hide IndexesOf, Index, AtMostOnce, Precedes, Together, Range;
    AtMostOne(Ihdr, s);
    AtMostOne(Iend, s);
    AtMostOne(Srgb, s);
    AtMostOne(Plte, s);
    if Idat in s { ConsecutiveMeaning(s); }
    if AtMostOnce(Srgb, s) {
      PrecedesMeaning(Srgb, Idat, s);
      PrecedesMeaning(Srgb, Plte, s);
    }
    if AtMostOnce(Plte, s) { PrecedesMeaning(Plte, Idat, s); }
    if s != [] && s[0] == Ihdr { assert Ihdr in s; }
    if s != [] && s[|s| - 1] == Iend { assert Iend in s; }
  }

  lemma CanonicalLaidOut(srgb: bool, plte: bool, n: nat)
    requires n > 0
    ensures LaidOut(Canonical(srgb, plte, n))
  {
    hide AtMostOnce, Precedes, Together;
    var s := Canonical(srgb, plte, n);
    CanonicalParts(srgb, plte, n);
    CanonicalOrder(srgb, plte, n);
    assert s[|s| - 1] == Iend;
  }

  lemma CanonicalParts(srgb: bool, plte: bool, n: nat)
    requires n > 0
    ensures
      var s := Canonical(srgb, plte, n);
      AtMostOnce(Ihdr, s) && AtMostOnce(Iend, s) && AtMostOnce(Srgb, s) && AtMostOnce(Plte, s) && Idat in s
  {
    var s := Canonical(srgb, plte, n);
    var a := 1 + (if srgb then 1 else 0) + (if plte then 1 else 0);
    assert forall i :: a <= i < a + n ==> s[i] == Idat;
    assert s[a] == Idat && |s| == a + n + 1;
  }

  lemma CanonicalOrder(srgb: bool, plte: bool, n: nat)
    requires n > 0
    ensures
      var s := Canonical(srgb, plte, n);
      Precedes(Srgb, Idat, s) && Precedes(Srgb, Plte, s) && Precedes(Plte, Idat, s) && Together(Idat, s)
  {
    var s := Canonical(srgb, plte, n);
    var a := 1 + (if srgb then 1 else 0) + (if plte then 1 else 0);
    assert forall i :: a <= i < a + n ==> s[i] == Idat;
    assert s[a] == Idat;
    assert srgb ==> s[1] == Srgb;
    assert plte ==> s[a - 1] == Plte;
    assert |s| == a + n + 1;
  }

  lemma ThreeRepeat(s: seq<Kind>)
    requires |s| > 3 && forall i :: 0 < i <= 3 ==> s[i] == Srgb || s[i] == Plte
    ensures !AtMostOnce(Srgb, s) || !AtMostOnce(Plte, s)
  {
    assert s[1] == s[2] || s[1] == s[3] || s[2] == s[3];
  }

  /** Before the image data stand only the header, an intent and a palette. */
  lemma BeforeData(s: seq<Kind>, a: nat)
    requires LaidOut(s) && a < |s| && s[a] == Idat && forall i :: 0 <= i < |s| && s[i] == Idat ==> a <= i
    ensures forall i :: 0 < i < a ==> s[i] == Srgb || s[i] == Plte
    ensures forall i :: a <= i < |s| - 1 ==> s[i] == Idat
    ensures 1 <= a <= 3
    ensures a == 3 ==> s[1] == Srgb && s[2] == Plte
  {
    forall i | 0 < i < a ensures s[i] == Srgb || s[i] == Plte {
      assert s[0] == Ihdr && s[|s| - 1] == Iend;
    }
    forall i | a <= i < |s| - 1 ensures s[i] == Idat {
      assert s[0] == Ihdr && s[|s| - 1] == Iend;
    }
    if a == 3 {
      var x, y := s[1], s[2];
      assert x != y && !(x == Plte && y == Srgb);
    }
    if a > 3 {
      ThreeRepeat(s);
      assert false;
    }
  }

  lemma LaidOutCanonical(s: seq<Kind>)
    requires LaidOut(s)
    ensures exists srgb, plte, n: nat :: n > 0 && s == Canonical(srgb, plte, n)
  {
    var a := Index(Idat, s);
    IndexMeaning(Idat, s);
    BeforeData(s, a);
    hide LaidOut;
    var n := |s| - 1 - a;
    if a == 1 {
      assert s == Canonical(false, false, n);
    } else if a == 2 {
      assert s == if s[1] == Srgb then Canonical(true, false, n) else Canonical(false, true, n);
    } else {
      assert s == Canonical(true, true, n);
    }
  }

  /** The order checks accept exactly the canonical order. */
  lemma OrderLanguage(s: seq<Kind>)
    ensures OrderChecks(s) <==> exists srgb, plte, n: nat :: n > 0 && s == Canonical(srgb, plte, n)
  {
    hide Canonical, OrderChecks, LaidOut;
    ChecksMeanLaidOut(s);
    if LaidOut(s) { LaidOutCanonical(s); }
    if srgb, plte, n: nat :| n > 0 && s == Canonical(srgb, plte, n) { CanonicalLaidOut(srgb, plte, n); }
  }

  /* ---------------- header, palette, image data ---------------- */

  datatype Header = Header(
    width: U32, height: U32, bitDepth: Byte, colorType: Byte, compression: Byte, filtering: Byte, interlace: Byte)

  function HeaderOf(data: seq<Byte>): Header
    requires |data| == 13
  {
    Header(FromBe32(data[..4]), FromBe32(data[4..8]), data[8], data[9], data[10], data[11], data[12])
  }

  const CHANNELS: map<int, nat> := map[0 := 1, 2 := 3, 3 := 1, 4 := 2, 6 := 4]

  const BIT_DEPTHS: map<int, set<int>> := map[
    0 := {1, 2, 4, 8, 16}, 2 := {8, 16}, 3 := {1, 2, 4, 8}, 4 := {8, 16}, 6 := {8, 16}]

  predicate GoodHeader(h: Header) {
    && h.width > 0 && h.height > 0
    && h.colorType in CHANNELS && h.colorType in BIT_DEPTHS && h.bitDepth in BIT_DEPTHS[h.colorType]
    && h.compression == 0 && h.filtering == 0 && (h.interlace == 0 || h.interlace == 1)
  }

  predicate GoodPalette(palette: seq<Byte>) { palette != [] && |palette| % 3 == 0 && |palette| <= 768 }

  /** An indexed image has a palette, and a palette has a whole number of entries. */
  predicate PaletteOk(h: Header, cs: seq<Chunk>) {
    && (h.colorType == 3 ==> Plte in Kinds(cs))
    && (Plte in Kinds(cs) ==>
          (IndexMeaning(Plte, Kinds(cs)); GoodPalette(cs[Index(Plte, Kinds(cs))].data)))
  }

  /** The data of the image chunks, joined. */
  function ImageData(cs: seq<Chunk>): seq<Byte> {
    if cs == [] then []
    else ImageData(cs[..|cs| - 1]) + if cs[|cs| - 1].kind == Idat then cs[|cs| - 1].data else []
  }

  function LinesFor(h: Header): seq<Lines>
    requires h.colorType in CHANNELS
  {
    LinesOf(Passes(h.width, h.height, h.interlace), CHANNELS[h.colorType], h.bitDepth)
  }

  datatype Image = Image(width: nat, height: nat, types: seq<Kind>)

  type Inflate = (seq<Byte>, nat) -> Inflation

  /** Chunks in canonical order, with a good header and palette, an empty end and image data that decodes. */
  ghost predicate Sound(inflate: Inflate, cs: seq<Chunk>) {
    && (exists srgb, plte, n: nat :: n > 0 && Kinds(cs) == Canonical(srgb, plte, n))
    && |cs[0].data| == 13 && cs[|cs| - 1].data == []
    && (var h := HeaderOf(cs[0].data);
        GoodHeader(h) && PaletteOk(h, cs) && Decodes(inflate, ImageData(cs), LinesFor(h)))
  }

  function ImageOf(cs: seq<Chunk>): Image
    requires cs != [] && |cs[0].data| == 13
  {
    Image(HeaderOf(cs[0].data).width, HeaderOf(cs[0].data).height, Kinds(cs))
  }

  /** The file is the signature followed by these chunks, and they make a sound image. */
  ghost predicate Encodes(crc: Crc, inflate: Inflate, payload: seq<Byte>, cs: seq<Chunk>) {
    && Framed(cs) && payload == SIGNATURE + Serialize(crc, cs)
    && Sound(inflate, cs)
  }

  method JoinImageData(cs: seq<Chunk>) returns (compressed: seq<Byte>)
    ensures compressed == ImageData(cs)
  {
    compressed := [];
    for i := 0 to |cs|
      invariant compressed == ImageData(cs[..i])
    {
      assert cs[..i + 1][..i] == cs[..i];
      if cs[i].kind == Idat { compressed := compressed + cs[i].data; }
    }
    assert cs[..|cs|] == cs;
  }

  /** Checks header, palette and image data of chunks that passed the order checks. */
  method CheckImage(inflate: Inflate, cs: seq<Chunk>) returns (ok: bool)
    requires cs != [] && |cs[0].data| == 13
    ensures
      var h := HeaderOf(cs[0].data);
      ok <==> GoodHeader(h) && PaletteOk(h, cs) && Decodes(inflate, ImageData(cs), LinesFor(h))
  {
    hide FromBe32, Decodes, Index, ImageData;
    var h := HeaderOf(cs[0].data);
    if h.width <= 0 || h.height <= 0 { return false; }
    if h.colorType !in CHANNELS { return false; }
    if h.colorType !in BIT_DEPTHS || h.bitDepth !in BIT_DEPTHS[h.colorType] { return false; }
    if h.compression != 0 || h.filtering != 0 || (h.interlace != 0 && h.interlace != 1) { return false; }
    if h.colorType == 3 && Plte !in Kinds(cs) { return false; }
    if Plte in Kinds(cs) {
      IndexMeaning(Plte, Kinds(cs));
      var palette := cs[Index(Plte, Kinds(cs))].data;
      if palette == [] || |palette| % 3 != 0 || |palette| > 768 { return false; }
    }
    var compressed := JoinImageData(cs);
    ok := ValidateScanlines(inflate, compressed, h.width, h.height, h.bitDepth, CHANNELS[h.colorType], h.interlace);
  }

  /**
   The checker returns an image exactly for the files that encode a sound chunk
   list; anything else it refuses.
   */
  method ParsePng(crc: Crc, inflate: Inflate, payload: seq<Byte>) returns (r: Option<Image>)
    ensures r.Some? ==> exists cs :: Encodes(crc, inflate, payload, cs) && r.value == ImageOf(cs)
    ensures r.None? ==> forall cs :: !Encodes(crc, inflate, payload, cs)
  {
    hide ReadAll, Serialize, Framed, OrderChecks, Canonical, GoodHeader, PaletteOk, Decodes, HeaderOf, ImageData;
    var file := ReadChunks(crc, payload);
    FileMeaning(crc, payload);
    if file.None? { return None; }
    var chunks := file.value;
    var kinds := Kinds(chunks);
    OrderLanguage(kinds);
    NothingIsNotSound(inflate, chunks);
    if chunks == [] || |chunks[0].data| != 13 { return None; }
    if !OrderChecks(kinds) { return None; }
    if chunks[|chunks| - 1].data != [] { return None; }
    var ok := CheckImage(inflate, chunks);
    if !ok { return None; }
    assert Encodes(crc, inflate, payload, chunks);
    return Some(ImageOf(chunks));
  }

  lemma NothingIsNotSound(inflate: Inflate, cs: seq<Chunk>)
    ensures Sound(inflate, cs) ==> cs != []
  {
  }

  /** Reading a file succeeds with the chunks it is made of, and with no others. */
  lemma FileMeaning(crc: Crc, payload: seq<Byte>)
    ensures forall cs :: ReadFile(crc, payload) == Some(cs) <==> Framed(cs) && payload == SIGNATURE + Serialize(crc, cs)
  {
    hide ReadAll, Serialize, GoodData;
    forall cs ensures ReadFile(crc, payload) == Some(cs) <==> Framed(cs) && payload == SIGNATURE + Serialize(crc, cs) {
      var n := |SIGNATURE|;
      if SIGNATURE <= payload {
        ReadsExactlySerializations(crc, payload[n..], cs);
        assert payload == SIGNATURE + payload[n..];
      }
      if Framed(cs) && payload == SIGNATURE + Serialize(crc, cs) {
        assert payload[n..] == Serialize(crc, cs);
        assert SIGNATURE <= payload;
      }
    }
  }
}
