/**
 What a header says about the size of its image data, after sections 2.3, 2.6 and 3.2
 of RFC 2083: how many bytes a scanline takes, and how many the whole image.
 */
module PngSizes {
  import opened Basics
  import opened Sequences
  import opened PngPasses
  import opened PngChunks
  import opened PngFile

  /* ---------------- the header ---------------- */

  /** The header fields in the order and width they are written in. */
  function EncodeHeader(h: Header): seq<Byte> {
    Be32(h.width) + Be32(h.height) + [h.bitDepth, h.colorType, h.compression, h.filtering, h.interlace]
  }

  /** Reading a header gives what was written, and every 13 bytes are some header. */
  lemma HeaderRoundTrip(h: Header, data: seq<Byte>)
    ensures |EncodeHeader(h)| == 13 && HeaderOf(EncodeHeader(h)) == h
    ensures |data| == 13 ==> EncodeHeader(HeaderOf(data)) == data
  {
    hide Be32, FromBe32;
    var e := EncodeHeader(h);
    Be32RoundTrip(h.width);
    Be32RoundTrip(h.height);
    assert e[..4] == Be32(h.width) && e[4..8] == Be32(h.height);
    if |data| == 13 {
      FromBe32RoundTrip(data[..4]);
      FromBe32RoundTrip(data[4..8]);
      assert data == data[..4] + data[4..8] + [data[8], data[9], data[10], data[11], data[12]];
    }
  }

  /* ---------------- samples and depths ---------------- */

  /** The flags a colour type is the sum of. */
  predicate PaletteUsed(colorType: int) { colorType % 2 == 1 }
  predicate ColorUsed(colorType: int) { colorType / 2 % 2 == 1 }
  predicate AlphaUsed(colorType: int) { colorType / 4 % 2 == 1 }

  /** How many samples a pixel has: an index, or one grey or three colour samples, and perhaps one of alpha. */
  function Samples(colorType: int): nat {
    if PaletteUsed(colorType) then 1 else (if ColorUsed(colorType) then 3 else 1) + (if AlphaUsed(colorType) then 1 else 0)
  }

  /** The colour types accepted are the five that exist, and the table counts their samples. */
  lemma ChannelsMeaning(colorType: nat)
    ensures colorType in CHANNELS <==>
              colorType < 8 && (PaletteUsed(colorType) ==> ColorUsed(colorType) && !AlphaUsed(colorType))
    ensures colorType in CHANNELS ==> CHANNELS[colorType] == Samples(colorType)
  {
    if colorType < 8 {
      assert colorType in {0, 1, 2, 3, 4, 5, 6, 7};
    }
  }

  /** Depths are powers of two up to 16; an index has at most 8 bits, and one of several samples at least 8. */
  lemma DepthsMeaning(colorType: nat, bitDepth: nat)
    requires colorType in CHANNELS
    ensures colorType in BIT_DEPTHS
    ensures bitDepth in BIT_DEPTHS[colorType] <==>
              && bitDepth in {1, 2, 4, 8, 16}
              && (PaletteUsed(colorType) ==> bitDepth <= 8)
              && (Samples(colorType) > 1 ==> bitDepth >= 8)
  {
  }

  /* ---------------- scanlines ---------------- */

  /** The least number of bytes that holds so many bits. */
  ghost predicate HoldsBits(bytes: nat, bits: nat) { 8 * bytes >= bits && 8 * (bytes - 1) < bits }

  lemma HoldsOne(bits: nat, a: nat, b: nat)
    requires HoldsBits(a, bits) && HoldsBits(b, bits)
    ensures a == b
  {
  }

  /** A line of each pass is as long as the samples of its pixels take, and there are as many as the pass is high. */
  ghost predicate LinesFit(h: Header, passes: seq<Size>, rows: seq<Lines>) {
    && |rows| == |passes|
    && forall i :: 0 <= i < |rows| ==>
         HoldsBits(rows[i].bytes, passes[i].width * Samples(h.colorType) * h.bitDepth) && rows[i].count == passes[i].height
  }

  lemma LinesMeaning(h: Header)
    requires h.colorType in CHANNELS
    ensures LinesFit(h, Passes(h.width, h.height, h.interlace), LinesFor(h))
  {
    hide Passes, Samples;
    var passes := Passes(h.width, h.height, h.interlace);
    ChannelsMeaning(h.colorType);
    forall i | 0 <= i < |passes|
      ensures HoldsBits(LinesFor(h)[i].bytes, passes[i].width * Samples(h.colorType) * h.bitDepth)
    {
      RoundedUp(passes[i].width * CHANNELS[h.colorType] * h.bitDepth);
    }
  }

  lemma RoundedUp(bits: nat)
    ensures HoldsBits((bits + 7) / 8, bits)
  {
  }

  /** The expected size is a sum: each pass counts for its lines and their filter bytes, wherever it stands. */
  lemma {:induction false} SizeAdds(a: seq<Lines>, b: seq<Lines>)
    ensures ExpectedSize(a + b) == ExpectedSize(a) + ExpectedSize(b)
    ensures ExpectedSize([]) == 0
    ensures |b| == 1 ==> ExpectedSize(b) == b[0].count * (1 + b[0].bytes)
  {
    if b == [] {
      assert a + b == a;
    } else {
      var init := b[..|b| - 1];
      SizeAdds(a, init);
      assert (a + b)[..|a + b| - 1] == a + init;
      if |b| == 1 { assert init == []; }
    }
  }

  /** So many bytes make up this many lines, each with a filter byte and its samples. */
  ghost predicate WholeLines(h: Header, size: nat) {
    exists bytes: nat :: HoldsBits(bytes, h.width * Samples(h.colorType) * h.bitDepth) && size == h.height * (1 + bytes)
  }

  /** The data inflates to exactly the filter bytes and lines of the passes, each line as long as its samples take. */
  ghost predicate SizedRight(inflate: Inflate, h: Header, data: seq<Byte>) {
    && h.colorType in CHANNELS
    && var rows, passes := LinesFor(h), Passes(h.width, h.height, h.interlace);
       var size := ExpectedSize(rows);
       && LinesFit(h, passes, rows)
       && inflate(data, size).Inflated? && |inflate(data, size).decoded| == size
       && (h.interlace == 0 ==> WholeLines(h, size))
  }

  /**
   The image data of an accepted file is sized right: the sum over the passes of an interlaced image, and as many
   lines as the image is high for any other.
   */
  lemma AcceptedInflatesExactly(crc: Crc, inflate: Inflate, payload: seq<Byte>, cs: seq<Chunk>, h: Header)
    requires Encodes(crc, inflate, payload, cs) && cs != [] && |cs[0].data| == 13 && h == HeaderOf(cs[0].data)
    ensures SizedRight(inflate, h, ImageData(cs))
  {
    hide FromBe32, ReadAll, Serialize, Canonical, PaletteOk, KnownFilters, ExpectedSize, Samples, HeaderOf, HoldsBits, LinesFit, LinesFor, ImageData;
    LinesMeaning(h);
    if h.interlace == 0 { WholeImage(h, LinesFor(h)); }
  }

  lemma WholeImage(h: Header, rows: seq<Lines>)
    requires h.interlace == 0 && LinesFit(h, Passes(h.width, h.height, h.interlace), rows)
    ensures WholeLines(h, ExpectedSize(rows))
  {
    hide HoldsBits, Samples;
    assert Passes(h.width, h.height, h.interlace) == [Size(h.width, h.height)];
    SizeAdds([], rows);
  }

  /* ---------------- the image data ---------------- */

  /** The pieces one after the other. */
  function Pieces(cs: seq<Chunk>): seq<Byte> { if cs == [] then [] else cs[0].data + Pieces(cs[1..]) }

  /** The image data are the pieces of the image chunks, in order, and of no others. */
  lemma {:induction false} ImageDataMeaning(before: seq<Chunk>, data: seq<Chunk>, after: seq<Chunk>)
    requires forall c :: c in before || c in after ==> c.kind != Idat
    requires forall c :: c in data ==> c.kind == Idat
    ensures ImageData(before + data + after) == Pieces(data)
  {
    DataAdds(before + data, after);
    DataAdds(before, data);
    NoData(before);
    NoData(after);
    AllData(data);
  }

  lemma {:induction false} DataAdds(a: seq<Chunk>, b: seq<Chunk>)
    ensures ImageData(a + b) == ImageData(a) + ImageData(b)
  {
    if b == [] {
      assert a + b == a;
    } else {
      DataAdds(a, b[..|b| - 1]);
      assert (a + b)[..|a + b| - 1] == a + b[..|b| - 1];
    }
  }

  lemma {:induction false} NoData(cs: seq<Chunk>)
    requires forall c :: c in cs ==> c.kind != Idat
    ensures ImageData(cs) == []
  {
    if cs != [] {
      NoData(cs[..|cs| - 1]);
      assert cs[|cs| - 1] in cs;
    }
  }

  lemma {:induction false} AllData(cs: seq<Chunk>)
    requires forall c :: c in cs ==> c.kind == Idat
    ensures ImageData(cs) == Pieces(cs)
  {
    if cs != [] {
      AllData(cs[1..]);
      assert cs == [cs[0]] + cs[1..] && cs[0] in cs;
      DataAdds([cs[0]], cs[1..]);
    }
  }
}
