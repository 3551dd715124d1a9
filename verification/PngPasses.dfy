/**
 How a PNG image divides into Adam7 passes, and how its decoded data divides into
 scanlines. Sections 2.6 and 6 of RFC 2083 define the passes and the filter bytes.
 */
module PngPasses {
  import opened Basics

  type Byte = b: int | 0 <= b < 256

  datatype Pass = Pass(x0: nat, y0: nat, dx: nat, dy: nat)

  const ADAM7 := [
    Pass(0, 0, 8, 8), Pass(4, 0, 8, 8), Pass(0, 4, 4, 8), Pass(2, 0, 4, 4), Pass(0, 2, 2, 4), Pass(1, 0, 2, 2),
    Pass(0, 1, 1, 2)]

  /** How many of the positions `start, start + step, ...` lie below `size`. */
  function Extent(size: nat, start: nat, step: nat): nat
    requires step > 0
  {
    if size <= start then 0 else (size - start + step - 1) / step
  }

  predicate InPass(p: Pass, x: nat, y: nat)
    requires p.dx > 0 && p.dy > 0
  {
    x % p.dx == p.x0 && y % p.dy == p.y0
  }

  /** The pass a pixel belongs to, decided by its low bits. */
  function PassOf(x: nat, y: nat): (i: nat)
    ensures i < 7
  {
    if y % 2 == 1 then 6
    else if x % 2 == 1 then 5
    else if y % 4 == 2 then 4
    else if x % 4 == 2 then 3
    else if y % 8 == 4 then 2
    else if x % 8 == 4 then 1
    else 0
  }

  /** Every pixel lies in exactly one pass. */
  lemma ExactlyOnePass(x: nat, y: nat, i: nat)
    requires i < 7
    ensures ADAM7[i].dx > 0 && ADAM7[i].dy > 0
    ensures InPass(ADAM7[i], x, y) <==> i == PassOf(x, y)
  {
    LowBits(x);
    LowBits(y);
    if i == 0 { PassBits(0, x % 8, y % 8); }
    else if i == 1 { PassBits(1, x % 8, y % 8); }
    else if i == 2 { PassBits(2, x % 8, y % 8); }
    else if i == 3 { PassBits(3, x % 8, y % 8); }
    else if i == 4 { PassBits(4, x % 8, y % 8); }
    else if i == 5 { PassBits(5, x % 8, y % 8); }
    else { PassBits(6, x % 8, y % 8); }
  }

  lemma LowBits(x: nat)
    ensures x % 8 % 4 == x % 4 && x % 8 % 2 == x % 2
  {
    var q, r := x / 8, x % 8;
    assert x == r % 4 + (2 * q + r / 4) * 4 && x == r % 2 + (4 * q + r / 2) * 2;
    Residue(r % 4, 2 * q + r / 4, 4);
    Residue(r % 2, 4 * q + r / 2, 2);
  }

  lemma PassBits(i: nat, a: nat, b: nat)
    requires i < 7 && a < 8 && b < 8
    ensures InPass(ADAM7[i], a, b) <==> i == PassOf(a, b)
  {
  }

  /** The columns of a pass are those below its extent. */
  lemma ExtentMeaning(size: nat, start: nat, step: nat, k: nat)
    requires step > 0
    ensures k < Extent(size, start, step) <==> start + k * step < size
  {
    if size > start {
      var n := Extent(size, start, step);
      assert n * step <= size - start + step - 1 < n * step + step;
      Times(k, n, step);
      Times(n, k, step);
    }
  }

  lemma {:induction false} Times(a: nat, b: nat, c: nat)
    ensures a < b ==> a * c + c <= b * c
    ensures a <= b ==> a * c <= b * c
  {
    if a < b {
      Times(a, b - 1, c);
      assert b * c == (b - 1) * c + c;
    }
  }

  function PassWidth(width: nat, i: nat): nat requires i < 7 { Extent(width, ADAM7[i].x0, ADAM7[i].dx) }
  function PassHeight(height: nat, i: nat): nat requires i < 7 { Extent(height, ADAM7[i].y0, ADAM7[i].dy) }

  /** The cells of a pass are its pixels: cell (c, r) is the pixel the pass reaches after c and r steps. */
  lemma CellsArePixels(width: nat, height: nat, i: nat, c: nat, r: nat)
    requires i < 7
    ensures
      var x, y := ADAM7[i].x0 + c * ADAM7[i].dx, ADAM7[i].y0 + r * ADAM7[i].dy;
      && PassOf(x, y) == i
      && (c < PassWidth(width, i) && r < PassHeight(height, i) <==> x < width && y < height)
  {
    hide PassOf, Extent;
    var p := ADAM7[i];
    ExtentMeaning(width, p.x0, p.dx, c);
    ExtentMeaning(height, p.y0, p.dy, r);
    var x, y := p.x0 + c * p.dx, p.y0 + r * p.dy;
    Residue(p.x0, c, p.dx);
    Residue(p.y0, r, p.dy);
    ExactlyOnePass(x, y, i);
  }

  lemma Residue(start: nat, k: nat, step: nat)
    requires start < step
    ensures (start + k * step) % step == start
  {
    var n := start + k * step;
    assert n == n / step * step + n % step;
    Times(k, n / step, step);
    Times(n / step, k, step);
  }

  /* ---------------- the areas add up ---------------- */

  datatype Size = Size(width: nat, height: nat)

  /** The passes that are not empty, in transmission order. */
  function Interlaced(width: nat, height: nat, upTo: nat): seq<Size>
    requires upTo <= 7
  {
    if upTo == 0 then []
    else
      var before, w, h := Interlaced(width, height, upTo - 1), PassWidth(width, upTo - 1), PassHeight(height, upTo - 1);
      if w != 0 && h != 0 then before + [Size(w, h)] else before
  }

  function Passes(width: nat, height: nat, interlace: nat): seq<Size> {
    if interlace == 0 then [Size(width, height)] else Interlaced(width, height, 7)
  }

  method PngPasses(width: nat, height: nat, interlace: nat) returns (passes: seq<Size>)
    ensures passes == Passes(width, height, interlace)
  {
    hide Extent;
    if interlace == 0 { return [Size(width, height)]; }
    passes := [];
    for i := 0 to |ADAM7|
      invariant passes == Interlaced(width, height, i)
    {
      var p := ADAM7[i];
      var passWidth, passHeight := Extent(width, p.x0, p.dx), Extent(height, p.y0, p.dy);
      if passWidth != 0 && passHeight != 0 {
        passes := passes + [Size(passWidth, passHeight)];
      }
    }
  }

  function Area(passes: seq<Size>): nat {
    if passes == [] then 0
    else Area(passes[..|passes| - 1]) + passes[|passes| - 1].width * passes[|passes| - 1].height
  }

  lemma InterlacedArea(width: nat, height: nat, upTo: nat)
    requires 0 < upTo <= 7
    ensures Area(Interlaced(width, height, upTo)) ==
            Area(Interlaced(width, height, upTo - 1)) + PassWidth(width, upTo - 1) * PassHeight(height, upTo - 1)
  {
    hide PassWidth, PassHeight;
    var before, w, h := Interlaced(width, height, upTo - 1), PassWidth(width, upTo - 1), PassHeight(height, upTo - 1);
    assert (before + [Size(w, h)])[..|before|] == before;
    if w == 0 || h == 0 { assert w * h == 0; }
  }

  lemma DivIs(a: nat, b: nat, q: nat)
    requires b > 0 && q * b <= a < q * b + b
    ensures a / b == q
  {
    assert a == a / b * b + a % b;
    Times(q, a / b, b);
    Times(a / b, q, b);
  }

  lemma ExtentIs(size: nat, start: nat, step: nat, n: nat)
    requires step > 0
    requires if n == 0 then size <= start else start + (n - 1) * step < size <= start + (n - 1) * step + step
    ensures Extent(size, start, step) == n
  {
    if n > 0 {
      assert n * step == (n - 1) * step + step;
      DivIs(size - start + step - 1, step, n);
    }
  }

  /** The extent in terms of quotient and remainder. */
  lemma ExtentAt(size: nat, start: nat, step: nat, q: nat, r: nat)
    requires start < step && r < step && size == q * step + r
    ensures Extent(size, start, step) == q + if r > start then 1 else 0
  {
    hide Extent;
    assert q > 0 ==> (q - 1) * step == q * step - step;
    ExtentIs(size, start, step, q + if r > start then 1 else 0);
  }

  /** Every second position, and the others: halving a step splits an extent in two. */
  lemma HalvedAt(n: nat, step: nat, q: nat, r: nat)
    requires r < 2 * step && n == q * (2 * step) + r
    ensures Extent(n, 0, 2 * step) + Extent(n, step, 2 * step) == Extent(n, 0, step)
  {
    hide Extent;
    Doubled(q, step);
    ExtentAt(n, 0, 2 * step, q, r);
    ExtentAt(n, step, 2 * step, q, r);
    if r < step { ExtentAt(n, 0, step, 2 * q, r); } else { ExtentAt(n, 0, step, 2 * q + 1, r - step); }
  }

  lemma Doubled(q: nat, step: nat)
    ensures q * (2 * step) == 2 * q * step && (2 * q + 1) * step == 2 * q * step + step
  {
  }

  lemma Halves(n: nat)
    ensures Extent(n, 0, 8) + Extent(n, 4, 8) == Extent(n, 0, 4)
    ensures Extent(n, 0, 4) + Extent(n, 2, 4) == Extent(n, 0, 2)
    ensures Extent(n, 0, 2) + Extent(n, 1, 2) == Extent(n, 0, 1) == n
  {
    hide Extent;
    assert n == n / 8 * 8 + n % 8 && n == n / 4 * 4 + n % 4 && n == n / 2 * 2 + n % 2;
    HalvedAt(n, 4, n / 8, n % 8);
    HalvedAt(n, 2, n / 4, n % 4);
    HalvedAt(n, 1, n / 2, n % 2);
    ExtentIs(n, 0, 1, n);
  }

  lemma Join(a: nat, b: nat, c: nat, h: nat)
    requires a + b == c
    ensures a * h + b * h == c * h
  {
  }

  /** Interlaced or not, the passes hold as many pixels as the image. */
  lemma PassesCoverImage(width: nat, height: nat, interlace: nat)
    ensures Area(Passes(width, height, interlace)) == width * height
  {
    if interlace == 0 {
      assert [Size(width, height)][..0] == [];
    } else {
      Halves(width);
      Halves(height);
      PassSum(width, height);
      PassTable(width, height);
      hide Extent, PassWidth, PassHeight;
      Join(Extent(width, 0, 8), Extent(width, 4, 8), Extent(width, 0, 4), Extent(height, 0, 8));
      Join(Extent(height, 0, 8), Extent(height, 4, 8), Extent(height, 0, 4), Extent(width, 0, 4));
      Join(Extent(width, 0, 4), Extent(width, 2, 4), Extent(width, 0, 2), Extent(height, 0, 4));
      Join(Extent(height, 0, 4), Extent(height, 2, 4), Extent(height, 0, 2), Extent(width, 0, 2));
      Join(Extent(width, 0, 2), Extent(width, 1, 2), Extent(width, 0, 1), Extent(height, 0, 2));
      Join(Extent(height, 0, 2), Extent(height, 1, 2), Extent(height, 0, 1), Extent(width, 0, 1));
    }
  }

  lemma PassSum(width: nat, height: nat)
    ensures Area(Interlaced(width, height, 7)) ==
            PassWidth(width, 0) * PassHeight(height, 0) + PassWidth(width, 1) * PassHeight(height, 1) +
            PassWidth(width, 2) * PassHeight(height, 2) + PassWidth(width, 3) * PassHeight(height, 3) +
            PassWidth(width, 4) * PassHeight(height, 4) + PassWidth(width, 5) * PassHeight(height, 5) +
            PassWidth(width, 6) * PassHeight(height, 6)
  {
    hide Interlaced, PassWidth, PassHeight;
    assert Area(Interlaced(width, height, 0)) == 0 by { NoPasses(width, height); }
    InterlacedArea(width, height, 1);
    InterlacedArea(width, height, 2);
    InterlacedArea(width, height, 3);
    InterlacedArea(width, height, 4);
    InterlacedArea(width, height, 5);
    InterlacedArea(width, height, 6);
    InterlacedArea(width, height, 7);
  }

  lemma NoPasses(width: nat, height: nat)
    ensures Area(Interlaced(width, height, 0)) == 0
  {
  }

  lemma PassTable(width: nat, height: nat)
    ensures PassWidth(width, 0) == Extent(width, 0, 8) && PassHeight(height, 0) == Extent(height, 0, 8)
    ensures PassWidth(width, 1) == Extent(width, 4, 8) && PassHeight(height, 1) == Extent(height, 0, 8)
    ensures PassWidth(width, 2) == Extent(width, 0, 4) && PassHeight(height, 2) == Extent(height, 4, 8)
    ensures PassWidth(width, 3) == Extent(width, 2, 4) && PassHeight(height, 3) == Extent(height, 0, 4)
    ensures PassWidth(width, 4) == Extent(width, 0, 2) && PassHeight(height, 4) == Extent(height, 2, 4)
    ensures PassWidth(width, 5) == Extent(width, 1, 2) && PassHeight(height, 5) == Extent(height, 0, 2)
    ensures PassWidth(width, 6) == Extent(width, 0, 1) && PassHeight(height, 6) == Extent(height, 1, 2)
  {
    hide Extent;
  }

  /* ---------------- scanlines ---------------- */

  /** The scanlines of one pass: a filter byte and `bytes` more, `count` times. */
  datatype Lines = Lines(bytes: nat, count: nat)

  function LinesOf(passes: seq<Size>, channels: nat, bitDepth: nat): (r: seq<Lines>)
    ensures |r| == |passes|
  {
    seq(|passes|, i requires 0 <= i < |passes| =>
      Lines((passes[i].width * channels * bitDepth + 7) / 8, passes[i].height))
  }

  function ExpectedSize(rows: seq<Lines>): nat {
    if rows == [] then 0
    else ExpectedSize(rows[..|rows| - 1]) + (rows[|rows| - 1].bytes + 1) * rows[|rows| - 1].count
  }

  function LineStart(base: nat, k: nat, bytes: nat): nat { base + k * (bytes + 1) }

  function PassStarts(base: nat, lines: Lines): seq<nat> {
    seq(lines.count, k requires 0 <= k => LineStart(base, k, lines.bytes))
  }

  /** Where the filter bytes stand. */
  function Starts(rows: seq<Lines>): seq<nat> {
    if rows == [] then []
    else Starts(rows[..|rows| - 1]) + PassStarts(ExpectedSize(rows[..|rows| - 1]), rows[|rows| - 1])
  }

  lemma PassStartsInside(base: nat, lines: Lines)
    ensures
      var s := PassStarts(base, lines);
      && (forall k :: 0 <= k < |s| ==> base <= s[k] < base + (lines.bytes + 1) * lines.count)
      && (forall k :: 0 < k < |s| ==> s[k - 1] < s[k])
  {
    var step := lines.bytes + 1;
    forall k | 0 <= k < lines.count ensures base <= LineStart(base, k, lines.bytes) < base + step * lines.count {
      Times(k, lines.count, step);
    }
    forall k | 0 < k < lines.count ensures LineStart(base, k - 1, lines.bytes) < LineStart(base, k, lines.bytes) {
      Times(k - 1, k, step);
    }
  }

  /** Filter bytes stand inside the decoded data, in increasing order. */
  lemma {:induction false} StartsInside(rows: seq<Lines>)
    ensures forall k :: 0 <= k < |Starts(rows)| ==> Starts(rows)[k] < ExpectedSize(rows)
    ensures forall k :: 0 < k < |Starts(rows)| ==> Starts(rows)[k - 1] < Starts(rows)[k]
  {
    hide PassStarts;
    if rows != [] {
      StartsInside(rows[..|rows| - 1]);
      PassStartsInside(ExpectedSize(rows[..|rows| - 1]), rows[|rows| - 1]);
    }
  }

  predicate KnownFilters(decoded: seq<Byte>, starts: seq<nat>) {
    forall k :: 0 <= k < |starts| ==> starts[k] < |decoded| && decoded[starts[k]] <= 4
  }

  /** Steps over the scanlines of one pass. */
  method WalkPass(decoded: seq<Byte>, base: nat, lines: Lines) returns (ok: bool, offset: nat)
    requires base + (lines.bytes + 1) * lines.count <= |decoded|
    ensures ok <==> KnownFilters(decoded, PassStarts(base, lines))
    ensures ok ==> offset == base + (lines.bytes + 1) * lines.count
  {
    hide LineStart, PassStarts;
    offset := base;
    ghost var starts := PassStarts(base, lines);
    FirstLine(base, lines);
    for j := 0 to lines.count
      invariant offset == LineStart(base, j, lines.bytes)
      invariant KnownFilters(decoded, starts[..j])
    {
      NextLine(base, lines, j);
      assert starts[..j + 1] == starts[..j] + [offset];
      if decoded[offset] > 4 {
        assert starts[j] == offset;
        return false, offset;
      }
      offset := offset + lines.bytes + 1;
    }
    assert starts[..lines.count] == starts;
    return true, offset;
  }

  lemma FirstLine(base: nat, lines: Lines)
    ensures |PassStarts(base, lines)| == lines.count && LineStart(base, 0, lines.bytes) == base
    ensures LineStart(base, lines.count, lines.bytes) == base + (lines.bytes + 1) * lines.count
  {
  }

  lemma NextLine(base: nat, lines: Lines, j: nat)
    requires j < lines.count
    ensures |PassStarts(base, lines)| == lines.count && PassStarts(base, lines)[j] == LineStart(base, j, lines.bytes)
    ensures LineStart(base, j + 1, lines.bytes) == LineStart(base, j, lines.bytes) + lines.bytes + 1
    ensures LineStart(base, j, lines.bytes) < base + (lines.bytes + 1) * lines.count
  {
    Times(j, lines.count, lines.bytes + 1);
    assert (j + 1) * (lines.bytes + 1) == j * (lines.bytes + 1) + (lines.bytes + 1);
  }

  /** Steps over every scanline, and ends at the end of the data when all filter bytes are known filters. */
  method WalkScanlines(decoded: seq<Byte>, rows: seq<Lines>) returns (ok: bool, end: nat)
    requires |decoded| == ExpectedSize(rows)
    ensures ok <==> KnownFilters(decoded, Starts(rows))
    ensures ok ==> end == |decoded|
  {
    hide PassStarts, Starts, ExpectedSize, KnownFilters;
    end := 0;
    NoScanlines(decoded, rows);
    for i := 0 to |rows|
      invariant end == ExpectedSize(rows[..i])
      invariant KnownFilters(decoded, Starts(rows[..i]))
    {
      OnePass(decoded, rows, i);
      ok, end := WalkPass(decoded, end, rows[i]);
      if !ok { return false, end; }
    }
    assert rows[..|rows|] == rows;
    return true, end;
  }

  lemma NoScanlines(decoded: seq<Byte>, rows: seq<Lines>)
    ensures ExpectedSize(rows[..0]) == 0 && KnownFilters(decoded, Starts(rows[..0]))
  {
  }

  /** One more pass: its bytes fit, and its filter bytes join those before it. */
  lemma OnePass(decoded: seq<Byte>, rows: seq<Lines>, i: nat)
    requires i < |rows|
    ensures ExpectedSize(rows[..i + 1]) == ExpectedSize(rows[..i]) + (rows[i].bytes + 1) * rows[i].count <= ExpectedSize(rows)
    ensures KnownFilters(decoded, Starts(rows[..i + 1])) <==>
            KnownFilters(decoded, Starts(rows[..i])) && KnownFilters(decoded, PassStarts(ExpectedSize(rows[..i]), rows[i]))
    ensures KnownFilters(decoded, Starts(rows)) ==> KnownFilters(decoded, Starts(rows[..i + 1]))
  {
    hide PassStarts, KnownFilters, Starts, ExpectedSize;
    OneMore(rows, i);
    StartsPrefix(rows, i + 1);
    SizePrefix(rows, i + 1);
    KnownBoth(decoded, Starts(rows[..i]), PassStarts(ExpectedSize(rows[..i]), rows[i]));
    KnownPrefix(decoded, Starts(rows[..i + 1]), Starts(rows));
  }

  lemma OneMore(rows: seq<Lines>, i: nat)
    requires i < |rows|
    ensures Starts(rows[..i + 1]) == Starts(rows[..i]) + PassStarts(ExpectedSize(rows[..i]), rows[i])
    ensures ExpectedSize(rows[..i + 1]) == ExpectedSize(rows[..i]) + (rows[i].bytes + 1) * rows[i].count
  {
    hide PassStarts;
    assert rows[..i + 1][..i] == rows[..i];
  }

  lemma KnownBoth(decoded: seq<Byte>, before: seq<nat>, here: seq<nat>)
    ensures KnownFilters(decoded, before + here) <==> KnownFilters(decoded, before) && KnownFilters(decoded, here)
  {
    assert forall k :: 0 <= k < |before| ==> before[k] == (before + here)[k];
    assert forall k :: 0 <= k < |here| ==> here[k] == (before + here)[|before| + k];
  }

  lemma KnownPrefix(decoded: seq<Byte>, a: seq<nat>, b: seq<nat>)
    requires a <= b
    ensures KnownFilters(decoded, b) ==> KnownFilters(decoded, a)
  {
  }

  lemma {:induction false} SizePrefix(rows: seq<Lines>, n: nat)
    requires n <= |rows|
    ensures ExpectedSize(rows[..n]) <= ExpectedSize(rows)
    decreases |rows|
  {
    if n == |rows| {
      assert rows[..n] == rows;
    } else {
      var init := rows[..|rows| - 1];
      SizePrefix(init, n);
      assert init[..n] == rows[..n];
    }
  }

  lemma {:induction false} StartsPrefix(rows: seq<Lines>, n: nat)
    requires n <= |rows|
    ensures Starts(rows[..n]) <= Starts(rows)
    decreases |rows|
  {
    if n == |rows| {
      assert rows[..n] == rows;
    } else {
      var init := rows[..|rows| - 1];
      StartsPrefix(init, n);
      assert init[..n] == rows[..n];
    }
  }

  /* ---------------- decoding ---------------- */

  const DECODE_MAX_BYTES := 100_000_000

  /** What inflating at most so many bytes of a zlib stream gives. */
  datatype Inflation =
    | BadStream
    | Inflated(decoded: seq<Byte>, unconsumed: bool, atEnd: bool, unused: bool)

  /** The stream inflates to exactly the expected bytes and every filter byte is a known filter. */
  ghost predicate Decodes(inflate: (seq<Byte>, nat) -> Inflation, compressed: seq<Byte>, rows: seq<Lines>) {
    var expected := ExpectedSize(rows);
    && expected <= DECODE_MAX_BYTES
    && match inflate(compressed, expected) {
         case BadStream => false
         case Inflated(decoded, unconsumed, atEnd, unused) =>
           && !unconsumed && atEnd && !unused && |decoded| == expected
           && KnownFilters(decoded, Starts(rows))
       }
  }

  method ValidateScanlines(
    inflate: (seq<Byte>, nat) -> Inflation, compressed: seq<Byte>, width: nat, height: nat, bitDepth: nat,
    channels: nat, interlace: nat)
    returns (ok: bool)
    ensures ok <==> Decodes(inflate, compressed, LinesOf(Passes(width, height, interlace), channels, bitDepth))
  {
    hide Passes;
    var passes := PngPasses(width, height, interlace);
    var rows := LinesOf(passes, channels, bitDepth);
    var expected := ExpectedSize(rows);
    if expected > DECODE_MAX_BYTES { return false; }
    var inflation := inflate(compressed, expected);
    if inflation.BadStream? { return false; }
    if inflation.unconsumed { return false; }
    if !inflation.atEnd { return false; }
    if inflation.unused { return false; }
    if |inflation.decoded| != expected { return false; }
    var end: nat;
    ok, end := WalkScanlines(inflation.decoded, rows);
  }
}
