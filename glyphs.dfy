/** Glyph width measurement: the pixel scan of `charWidth`, the width sum of `wordWidth`, and the
    global width cache they share. The scan works on an already rasterised buffer; producing
    that buffer (drawing the character white on black with the font) is an input here. */
module Glyphs {
  import opened Config

  type Byte = b: int | 0 <= b < 256

  /** The off-screen buffer one character is drawn into, `width` by `height` pixels at pixel
      density `density`, as the flat RGBA byte array `pixels`. `charWidth` always creates it
      FONT_SIZE pixels wide. */
  datatype Raster = Raster(pixels: seq<Byte>, width: nat, height: nat, density: nat)

  /** The size of the buffer `charWidth` draws one character into:
      `createGraphics(FONT_SIZE, FONT_SIZE * 1.5)`. */
  predicate GlyphBuffer(r: Raster)
  {
    r.width == FONT_SIZE && r.height == FONT_SIZE * 3 / 2
  }

  /** Where the scan reads pixel (x, y): `(y * width + x) * density * 4`. */
  function Offset(r: Raster, x: nat, y: nat): nat
  {
    (y * r.width + x) * r.density * 4
  }

  /** The four channel tests of the scan: a read past the end of `pixels` is JavaScript's
      `undefined`, which differs from both 0 and 255, so it fails whichever test applies. */
  predicate Fails(r: Raster, x: nat, y: nat)
  {
    var off := Offset(r, x, y);
    var missing := off >= |r.pixels|;
    (off % 4 == 0 && (missing || r.pixels[off] != 0))
    || (off % 4 == 1 && (missing || r.pixels[off] != 0))
    || (off % 4 == 2 && (missing || r.pixels[off] != 0))
    || (off % 4 == 3 && (missing || r.pixels[off] != 255))
  }

  /** Some row below `rows` of column `x` fails. */
  predicate ColumnFails(r: Raster, x: nat, rows: nat)
  {
    exists y: nat :: y < rows && Fails(r, x, y)
  }

  /** The greatest column below `n` that has a failing pixel, or 0 when none has. */
  function MaxFailingColumn(r: Raster, n: nat): (m: nat)
    ensures n == 0 || m < n
    ensures m > 0 ==> ColumnFails(r, m, r.height)
    ensures forall x: nat :: m < x < n ==> !ColumnFails(r, x, r.height)
    decreases n
  {
    if n == 0 then 0
    else if ColumnFails(r, n - 1, r.height) then n - 1
    else MaxFailingColumn(r, n - 1)
  }

  /** The width `charWidth` finds for a character rasterised as `r`: in [0, FONT_SIZE - 1] for
      the FONT_SIZE-wide buffer it uses. */
  function Measure(r: Raster): (m: nat)
    ensures r.width == 0 || m < r.width
  {
    MaxFailingColumn(r, r.width)
  }

  /** The nested x/y scan of `charWidth` over the whole buffer. */
  method ScanColumns(r: Raster) returns (maxX: nat)
    ensures maxX == Measure(r)
  {
    maxX := 0;
    var x: nat := 0;
    while x < r.width
      invariant x <= r.width
      invariant maxX == MaxFailingColumn(r, x)
    {
      var y: nat := 0;
      while y < r.height
        invariant y <= r.height
        invariant maxX == if ColumnFails(r, x, y) then x else MaxFailingColumn(r, x)
      {
        if Fails(r, x, y) {
          maxX := if x > maxX then x else maxX;
        }
        y := y + 1;
      }
      x := x + 1;
    }
  }

  /** With an integer density every offset is a multiple of 4, so only the red test can fire. */
  lemma OnlyRedTestApplies(r: Raster, x: nat, y: nat)
    ensures Offset(r, x, y) % 4 == 0
    ensures Fails(r, x, y) <==> Offset(r, x, y) >= |r.pixels| || r.pixels[Offset(r, x, y)] != 0
  {
    var k := (y * r.width + x) * r.density;
    assert Offset(r, x, y) == 4 * k;
  }

  lemma MulMono(a: nat, b: nat, c: nat)
    requires a <= b
    ensures a * c <= b * c
  {
  }

  lemma MulStrictMono(a: nat, b: nat, c: nat)
    requires a < b && c >= 1
    ensures a * c < b * c
  {
  }

  /** A buffer of the size p5 allocates (4 bytes per device pixel, `density` device pixels per
      logical pixel in each direction) is never read past its end. */
  lemma {:induction false} ScanStaysInBounds(r: Raster, x: nat, y: nat)
    requires r.density >= 1
    requires |r.pixels| == 4 * (r.width * r.density) * (r.height * r.density)
    requires x < r.width && y < r.height
    ensures Offset(r, x, y) < |r.pixels|
  {
    var d, w, h := r.density, r.width, r.height;
    var cell := y * w + x;
    MulMono(y + 1, h, w);
    assert cell < h * w;
    MulStrictMono(cell, h * w, d);
    MulMono(1, d, h * w * d);
    assert h * w * d <= h * w * d * d;
    assert Offset(r, x, y) == cell * d * 4;
    assert |r.pixels| == h * w * d * d * 4;
  }

  /** The advance `wordWidth` gives one character. */
  function Advance(glyphs: char -> Raster, c: char): real
  {
    if c == ' ' then SPACE_WIDTH else Measure(glyphs(c)) as real + LETTER_SPACING
  }

  /** `wordWidth` as a function: the advances summed from the first character on. */
  function Width(glyphs: char -> Raster, word: string): (r: real)
    ensures r >= 0.0
    decreases |word|
  {
    if word == [] then 0.0
    else Width(glyphs, word[..|word| - 1]) + Advance(glyphs, word[|word| - 1])
  }

  /** A width is additive over concatenation; a space is SPACE_WIDTH, any other character its
      measured width plus LETTER_SPACING. */
  lemma {:induction false} WidthAdditive(glyphs: char -> Raster, a: string, b: string)
    ensures Width(glyphs, a + b) == Width(glyphs, a) + Width(glyphs, b)
    ensures Width(glyphs, []) == 0.0
    ensures Width(glyphs, [' ']) == SPACE_WIDTH
    decreases |b|
  {
    assert [] + [' '] == [' '];
    if b == [] {
      assert a + b == a;
    } else {
      var b' := b[..|b| - 1];
      assert (a + b)[..|a + b| - 1] == a + b';
      WidthAdditive(glyphs, a, b');
    }
  }

  lemma {:induction false} WidthOfSingle(glyphs: char -> Raster, c: char)
    ensures Width(glyphs, [c]) == Advance(glyphs, c)
    ensures c == ' ' ==> Width(glyphs, [c]) == SPACE_WIDTH
    ensures c != ' ' ==> Width(glyphs, [c]) == Measure(glyphs(c)) as real + LETTER_SPACING
  {
    assert [c][..0] == [];
  }

  /** The characters `wordWidth` asks `charWidth` for. */
  function MeasuredChars(word: string): set<char>
  {
    set c | c in word && c != ' '
  }

  lemma PrefixStep(glyphs: char -> Raster, word: string, i: nat)
    requires i < |word|
    ensures Width(glyphs, word[..i + 1]) == Width(glyphs, word[..i]) + Advance(glyphs, word[i])
    ensures MeasuredChars(word[..i + 1])
            == MeasuredChars(word[..i]) + (if word[i] == ' ' then {} else {word[i]})
  {
    assert word[..i + 1][..i] == word[..i];
    assert word[..i + 1] == word[..i] + [word[i]];
  }

  /** The cache invariant: every character is rasterised into a FONT_SIZE-wide buffer; every
      cached width is the measured one; every scanned character is cached; a character whose
      width is non-zero has been scanned at most once. */
  ghost predicate Consistent(glyphs: char -> Raster, widths: map<char, nat>, scans: seq<char>)
  {
    && (forall c {:trigger GlyphBuffer(glyphs(c))} :: GlyphBuffer(glyphs(c)))
    && (forall c :: c in widths ==> widths[c] == Measure(glyphs(c)))
    && (forall c :: c in scans ==> c in widths)
    && (forall c :: multiset(scans)[c] > 1 ==> Measure(glyphs(c)) == 0)
  }

  /** Storing the scan of a character that has no truthy entry keeps the cache consistent: a
      character is scanned again only when its width is 0. */
  lemma StoreScan(glyphs: char -> Raster, widths: map<char, nat>, scans: seq<char>, c: char)
    requires Consistent(glyphs, widths, scans)
    requires c !in widths || widths[c] == 0
    ensures Consistent(glyphs, widths[c := Measure(glyphs(c))], scans + [c])
  {
    assert c !in widths ==> multiset(scans)[c] == 0;
  }

  /** The global glyph-width cache together with the rasteriser that fills it. `scans` records,
      in order, every character the scan was run for. */
  class GlyphCache {
    const glyphs: char -> Raster
    var widths: map<char, nat>
    ghost var scans: seq<char>

    ghost predicate Valid()
      reads this
    {
      Consistent(glyphs, widths, scans)
    }

    constructor (rasterise: char -> Raster)
      requires forall c :: GlyphBuffer(rasterise(c))
      ensures Valid() && glyphs == rasterise && widths == map[] && scans == []
    {
      glyphs := rasterise;
      widths := map[];
      scans := [];
    }

    /** `charWidth`: a truthy (non-zero) cached width is returned as is; otherwise the buffer
        is scanned and the result stored under `c`, and under no other key. */
    method CharWidth(c: char) returns (w: nat)
      requires Valid()
      modifies this
      ensures Valid()
      ensures w == Measure(glyphs(c)) && w < FONT_SIZE
      ensures if c in old(widths) && old(widths)[c] != 0
              then widths == old(widths) && scans == old(scans)
              else widths == old(widths)[c := w] && scans == old(scans) + [c]
    {
      assert GlyphBuffer(glyphs(c));
      if c in widths && widths[c] != 0 {
        w := widths[c];
      } else {
        StoreScan(glyphs, widths, scans, c);
        w := ScanColumns(glyphs(c));
        widths := widths[c := w];
        scans := scans + [c];
      }
    }

    /** `wordWidth`: the sum of the advances of `word`, measuring each non-space character
        through the cache. */
    method WordWidth(word: string) returns (sum: real)
      requires Valid()
      modifies this
      ensures Valid()
      ensures sum == Width(glyphs, word)
      ensures widths.Keys == old(widths).Keys + MeasuredChars(word)
      ensures old(widths).Keys <= widths.Keys
    {
      sum := 0.0;
      var i := 0;
      while i < |word|
        invariant i <= |word|
        invariant Valid()
        invariant sum == Width(glyphs, word[..i])
        invariant widths.Keys == old(widths).Keys + MeasuredChars(word[..i])
        invariant old(widths).Keys <= widths.Keys
      {
        PrefixStep(glyphs, word, i);
        var advance := CharAdvance(word[i]);
        sum := sum + advance;
        i := i + 1;
      }
      assert word[..i] == word;
    }

    /** One character of `wordWidth`'s sum: SPACE_WIDTH for a space, which is never measured,
        otherwise the width from `charWidth` plus LETTER_SPACING. */
    method CharAdvance(c: char) returns (advance: real)
      requires Valid()
      modifies this
      ensures Valid()
      ensures advance == Advance(glyphs, c)
      ensures widths.Keys == old(widths).Keys + (if c == ' ' then {} else {c})
    {
      if c == ' ' {
        advance := SPACE_WIDTH;
      } else {
        var w := CharWidth(c);
        advance := w as real + LETTER_SPACING;
      }
    }
  }
}
