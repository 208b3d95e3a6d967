/** The layout computed by `renderText`, with the drawing calls taken out: where each revealed
    character goes, whether it is highlighted and drawn, where the speaker name's letters go,
    and whether the "more text" triangle shows. */
module TextLayout {
  import opened Config
  import opened Glyphs
  import opened JsRuntime

  /** Margins of the text inside the dialog box, in pixels. */
  const TEXT_TOP_PADDING: real := 84.0
  const TEXT_LEFT_PADDING: real := 40.0
  const TEXT_LEFT_MARGIN: real := LEFT_MARGIN + TEXT_LEFT_PADDING
  const TEXT_RIGHT_MARGIN: real := TEXT_LEFT_MARGIN
  /** Extra gap between lines, on top of the text's ascent plus descent. */
  const LINE_GAP: real := 5.0

  const SPEAKER_NAME: string := "ADAM"
  const SPEAKER_LEFT_PADDING: real := -20.0
  const SPEAKER_TOP_PADDING: real := -40.0

  /** One entry of a passage's highlight list, as stored in the passage data. */
  datatype Span = Span(start: int, end: int)

  datatype Point = Point(x: real, y: real)

  /** One laid-out character: where its baseline starts, whether it takes the highlight colour,
      and whether it is drawn at all (spaces are not). */
  datatype Glyph = Glyph(ch: char, pos: Point, highlighted: bool, drawn: bool)

  datatype Layout = Layout(speaker: seq<Glyph>, body: seq<Glyph>, moreText: bool)

  /** What the layout depends on besides the passage: the rasteriser behind the width cache,
      `textAscent() + textDescent()`, the canvas width, and the box's top edge `Y`. */
  datatype Env = Env(glyphs: char -> Raster, lineHeight: real, canvasWidth: real, boxY: real)

  function TextOrigin(env: Env): Point
  {
    Point(TEXT_LEFT_MARGIN, env.boxY + TEXT_TOP_PADDING)
  }

  /** The x coordinate past which the next word must go to a new line. */
  function WrapX(env: Env): real
  {
    env.canvasWidth - TEXT_RIGHT_MARGIN
  }

  /** The look-ahead word after the space at `i`:
      `text.substring(i + 1, text.indexOf(" ", i + 1))`. */
  function NextWord(text: string, i: nat): string
    requires i < |text|
  {
    Substring(text, i + 1, IndexOf(text, ' ', i + 1))
  }

  /** The wrap test made after the cursor has moved past character `i` to `x`; the width of the
      one-character string `text[i]` is its Advance (lemma WidthOfSingle). */
  predicate Wraps(env: Env, text: string, i: nat, x: real)
    requires i < |text|
  {
    text[i] == ' '
    && Width(env.glyphs, NextWord(text, i)) + Advance(env.glyphs, text[i]) + x > WrapX(env)
  }

  /** The cursor after character `i`, from the cursor `p` before it. */
  function Step(env: Env, text: string, i: nat, p: Point): Point
    requires i < |text|
  {
    var x := p.x + Advance(env.glyphs, text[i]);
    if Wraps(env, text, i, x) then Point(TEXT_LEFT_MARGIN, p.y + env.lineHeight + LINE_GAP)
    else Point(x, p.y)
  }

  /** The cursor before character `i`. */
  function CursorAt(env: Env, text: string, i: nat): Point
    requires i <= |text|
    decreases i
  {
    if i == 0 then TextOrigin(env) else Step(env, text, i - 1, CursorAt(env, text, i - 1))
  }

  /** The source's test `i >= e.start - 1 && i < e.end - 1`, for some entry `e`. */
  predicate Highlighted(spans: seq<Span>, i: int)
  {
    exists e :: e in spans && e.start - 1 <= i < e.end - 1
  }

  function GlyphAt(env: Env, text: string, spans: seq<Span>, i: nat): Glyph
    requires i < |text|
  {
    Glyph(text[i], CursorAt(env, text, i), Highlighted(spans, i), text[i] != ' ')
  }

  /** The first `n` characters, laid out. */
  function Body(env: Env, text: string, spans: seq<Span>, n: nat): seq<Glyph>
    requires n <= |text|
  {
    if n == 0 then [] else Body(env, text, spans, n - 1) + [GlyphAt(env, text, spans, n - 1)]
  }

  /** The speaker-name cursor before letter `k`. */
  function SpeakerCursor(env: Env, k: nat): Point
    requires k <= |SPEAKER_NAME|
  {
    if k == 0 then
      Point(TEXT_LEFT_MARGIN + SPEAKER_LEFT_PADDING, env.boxY + TEXT_TOP_PADDING + SPEAKER_TOP_PADDING)
    else
      var p := SpeakerCursor(env, k - 1);
      Point(p.x + Advance(env.glyphs, SPEAKER_NAME[k - 1]), p.y)
  }

  /** The first `n` letters of the speaker name, laid out. */
  function Speaker(env: Env, n: nat): seq<Glyph>
    requires n <= |SPEAKER_NAME|
  {
    if n == 0 then []
    else Speaker(env, n - 1) + [Glyph(SPEAKER_NAME[n - 1], SpeakerCursor(env, n - 1), false, true)]
  }

  /** Everything `renderText` positions when `index` characters of `text` are revealed. */
  function LayoutOf(env: Env, text: string, spans: seq<Span>, index: nat): (l: Layout)
    requires index <= |text|
    ensures |l.body| == index && |l.speaker| == |SPEAKER_NAME|
    ensures forall i :: 0 <= i < index ==> l.body[i] == GlyphAt(env, text, spans, i)
    ensures forall k :: 0 <= k < |SPEAKER_NAME| ==>
      l.speaker[k].ch == SPEAKER_NAME[k] && l.speaker[k].pos == SpeakerCursor(env, k)
    ensures l.moreText <==> index == |text| - 1
  {
    BodyAt(env, text, spans, index);
    SpeakerAt(env, |SPEAKER_NAME|);
    Layout(Speaker(env, |SPEAKER_NAME|), Body(env, text, spans, index), index == |text| - 1)
  }

  /** The highlight loop of `renderText`: the fill ends up highlighted when some entry matched. */
  method HighlightFill(spans: seq<Span>, i: int) returns (highlighted: bool)
    ensures highlighted == Highlighted(spans, i)
  {
    highlighted := false;
    var k := 0;
    while k < |spans|
      invariant k <= |spans|
      invariant highlighted <==> exists e :: e in spans[..k] && e.start - 1 <= i < e.end - 1
    {
      assert spans[..k + 1] == spans[..k] + [spans[k]];
      var e := spans[k];
      if i >= e.start - 1 && i < e.end - 1 {
        highlighted := true;
      }
      k := k + 1;
    }
    assert spans[..k] == spans;
  }

  /** The speaker-name loop of `renderText`: each letter at the speaker cursor, which then
      moves right by the letter's width. */
  method LayOutSpeaker(cache: GlyphCache, env: Env) returns (speaker: seq<Glyph>)
    requires cache.Valid() && env.glyphs == cache.glyphs
    modifies cache
    ensures cache.Valid()
    ensures speaker == Speaker(env, |SPEAKER_NAME|)
    ensures old(cache.widths).Keys <= cache.widths.Keys
  {
    speaker := [];
    var cursor := Point(TEXT_LEFT_MARGIN + SPEAKER_LEFT_PADDING,
                        env.boxY + TEXT_TOP_PADDING + SPEAKER_TOP_PADDING);
    var k := 0;
    while k < |SPEAKER_NAME|
      invariant k <= |SPEAKER_NAME|
      invariant cache.Valid() && old(cache.widths).Keys <= cache.widths.Keys
      invariant speaker == Speaker(env, k) && cursor == SpeakerCursor(env, k)
    {
      speaker := speaker + [Glyph(SPEAKER_NAME[k], cursor, false, true)];
      cursor := MoveSpeakerCursor(cache, env, k, cursor);
      k := k + 1;
    }
  }

  /** One step of the speaker-name loop: the cursor moves right by the width of letter `k`. */
  method MoveSpeakerCursor(cache: GlyphCache, env: Env, k: nat, cursor: Point) returns (next: Point)
    requires cache.Valid() && env.glyphs == cache.glyphs && k < |SPEAKER_NAME|
    requires cursor == SpeakerCursor(env, k)
    modifies cache
    ensures cache.Valid()
    ensures next == SpeakerCursor(env, k + 1)
    ensures old(cache.widths).Keys <= cache.widths.Keys
  {
    var w := cache.WordWidth([SPEAKER_NAME[k]]);
    WidthOfSingle(env.glyphs, SPEAKER_NAME[k]);
    next := Point(cursor.x + w, cursor.y);
  }

  /** The cursor update of one iteration of `renderText`'s main loop: advance by the width of
      character `i`, then, at a space, wrap when the look-ahead word would pass the limit. */
  method MoveCursor(cache: GlyphCache, env: Env, text: string, i: nat, cursor: Point) returns (next: Point)
    requires cache.Valid() && env.glyphs == cache.glyphs && i < |text|
    modifies cache
    ensures cache.Valid()
    ensures next == Step(env, text, i, cursor)
    ensures old(cache.widths).Keys <= cache.widths.Keys
  {
    var w := cache.WordWidth([text[i]]);
    WidthOfSingle(env.glyphs, text[i]);
    next := Point(cursor.x + w, cursor.y);
    if text[i] == ' ' {
      var ndi := IndexOf(text, ' ', i + 1);
      var nextWord := Substring(text, i + 1, ndi);
      var nextWidth := cache.WordWidth(nextWord);
      var spaceWidth := cache.WordWidth([text[i]]);
      if nextWidth + spaceWidth + next.x > WrapX(env) {
        next := Point(TEXT_LEFT_MARGIN, next.y + env.lineHeight + LINE_GAP);
      }
    }
  }

  /** The main loop of `renderText`: each of the first `index` characters is placed at the
      cursor with its highlight and drawn flags, then the cursor moves on. */
  method LayOutBody(cache: GlyphCache, env: Env, text: string, spans: seq<Span>, index: nat)
    returns (body: seq<Glyph>)
    requires cache.Valid() && env.glyphs == cache.glyphs && index <= |text|
    modifies cache
    ensures cache.Valid()
    ensures body == Body(env, text, spans, index)
    ensures old(cache.widths).Keys <= cache.widths.Keys
  {
    body := [];
    var cursor := TextOrigin(env);
    var i := 0;
    while i < index
      invariant i <= index
      invariant cache.Valid() && old(cache.widths).Keys <= cache.widths.Keys
      invariant body == Body(env, text, spans, i) && cursor == CursorAt(env, text, i)
    {
      var highlighted := HighlightFill(spans, i);
      body := body + [Glyph(text[i], cursor, highlighted, text[i] != ' ')];
      cursor := MoveCursor(cache, env, text, i, cursor);
      i := i + 1;
    }
  }

  lemma {:induction false} BodyAt(env: Env, text: string, spans: seq<Span>, n: nat)
    requires n <= |text|
    ensures |Body(env, text, spans, n)| == n
    ensures forall i :: 0 <= i < n ==> Body(env, text, spans, n)[i] == GlyphAt(env, text, spans, i)
  {
    if n > 0 {
      BodyAt(env, text, spans, n - 1);
    }
  }

  lemma {:induction false} SpeakerAt(env: Env, n: nat)
    requires n <= |SPEAKER_NAME|
    ensures |Speaker(env, n)| == n
    ensures forall k :: 0 <= k < n ==> Speaker(env, n)[k].ch == SPEAKER_NAME[k]
    ensures forall k :: 0 <= k < n ==> Speaker(env, n)[k].pos == SpeakerCursor(env, k)
  {
    if n > 0 {
      SpeakerAt(env, n - 1);
    }
  }

  /** Exactly `index` characters are placed, character `i` at the cursor reached after the
      first `i`, highlighted iff some entry `e` has `e.start - 1 <= i < e.end - 1`, drawn iff it
      is not a space; the triangle shows iff `index == |text| - 1`. */
  lemma LayoutShape(env: Env, text: string, spans: seq<Span>, index: nat, i: nat)
    requires index <= |text| && i < index
    ensures var l := LayoutOf(env, text, spans, index);
      && |l.body| == index
      && l.body[i].ch == text[i]
      && l.body[i].pos == CursorAt(env, text, i)
      && (l.body[i].highlighted <==> exists e :: e in spans && e.start - 1 <= i < e.end - 1)
      && (l.body[i].drawn <==> text[i] != ' ')
      && (l.moreText <==> index == |text| - 1)
      && |l.speaker| == |SPEAKER_NAME|
  {
    BodyAt(env, text, spans, index);
    SpeakerAt(env, |SPEAKER_NAME|);
  }

  /** Revealing more characters never moves the ones already shown: the layout of a shorter
      prefix is a prefix of the layout of a longer one. */
  lemma PrefixStable(env: Env, text: string, spans: seq<Span>, n: nat, m: nat)
    requires n <= m <= |text|
    ensures |Body(env, text, spans, m)| == m
    ensures Body(env, text, spans, n) == Body(env, text, spans, m)[..n]
  {
    BodyAt(env, text, spans, n);
    BodyAt(env, text, spans, m);
  }

  /** One step never moves the cursor up, nor left of the text margin when it starts right of it. */
  lemma StepMoves(env: Env, text: string, i: nat, p: Point)
    requires env.lineHeight >= 0.0 && i < |text|
    ensures Step(env, text, i, p).y >= p.y
    ensures p.x >= TEXT_LEFT_MARGIN ==> Step(env, text, i, p).x >= TEXT_LEFT_MARGIN
  {
  }

  /** With a non-negative line height the cursor never goes left of the text margin nor above
      the first line. */
  lemma {:induction false} CursorBounds(env: Env, text: string, i: nat)
    requires env.lineHeight >= 0.0 && i <= |text|
    ensures CursorAt(env, text, i).x >= TEXT_LEFT_MARGIN
    ensures CursorAt(env, text, i).y >= TextOrigin(env).y
  {
    if i > 0 {
      CursorBounds(env, text, i - 1);
      StepMoves(env, text, i - 1, CursorAt(env, text, i - 1));
    }
  }

  /** Lines only ever go down. */
  lemma {:induction false} CursorDescends(env: Env, text: string, i: nat, j: nat)
    requires env.lineHeight >= 0.0 && i <= j <= |text|
    ensures CursorAt(env, text, i).y <= CursorAt(env, text, j).y
    decreases j
  {
    if i < j {
      CursorDescends(env, text, i, j - 1);
      CursorStepDown(env, text, j);
    }
  }

  /** One character never moves the cursor up. */
  lemma CursorStepDown(env: Env, text: string, k: nat)
    requires env.lineHeight >= 0.0 && 0 < k <= |text|
    ensures CursorAt(env, text, k - 1).y <= CursorAt(env, text, k).y
  {
    StepMoves(env, text, k - 1, CursorAt(env, text, k - 1));
  }

  /** A non-space character moves the cursor right by its width plus LETTER_SPACING on the same
      line; a space moves it right by SPACE_WIDTH, unless the look-ahead word, another space and
      the new cursor position together pass the wrap limit, in which case the cursor goes to
      the left margin of the next line. */
  lemma LineBreaks(env: Env, text: string, i: nat)
    requires env.lineHeight >= 0.0 && i < |text|
    ensures var p, q := CursorAt(env, text, i), CursorAt(env, text, i + 1);
      && (text[i] != ' ' ==> q == Point(p.x + Measure(env.glyphs(text[i])) as real + LETTER_SPACING, p.y))
      && (text[i] == ' ' ==>
            if Width(env.glyphs, NextWord(text, i)) + SPACE_WIDTH + (p.x + SPACE_WIDTH) > WrapX(env)
            then q == Point(TEXT_LEFT_MARGIN, p.y + env.lineHeight + LINE_GAP)
            else q == Point(p.x + SPACE_WIDTH, p.y))
      && (q.y != p.y <==> text[i] == ' ' && Wraps(env, text, i, p.x + SPACE_WIDTH))
  {
    var p := CursorAt(env, text, i);
    assert CursorAt(env, text, i + 1) == Step(env, text, i, p);
    WidthOfSingle(env.glyphs, text[i]);
  }

  /** The look-ahead word is the text up to the next space; after the last space, JavaScript's
      `substring(i + 1, -1)` swaps its arguments and yields everything up to and including the
      current space, not the remaining word. */
  lemma NextWordLookahead(text: string, i: nat)
    requires i < |text|
    ensures var k := IndexOf(text, ' ', i + 1);
      && (k == -1 ==> NextWord(text, i) == text[..i + 1])
      && (k != -1 ==> NextWord(text, i) == text[i + 1..k] && ' ' !in NextWord(text, i))
  {
    var k := IndexOf(text, ' ', i + 1);
    if k != -1 {
      var w := NextWord(text, i);
      assert w == text[i + 1..k];
      forall j | 0 <= j < |w| ensures w[j] != ' ' {
        assert w[j] == text[i + 1 + j];
      }
    }
  }

  /** The two-space passage "HELLO WORLD" with ten characters revealed: ten placed characters,
      the space at 5 placed but not drawn, and the triangle showing since 10 is the last index. */
  lemma HelloWorld(env: Env)
    ensures var l := LayoutOf(env, "HELLO WORLD", [], 10);
      && |l.body| == 10 && l.body[5].ch == ' ' && !l.body[5].drawn && l.body[4].drawn
      && l.moreText
      && !LayoutOf(env, "HELLO WORLD", [], 9).moreText
  {
    LayoutShape(env, "HELLO WORLD", [], 10, 5);
    LayoutShape(env, "HELLO WORLD", [], 10, 4);
  }

  /** A stored span {start: 5, end: 9} highlights characters 4 to 7, not 3 and not 8. */
  lemma SpanConvention(i: int)
    ensures Highlighted([Span(5, 9)], i) <==> 4 <= i <= 7
  {
    assert Span(5, 9) in [Span(5, 9)];
  }

  /** A buffer with no pixel data: every read is `undefined` and fails, so every character
      measures FONT_SIZE - 1, the widest `charWidth` can report. */
  function Blank(c: char): Raster
  {
    Raster([], FONT_SIZE, FONT_SIZE * 3 / 2, 1)
  }

  /** In a blank buffer the last column fails, so a character advances by 23 + 1.25. */
  lemma BlankAdvance(c: char)
    requires c != ' '
    ensures Advance(Blank, c) == 24.25
  {
    assert Fails(Blank(c), FONT_SIZE - 1, 0);
    assert ColumnFails(Blank(c), FONT_SIZE - 1, Blank(c).height);
  }

  /** A word without spaces measured with blank buffers is 24.25 per character. */
  lemma {:induction false} BlankWidth(word: string)
    requires forall k :: 0 <= k < |word| ==> word[k] != ' '
    ensures Width(Blank, word) == |word| as real * 24.25
    decreases |word|
  {
    if word != [] {
      BlankWidth(word[..|word| - 1]);
      BlankAdvance(word[|word| - 1]);
    }
  }

  /** Along a run without spaces no wrap test is made, so the cursor stays on the first line
      and moves 24.25 per character. */
  lemma {:induction false} BlankRun(env: Env, text: string, i: nat)
    requires env.glyphs == Blank && i <= |text|
    requires forall k :: 0 <= k < i ==> text[k] != ' '
    ensures CursorAt(env, text, i) == Point(TEXT_LEFT_MARGIN + i as real * 24.25, TextOrigin(env).y)
  {
    if i > 0 {
      BlankRun(env, text, i - 1);
      BlankAdvance(text[i - 1]);
    }
  }

  /** A word is never broken, so the cursor can pass the wrap limit by more than one character:
      on a 400-pixel canvas the tenth letter of "WWWWWWWWWW" starts at x = 338.25, beyond the
      limit 280 plus one advance of 24.25. */
  lemma LongWordOverflows()
    ensures var env := Env(Blank, 20.0, 400.0, 0.0);
      CursorAt(env, "WWWWWWWWWW", 9).x > WrapX(env) + Advance(Blank, 'W')
  {
    var env := Env(Blank, 20.0, 400.0, 0.0);
    var text := "WWWWWWWWWW";
    assert forall k :: 0 <= k < 9 ==> text[k] == 'W';
    BlankRun(env, text, 9);
    BlankAdvance('W');
  }

  /** After the last space the look-ahead is the text up to that space (NextWordLookahead), so
      a final word that fits still wraps: in "AAAAAAAAAAAAAAAAAAAAA B" on a 1280-pixel canvas
      B would start at x = 641.25 and end well left of the limit 1160, yet it goes to the next
      line. */
  lemma FinalWordWrapsEarly()
    ensures var env := Env(Blank, 20.0, 1280.0, 0.0);
      var text := "AAAAAAAAAAAAAAAAAAAAA B";
      && CursorAt(env, text, 21).x + SPACE_WIDTH + Advance(Blank, 'B') <= WrapX(env)
      && CursorAt(env, text, 22).y > CursorAt(env, text, 21).y
  {
    var env := Env(Blank, 20.0, 1280.0, 0.0);
    var text := "AAAAAAAAAAAAAAAAAAAAA B";
    assert |text| == 23 && text[21] == ' ' && text[22] == 'B';
    assert forall k :: 0 <= k < 21 ==> text[k] == 'A';
    BlankRun(env, text, 21);
    NextWordLookahead(text, 21);
    assert IndexOf(text, ' ', 22) == -1;
    assert text[..22] == text[..21] + [' '];
    WidthAdditive(Blank, text[..21], [' ']);
    BlankWidth(text[..21]);
    BlankAdvance('B');
    LineBreaks(env, text, 21);
  }
}
