# Metroid Network Station dialogue engine, in Dafny

p5-metroidNetworkStation recreates a Metroid Dread dialogue: the AI "ADAM" speaks over a voice
recording, and a dialog box at the bottom of the screen types out each passage one character at
a time. The passages keep pace with the audio. This project models the engine behind that box:

- **Glyph widths** (`Glyphs`). The game's font reports wrong text widths. So each character is
  drawn white on black into a FONT_SIZE-wide buffer, and its width is the rightmost column with
  a non-black pixel. Widths go into a global cache, and a word's width is the sum of its
  characters' widths plus the fixed letter spacing. A space is always half the font size.
  `GlyphCache` is the cache: a class with a `map<char, nat>` field that `CharWidth` and
  `WordWidth` update.
- **Text layout** (`TextLayout`). `renderText` places the speaker name and the first `index`
  characters of the passage with a greedy word wrap. At each space it looks at the next word
  and starts a new line when that word would pass the right margin. A character is highlighted
  when it falls inside one of the passage's highlight spans. The "more text" triangle shows on
  the passage's last index. The layout is a pure function (`LayoutOf`), and the imperative loops
  (`LayOutSpeaker`, `LayOutBody`, `MoveCursor`, `HighlightFill`) are proved to compute it.
- **Passage state** (`Dialog`). `DialogBox` holds the passage list, the current passage and
  the character index. It offers `advanceChar`, `nextPassage`, `getNextPassageStartTime` (with
  Infinity after the last passage) and `renderText`.
- **Opening animation** (`OpenAnimation`). A white centre line grows outward. Then the frame's
  two halves grow up and down from the box's centre, fading in, with a white flash near the
  end. Only the geometry is modelled.
- **Frame driver** (`Sketch`). `setup` flattens the passage records into three parallel lists.
  `openDialog` runs the opening animation in the 400 ms before the first passage starts. Each
  `draw` frame, once the voice has started and the first passage is due, renders the text,
  reveals a character on even frames, and moves to the next passage once the recording is
  strictly past that passage's start time.

`JsRuntime` gives the JavaScript and p5.js operations the code relies on their exact meaning:

- `String.prototype.indexOf` returns -1 when there is no match.
- `String.prototype.substring` clamps both arguments and swaps them when the first is larger.
- p5's `map` can clamp to its target range, and `constrain` clamps a value.

Widths and times are `real`, so the arithmetic is exact.

Three behaviours of the code are modelled as written:

- **Look-ahead after the last space** (lemma `TextLayout.NextWordLookahead`). After the last
  space of a passage, `indexOf` returns -1. `substring(i + 1, -1)` then swaps its arguments, so
  the look-ahead word is the passage up to and including that space, not the final word. The
  wrap test before the final word therefore measures that prefix. On a passage of one line
  the final word goes to a new line exactly when that prefix is wider than
  `(width - 252) / 2`. On a longer passage the prefix holds at least one full line, so the
  final word almost always wraps. Lemma `TextLayout.FinalWordWrapsEarly` gives an instance.
- **No bound on overflow** (lemma `TextLayout.LongWordOverflows`). Lines break only at
  spaces, so a word wider than the line runs past the wrap limit by any amount. No
  character is kept within one character width of the right text boundary.
- **Highlight spans are one-based** (lemma `TextLayout.SpanConvention`). A span `{start, end}`
  highlights the characters from `start - 1` to `end - 2`.

## Model

| member | source | states |
|---|---|---|
| JsRuntime.IndexOf | dialogbox.js:301 | The result is the first index at or after `from` holding the character. It is -1 exactly when no such index exists. |
| JsRuntime.Substring | dialogbox.js:302 | The result is never longer than the string. For indices in range it is the slice between them, in either order. |
| JsRuntime.SubstringSwaps | dialogbox.js:302 | `substring` gives the same result with its arguments swapped. With a negative end it yields the prefix before `start`. |
| JsRuntime.Constrain | dialogbox.js:99 | The result lies in [lo, hi]. It is the value itself inside the range and the nearer bound outside it. |
| JsRuntime.MapRange | dialogbox.js:66 | `map` sends the source start to the target start and the source end to the target end. Unclamped it is the linear interpolation. Clamped it stays between the two target bounds, whichever is larger. |
| JsRuntime.MapRangeClamped | dialogbox.js:66 | The clamped `map` stays in its target range. It sends everything at or below the source start to the target start and everything at or above the source end to the target end. In between it interpolates linearly. |
| JsRuntime.MapRangeMonotone | dialogbox.js:82 | The clamped `map` onto an increasing range never decreases. |
| Glyphs.MaxFailingColumn | dialogbox.js:398-419 | The result is the greatest column below the bound with a failing pixel in some row, or 0 if no column has one. Every column above it passes. |
| Glyphs.Measure | dialogbox.js:398-419 | A width measured in a buffer `w` pixels wide is below `w`. |
| Glyphs.ScanColumns | dialogbox.js:398-419 | The nested x/y scan with its running maximum returns exactly the measured width of the buffer. |
| Glyphs.OnlyRedTestApplies | dialogbox.js:409-416 | With an integer pixel density every offset is a multiple of 4. Only the red-channel test can then fail, and a pixel fails exactly when its red byte is missing or non-zero. |
| Glyphs.ScanStaysInBounds | dialogbox.js:409 | For a buffer of the size the canvas allocates, every offset the scan reads lies inside the pixel array. |
| Glyphs.Width | dialogbox.js:345-355 | A word's width is never negative. |
| Glyphs.WidthAdditive | dialogbox.js:345-355 | The width of a concatenation is the sum of the widths. The empty word has width 0 and a space has width SPACE_WIDTH. |
| Glyphs.WidthOfSingle | dialogbox.js:347-351 | A one-character word has width SPACE_WIDTH if it is a space, and otherwise its measured width plus LETTER_SPACING. |
| Glyphs.GlyphCache.constructor | sketch.js:61 | The cache starts empty and consistent. Every character's raster has the FONT_SIZE by FONT_SIZE * 1.5 size of the buffer `charWidth` creates. |
| Glyphs.StoreScan | dialogbox.js:421 | Storing a fresh scan under a missing or zero entry keeps every cached width equal to the measured one. A character is scanned again only when its measured width is 0. |
| Glyphs.GlyphCache.CharWidth | dialogbox.js:358-424 | The result is the character's measured width. A truthy cached width is returned without scanning. A missing or zero entry triggers a scan whose result is stored under that character only. Cached widths are always the measured ones. The width is below FONT_SIZE, the buffer's width (dialogbox.js:372), so it is at most 23. |
| Glyphs.GlyphCache.CharAdvance | dialogbox.js:347-351 | One character adds SPACE_WIDTH if it is a space and otherwise its measured width plus LETTER_SPACING. Only a non-space character enters the cache. |
| Glyphs.GlyphCache.WordWidth | dialogbox.js:345-355 | The result is the word's width. The cache additionally holds exactly the word's non-space characters and loses no entry. |
| TextLayout.LayoutOf | dialogbox.js:178-314 | `renderText` places one glyph per revealed character, each being that character at its cursor with its highlight and drawn flags. It places the four letters of "ADAM" at the speaker cursors. The triangle shows exactly at the passage's last index. |
| TextLayout.HighlightFill | dialogbox.js:270-279 | The loop over the passage's spans ends in the highlight colour exactly when some span contains the index. |
| TextLayout.MoveSpeakerCursor | dialogbox.js:247 | The speaker cursor moves right by one letter's width. |
| TextLayout.LayOutSpeaker | dialogbox.js:238-248 | The speaker-name loop places the four letters of "ADAM" at the successive speaker cursors. |
| TextLayout.MoveCursor | dialogbox.js:288-313 | The cursor update of one iteration equals the layout step. It moves right by the character's width, and at a space it wraps when the look-ahead word, a space and the cursor together pass the wrap limit. |
| TextLayout.LayOutBody | dialogbox.js:256-314 | The main loop produces exactly the laid-out first `index` characters. |
| TextLayout.BodyAt | dialogbox.js:260-262 | The laid-out body has one glyph per revealed character. Glyph `i` is character `i` at the cursor reached before it. |
| TextLayout.SpeakerAt | dialogbox.js:241-248 | The speaker layout has one glyph per letter, each at the speaker cursor before it. |
| TextLayout.LayoutShape | dialogbox.js:214-284 | A rendered passage places exactly `index` characters. Character `i` sits at its cursor, is highlighted iff some span `e` has `e.start - 1 <= i < e.end - 1`, and is drawn iff it is not a space. The triangle shows iff `index == len - 1`, and the speaker name has four letters. |
| TextLayout.PrefixStable | dialogbox.js:260-314 | Revealing more characters never moves the ones already shown. A shorter layout is a prefix of a longer one. |
| TextLayout.StepMoves | dialogbox.js:288-313 | A step never moves the cursor up. It never moves the cursor left of the text margin if it started right of it. |
| TextLayout.CursorBounds | dialogbox.js:256-313 | Every cursor is at or right of the text margin, and at or below the first line. |
| TextLayout.CursorDescends | dialogbox.js:307 | A later character is never on a higher line than an earlier one. |
| TextLayout.LineBreaks | dialogbox.js:288-313 | A non-space character moves the cursor right by its measured width plus 1.25 on the same line. A space moves it right by SPACE_WIDTH, unless the look-ahead word's width + SPACE_WIDTH + the new x passes `width - 120`. Then the cursor goes to x = 120 one line height + 5 lower. The line changes only in that case. |
| TextLayout.NextWordLookahead | dialogbox.js:301-302 | Before another space, the look-ahead word is the text up to that space and holds no space. After the last space it is the text up to and including the current space. |
| TextLayout.LongWordOverflows | dialogbox.js:288-313 | On a 400-pixel canvas with 24.25-pixel letters, the tenth letter of a ten-letter word starts at x = 338.25. That is past the wrap limit 280 by more than one letter. |
| TextLayout.FinalWordWrapsEarly | dialogbox.js:300-311 | In "AAAAAAAAAAAAAAAAAAAAA B" on a 1280-pixel canvas, B would fit on the first line, ending at x = 665.5 against a limit of 1160, yet it is placed one line lower. |
| TextLayout.HelloWorld | dialogbox.js:282-284 | In "HELLO WORLD" with ten characters revealed, the space is placed but not drawn, a letter is drawn, and the triangle shows at index 10 but not at 9. |
| TextLayout.SpanConvention | dialogbox.js:275-276 | The span {start: 5, end: 9} highlights exactly characters 4 to 7. |
| Dialog.CharStepBounded | dialogbox.js:171-175 | `advanceChar` adds one exactly while the index is below `len - 1`, and otherwise changes nothing. It never leaves [0, last index]. A second call changes nothing only at the last index. |
| Dialog.RevealAfter | dialogbox.js:171-175 | After `k` calls the index is `min(i + k, last index)`. |
| Dialog.PassageStepFacts | dialogbox.js:155-165 | `nextPassage` on the last passage changes nothing. Otherwise it moves to the next passage with index 0, and the state stays well formed. |
| Dialog.PassagesAfter | dialogbox.js:155-165 | After `k` calls the passage is `min(p + k, last)`. The index is reset exactly when the passage moved. |
| Dialog.NextStartSentinel | dialogbox.js:145-149 | The next start time is finite exactly before the last passage, and then it is the following passage's start. No elapsed time exceeds the Infinity returned on the last passage. |
| Dialog.DialogBox.constructor | dialogbox.js:10-33 | The box starts on passage 0, index 0, showing the first passage's text. Its top edge is at `height - 224 - 20`. |
| Dialog.DialogBox.GetNextPassageStartTime | dialogbox.js:145-149 | The result is finite exactly before the last passage, and then it is the following passage's start time. |
| Dialog.DialogBox.NextPassage | dialogbox.js:155-165 | The new state is one `nextPassage` step from the old one, and the shown text follows the passage. |
| Dialog.DialogBox.AdvanceChar | dialogbox.js:171-175 | The index takes one `advanceChar` step, and the passage and text are unchanged. |
| Dialog.DialogBox.RenderText | dialogbox.js:178-314 | The result is the layout of the current passage with `index` characters revealed, its highlight spans and the box's position. The width cache only grows. |
| OpenAnimation.OpenGeometry | dialogbox.js:52-138 | The box's vertical centre is `height - 132`. The top half ends and the bottom half starts there, both `h` tall and as wide as the frame image, at the left margin. The centre line is centred on the canvas, `2 * sideLength` long, and shown exactly for 0.1 < s < 32. The flash appears exactly for 80 <= s <= 99. The tint alpha lies in [5, 100]. |
| OpenAnimation.SigmaFacts | dialogbox.js:82 | σ lies in [0, 50]. It is 0 up to a slider of 0.01, 50 from 30 on, and never decreases. |
| OpenAnimation.SideLengthBounds | dialogbox.js:86-88 | The line's half-length is between 0 and half the frame width `width - 160`. |
| OpenAnimation.SideLengthMonotone | dialogbox.js:88 | The line's half-length never decreases as the slider grows. |
| OpenAnimation.PanelHeightBounds | dialogbox.js:97 | The panel height is between 0.01 % and 100 % of the frame image's height. It is the minimum up to a slider of 30 and the full height from 100 on. |
| OpenAnimation.PanelHeightMonotone | dialogbox.js:97 | The panel height never decreases as the slider grows. |
| OpenAnimation.GeometryBounds | dialogbox.js:56-135 | The centre line is centred on the canvas. The top half ends and the bottom half starts at the box's vertical centre, both `h` tall. The tint alpha lies in [5, 100]. |
| OpenAnimation.CentreLine | dialogbox.js:82-94 | The centre line is drawn exactly for 0.1 < s < 32. It has zero length up to s = 0.01, and σ is 50 from s = 30. |
| OpenAnimation.FlashAndTint | dialogbox.js:99-129 | The flash rectangle appears exactly for 80 <= s <= 99, with the source's offsets. The tint is opaque from 80 and `constrain(s, 5, 30)` below. |
| OpenAnimation.Endpoints | dialogbox.js:91-135 | At s = 100 the frame is full height and opaque, with no flash and no line. At s = 0.01 the line has zero length and the panels their minimum height. |
| OpenAnimation.Opening | dialogbox.js:82-97 | A larger slider never gives a shorter line or lower panels. |
| Sketch.FlattenPassages | sketch.js:102-106 | The three lists have one entry per passage record. Entry `k` of each comes from record `k`. |
| Sketch.Setup | sketch.js:102-108 | The new dialog box holds, in order, every record's text, highlight spans and start time. It starts at passage 0, index 0. |
| Sketch.TimeElapsed | sketch.js:174 | At the moment the voice starts, the recording is at the 12 s skip point. It is at or past that point exactly from then on. |
| Sketch.OpenStart | sketch.js:141-149 | At the window's start the recording is 400 ms before the first passage. At its end the recording is exactly at the first passage's start. |
| Sketch.OpenSlider | sketch.js:141-153 | No animation runs before the voice has started. |
| Sketch.OpenWindow | sketch.js:141-153 | Once the voice plays, the animation runs exactly while the recording is within the 400 ms before the first passage's start. Its slider lies strictly between 0.01 and 100 and is linear in time. |
| Sketch.OpenSliderGrows | sketch.js:152 | A later frame in the window gets a larger slider. |
| Sketch.FrameStep | sketch.js:177-195 | A frame always leaves a well-formed dialog state. |
| Sketch.FrameStepFacts | sketch.js:177-195 | A frame that does not render (voice not started, or before the first passage's start) changes nothing. Otherwise it moves at most one passage on, exactly when the recording is strictly past the next start, never from the last passage, and always to index 0. Staying on a passage, it reveals one character on even frames and none on odd ones. |
| Sketch.CatchUp | sketch.js:191-194 | After a jump past every start time, `k` frames bring the passage to `min(p + k, last)`. Passages advance one per frame, not all at once. |
| Sketch.PlayFrame | sketch.js:177-195 | The dialog takes one frame step. The text is rendered exactly when the frame renders, and it is the layout of the state before the step. |
| Sketch.Draw | sketch.js:174-196 | Before the voice starts nothing changes and nothing is rendered. Afterwards the dialog takes one frame step at `timeElapsed = millis - voiceStart + 12000`. The opening geometry is drawn exactly when `openDialog`'s window holds. |

## Left out

- Drawing is not modelled. This covers `text`, `image`, `rect`, `line`, `tint`, `fill`, `renderTextFrame`, the HUD camera and the colours. The model produces the positions, flags and geometry these calls would receive.
- The triangle's fading alpha (`sin(frameCount/12)`) and its vertices are left out, because they are floating-point trigonometry. Only the condition for showing the triangle is modelled.
- The sphere, globe and torus animation, lighting, camera and HUD in sketch.js are left out. They are rendering with no dialog state.
- Rasterising a character with the font is left out, because it is a call into the browser's text renderer. The buffer it produces is an input: `GlyphCache` holds a function from characters to rasters, and the scan over that buffer is modelled exactly.
- Glyphs.OnlyRedTestApplies: only integer pixel densities are modelled. A fractional `pixelDensity()` would give offsets that are not multiples of 4 and would also exercise the green, blue and alpha tests. The comment at sketch.js:35-37 about 125 % browser zoom suggests that the author's density was such a fraction.
- Glyphs.GlyphCache.constructor: requires every character's raster to have the buffer's size, FONT_SIZE by FONT_SIZE * 1.5. This is not a restriction on callers, because `charWidth` always creates that buffer itself (dialogbox.js:372).
- The `console.log` calls are left out, because they only write to the console. They are in `nextPassage` at the last passage (dialogbox.js:157) and in `draw` after each passage change (sketch.js:193).
- JavaScript strings are UTF-16 code units and the model's are Dafny characters. Characters outside the Basic Multilingual Plane are split by `[...word]` differently from `text[i]`, and this is not modelled.
- Loading the passages JSON, the font, the images and the sound is left out, because it is I/O. `Setup` takes the passage records as a sequence, in the order `for … in` visits them.
- The input handlers `keyPressed`, `touchStarted` and the context-menu hook are left out. Only `keyPressed('s')` touches the dialog's inputs: it sets `voiceStartMillis` and `playing` together (sketch.js:112-120), so `Draw` takes `voiceStartMillis` as an option and treats "set" as playing. `keyPressed('z')` stops the sound and calls `noLoop()` (sketch.js:122-125), which ends all later frames; the model has no such stop. `touchStarted` only resumes the audio context, and the context-menu hook only suppresses the menu.
- `millis()` and `frameCount` are parameters. `millis()` follows `performance.now()` and can advance within a frame, but the model reads the clock once per frame. The source reads it up to four times: for `timeElapsed` (sketch.js:174), twice in the window test (sketch.js:151), and once more, either for the slider (sketch.js:152) or in the `else if` (sketch.js:154). Sketch.OpenWindow: the bound `slider < 100` rests on that single reading. In the source, a read at line 152 taken after END gives a slider of 100 or more.
- `speechEnded` is left out. It reads the undefined global `audioSkipDurationMs` and `endTimes`, which the constructor is never given, so it cannot run as written.
- Dialog.DialogBox.constructor: requires at least one passage, and one highlight list and start time per passage. With no passages the source's `text` would be undefined and the first `renderText` would fail. `setup` always builds the three lists with equal lengths.
- Dialog.DialogBox.RenderText: states only that the cache keeps every entry, not the exact set of characters it adds.
- `timeElapsed` before the voice starts is NaN in the source. The model never computes it, because nothing reads it then.
- Floating point: widths, times and geometry use exact reals. Rounding in the browser's arithmetic is not modelled, and neither is the float equality behind the 400 ms window bound `END - START`.
