/** The dialog-driving part of the sketch: building the passage lists in `setup`, the timing
    window of `openDialog`, and the per-frame rule of `draw` that reveals characters and moves
    to the next passage in step with the voice recording. */
module Sketch {
  import opened Config
  import opened Wrappers
  import opened JsRuntime
  import opened Glyphs
  import opened TextLayout
  import opened Dialog
  import OpenAnimation

  /** The canvas `setup` creates. */
  const CANVAS_WIDTH: real := 1280.0
  const CANVAS_HEIGHT: real := 720.0
  /** How long the dialog box takes to open, in milliseconds. */
  const DIALOG_OPEN_ANIMATION_TIME: real := 400.0
  /** The part of the recording skipped by `jump(12)`, in milliseconds. */
  const AUDIO_SKIP_MS: real := (SOUND_FILE_START * 1000) as real

  /** One entry of the passages JSON: its text, its highlighted spans and its start time in
      milliseconds of audio. */
  datatype PassageRecord = PassageRecord(text: string, highlightIndices: seq<Span>, ms: int)

  /** The list-building loop of `setup`: one entry per record, in iteration order. */
  method FlattenPassages(passages: seq<PassageRecord>)
    returns (textList: seq<string>, highlightList: seq<seq<Span>>, passageStartTimes: seq<int>)
    ensures |textList| == |passages| && |highlightList| == |passages| && |passageStartTimes| == |passages|
    ensures forall k :: 0 <= k < |passages| ==>
      && textList[k] == passages[k].text
      && highlightList[k] == passages[k].highlightIndices
      && passageStartTimes[k] == passages[k].ms
  {
    textList, highlightList, passageStartTimes := [], [], [];
    var i := 0;
    while i < |passages|
      invariant i <= |passages|
      invariant |textList| == i && |highlightList| == i && |passageStartTimes| == i
      invariant forall k :: 0 <= k < i ==>
        && textList[k] == passages[k].text
        && highlightList[k] == passages[k].highlightIndices
        && passageStartTimes[k] == passages[k].ms
    {
      textList := textList + [passages[i].text];
      highlightList := highlightList + [passages[i].highlightIndices];
      passageStartTimes := passageStartTimes + [passages[i].ms];
      i := i + 1;
    }
  }

  /** `setup` without the canvas, font, camera and audio: the dialog box over the flattened
      passage lists, on the first character of the first passage. */
  method Setup(passages: seq<PassageRecord>) returns (box: DialogBox)
    requires |passages| >= 1
    ensures fresh(box) && box.Valid() && box.State() == DialogState(0, 0)
    ensures |box.passageList| == |passages|
    ensures forall k :: 0 <= k < |passages| ==>
      && box.passageList[k] == passages[k].text
      && box.highlightIndices[k] == passages[k].highlightIndices
      && box.startTimes[k] == passages[k].ms
    ensures box.boxY == CANVAS_HEIGHT - HEIGHT - BOTTOM_MARGIN
  {
    var textList, highlightList, passageStartTimes := FlattenPassages(passages);
    box := new DialogBox(textList, highlightList, passageStartTimes, CANVAS_HEIGHT);
  }

  /** `timeElapsed`: the position in the recording, which starts playing 12 s in. */
  function TimeElapsed(millis: real, voiceStartMillis: real): (r: real)
    ensures millis == voiceStartMillis ==> r == AUDIO_SKIP_MS
    ensures r >= AUDIO_SKIP_MS <==> millis >= voiceStartMillis
  {
    millis - voiceStartMillis + AUDIO_SKIP_MS
  }

  /** The first frame time, in sketch milliseconds, of the opening animation. */
  function OpenStart(voiceStartMillis: real, firstPassageStartTime: int): (r: real)
    ensures TimeElapsed(r, voiceStartMillis) == firstPassageStartTime as real - DIALOG_OPEN_ANIMATION_TIME
    ensures TimeElapsed(r + DIALOG_OPEN_ANIMATION_TIME, voiceStartMillis) == firstPassageStartTime as real
  {
    voiceStartMillis + firstPassageStartTime as real - AUDIO_SKIP_MS - DIALOG_OPEN_ANIMATION_TIME
  }

  /** The slider `openDialog` passes to `openAnimation`, or None when it does not call it:
      before the voice has started (the window bounds are then NaN) and outside the open
      window (START, END). */
  function OpenSlider(millis: real, voiceStart: Option<real>, firstPassageStartTime: int): (r: Option<real>)
    ensures r.Some? ==> voiceStart.Some?
  {
    if voiceStart.None? then None
    else
      var start := OpenStart(voiceStart.value, firstPassageStartTime);
      var end := start + DIALOG_OPEN_ANIMATION_TIME;
      if millis > start && millis < end then
        Some(MapRange(millis - start, 0.0, end - start, 0.01, 100.0, false))
      else None
  }

  lemma {:induction false} LerpOpenWindow(v: real)
    requires 0.0 < v < DIALOG_OPEN_ANIMATION_TIME
    ensures 0.01 < Lerp(v, 0.0, DIALOG_OPEN_ANIMATION_TIME, 0.01, 100.0) < 100.0
  {
    var f := v / DIALOG_OPEN_ANIMATION_TIME;
    assert 0.0 < f < 1.0;
    assert 0.0 < f * 99.99 < 99.99;
  }

  /** Once the voice plays, the animation runs exactly while the recording is in the 400 ms
      before the first passage starts, with a slider strictly between 0.01 and 100 that grows
      linearly with time. */
  lemma OpenWindow(millis: real, voiceStartMillis: real, firstPassageStartTime: int)
    ensures var r := OpenSlider(millis, Some(voiceStartMillis), firstPassageStartTime);
      && (r.Some? <==>
            firstPassageStartTime as real - DIALOG_OPEN_ANIMATION_TIME
              < TimeElapsed(millis, voiceStartMillis) < firstPassageStartTime as real)
      && (r.Some? ==>
            && 0.01 < r.value < 100.0
            && r.value == Lerp(millis - OpenStart(voiceStartMillis, firstPassageStartTime),
                               0.0, DIALOG_OPEN_ANIMATION_TIME, 0.01, 100.0))
  {
    var start := OpenStart(voiceStartMillis, firstPassageStartTime);
    if start < millis < start + DIALOG_OPEN_ANIMATION_TIME {
      LerpOpenWindow(millis - start);
    }
  }

  /** A later frame in the window gets a larger slider. */
  lemma OpenSliderGrows(m1: real, m2: real, voiceStartMillis: real, firstPassageStartTime: int)
    requires m1 <= m2
    requires OpenSlider(m1, Some(voiceStartMillis), firstPassageStartTime).Some?
    requires OpenSlider(m2, Some(voiceStartMillis), firstPassageStartTime).Some?
    ensures OpenSlider(m1, Some(voiceStartMillis), firstPassageStartTime).value
            <= OpenSlider(m2, Some(voiceStartMillis), firstPassageStartTime).value
  {
    var start := OpenStart(voiceStartMillis, firstPassageStartTime);
    LerpMonotone(m1 - start, m2 - start, 0.0, DIALOG_OPEN_ANIMATION_TIME, 0.01, 100.0);
  }

  /** Whether `draw` renders the dialog and runs its steps this frame: the voice plays, and it
      is not still before the first passage. */
  predicate Renders(startTimes: seq<int>, s: DialogState, playing: bool, timeElapsed: real)
    requires |startTimes| >= 1
  {
    playing && !(s.passageIndex == 0 && timeElapsed < startTimes[0] as real)
  }

  /** The dialog state after one `draw`: `advanceChar` on even frames, then `nextPassage` when
      the recording is strictly past the next passage's start. */
  function FrameStep(passages: seq<string>, startTimes: seq<int>, s: DialogState,
                     playing: bool, timeElapsed: real, frameCount: nat): (r: DialogState)
    requires StateOk(passages, s) && |startTimes| == |passages|
    ensures StateOk(passages, r)
  {
    if !Renders(startTimes, s, playing, timeElapsed) then s
    else
      var c := if frameCount % 2 == 0
               then DialogState(s.passageIndex, CharStep(passages[s.passageIndex], s.index))
               else s;
      CharStepBounded(passages[s.passageIndex], s.index);
      if Exceeds(timeElapsed, NextStartTime(startTimes, |passages|, c.passageIndex))
      then PassageStep(passages, c)
      else c
  }

  /** A frame that does not render leaves the state alone. Otherwise it moves at most one
      passage on, only when the recording is strictly past the next start time, never from
      the last passage, and then with no character revealed; a frame that stays on its passage
      reveals one more character on even frames (up to the last) and none on odd frames. */
  lemma FrameStepFacts(passages: seq<string>, startTimes: seq<int>, s: DialogState,
                       playing: bool, timeElapsed: real, frameCount: nat)
    requires StateOk(passages, s) && |startTimes| == |passages|
    ensures var r := FrameStep(passages, startTimes, s, playing, timeElapsed, frameCount);
      && (!Renders(startTimes, s, playing, timeElapsed) ==> r == s)
      && s.passageIndex <= r.passageIndex <= s.passageIndex + 1
      && (r.passageIndex == s.passageIndex + 1 <==>
            Renders(startTimes, s, playing, timeElapsed)
            && s.passageIndex < |passages| - 1
            && timeElapsed > startTimes[s.passageIndex + 1] as real)
      && (r.passageIndex != s.passageIndex ==> r.index == 0)
      && (s.passageIndex == |passages| - 1 ==> r.passageIndex == s.passageIndex)
      && (r.passageIndex == s.passageIndex && Renders(startTimes, s, playing, timeElapsed) ==>
            r.index == (if frameCount % 2 == 0 then CharStep(passages[s.passageIndex], s.index)
                        else s.index))
  {
    if Renders(startTimes, s, playing, timeElapsed) {
      NextStartSentinel(startTimes, |passages|, s.passageIndex, timeElapsed);
    }
  }

  /** `k` consecutive frames from frame number `frameCount` at a fixed recording time. */
  function Frames(passages: seq<string>, startTimes: seq<int>, s: DialogState,
                  timeElapsed: real, frameCount: nat, k: nat): DialogState
    requires StateOk(passages, s) && |startTimes| == |passages|
    decreases k
  {
    if k == 0 then s
    else Frames(passages, startTimes, FrameStep(passages, startTimes, s, true, timeElapsed, frameCount),
                timeElapsed, frameCount + 1, k - 1)
  }

  /** After a jump past every start time, the passage index climbs one per frame until the last
      passage: after `k` frames it is `min(p + k, |passages| - 1)`. */
  lemma {:induction false} CatchUp(passages: seq<string>, startTimes: seq<int>, s: DialogState,
                                   timeElapsed: real, frameCount: nat, k: nat)
    requires StateOk(passages, s) && |startTimes| == |passages|
    requires forall j :: 0 <= j < |startTimes| ==> timeElapsed > startTimes[j] as real
    ensures Frames(passages, startTimes, s, timeElapsed, frameCount, k).passageIndex
            == if s.passageIndex + k < |passages| then s.passageIndex + k else |passages| - 1
    decreases k
  {
    if k > 0 {
      var r := FrameStep(passages, startTimes, s, true, timeElapsed, frameCount);
      FrameStepFacts(passages, startTimes, s, true, timeElapsed, frameCount);
      assert timeElapsed > startTimes[0] as real;
      if s.passageIndex < |passages| - 1 {
        assert timeElapsed > startTimes[s.passageIndex + 1] as real;
      }
      CatchUp(passages, startTimes, r, timeElapsed, frameCount + 1, k - 1);
    }
  }

  /** What one frame shows of the dialog: the opening animation's geometry, when it runs, and
      the laid-out text, when the dialog renders. */
  datatype FrameOutput = FrameOutput(opening: Option<OpenAnimation.Geometry>, text: Option<Layout>)

  /** The `playing` branch of `draw` at recording time `timeElapsed`: unless still before the
      first passage, render the revealed text, then step the dialog. */
  method PlayFrame(box: DialogBox, cache: GlyphCache, timeElapsed: real, frameCount: nat,
                   lineHeight: real)
    returns (text: Option<Layout>)
    requires box.Valid() && cache.Valid()
    modifies box, cache
    ensures box.Valid() && cache.Valid()
    ensures box.State() == FrameStep(box.passageList, box.startTimes, old(box.State()), true,
                                     timeElapsed, frameCount)
    ensures text.Some? <==> Renders(box.startTimes, old(box.State()), true, timeElapsed)
    ensures text.Some? ==>
      text.value == LayoutOf(Env(cache.glyphs, lineHeight, CANVAS_WIDTH, box.boxY),
                             old(box.text), box.highlightIndices[old(box.passageIndex)], old(box.index))
    ensures old(cache.widths).Keys <= cache.widths.Keys
  {
    text := None;
    if box.passageIndex == 0 && timeElapsed < box.startTimes[0] as real {
    } else {
      var layout := box.RenderText(cache, lineHeight, CANVAS_WIDTH);
      text := Some(layout);
      if frameCount % 2 == 0 {
        box.AdvanceChar();
      }
      if Exceeds(timeElapsed, box.GetNextPassageStartTime()) {
        box.NextPassage();
      }
    }
  }

  /** The dialog part of `draw`. `voiceStart` is `voiceStartMillis`, None until the voice is
      started; `playing` holds exactly when it is set. */
  method Draw(box: DialogBox, cache: GlyphCache, voiceStart: Option<real>, millis: real,
              frameCount: nat, lineHeight: real, frameTop: OpenAnimation.ImageSize)
    returns (out: FrameOutput)
    requires box.Valid() && cache.Valid()
    modifies box, cache
    ensures box.Valid() && cache.Valid()
    ensures voiceStart.None? ==> box.State() == old(box.State()) && out.text.None?
    ensures voiceStart.Some? ==>
      box.State() == FrameStep(box.passageList, box.startTimes, old(box.State()), true,
                               TimeElapsed(millis, voiceStart.value), frameCount)
    ensures out.opening ==
      match OpenSlider(millis, voiceStart, box.startTimes[0])
      case None => None
      case Some(s) => Some(OpenAnimation.OpenGeometry(s, CANVAS_WIDTH, CANVAS_HEIGHT, frameTop))
    ensures out.text.Some? ==>
      && voiceStart.Some?
      && Renders(box.startTimes, old(box.State()), true, TimeElapsed(millis, voiceStart.value))
      && out.text.value == LayoutOf(Env(cache.glyphs, lineHeight, CANVAS_WIDTH, box.boxY),
                                    old(box.text), box.highlightIndices[old(box.passageIndex)], old(box.index))
    ensures voiceStart.Some? && Renders(box.startTimes, old(box.State()), true, TimeElapsed(millis, voiceStart.value))
            ==> out.text.Some?
    ensures old(cache.widths).Keys <= cache.widths.Keys
  {
    var slider := OpenSlider(millis, voiceStart, box.startTimes[0]);
    var opening := if slider.Some?
      then Some(OpenAnimation.OpenGeometry(slider.value, CANVAS_WIDTH, CANVAS_HEIGHT, frameTop))
      else None;
    if voiceStart.Some? {
      var text := PlayFrame(box, cache, TimeElapsed(millis, voiceStart.value), frameCount, lineHeight);
      out := FrameOutput(opening, text);
    } else {
      out := FrameOutput(opening, None);
    }
  }
}
