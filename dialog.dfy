/** The dialog box's passage and character cursor (`DialogBox` in dialogbox.js): which passage
    is shown, how many of its characters are revealed, when the next passage is due, and the
    layout of what is revealed. */
module Dialog {
  import opened Config
  import opened Glyphs
  import opened TextLayout

  /** A passage start time in milliseconds of audio, or Infinity for "no later passage". */
  datatype Time = At(ms: int) | Never

  /** `elapsed > limit` in JavaScript, where nothing finite exceeds Infinity. */
  predicate Exceeds(elapsed: real, limit: Time)
  {
    limit.At? && elapsed > limit.ms as real
  }

  /** The mutable part of a dialog box: `passageIndex` and the character `index`. */
  datatype DialogState = DialogState(passageIndex: nat, index: nat)

  /** The furthest the character index goes in `text`: `max(0, |text| - 1)`. */
  function LastIndex(text: string): nat
  {
    if |text| == 0 then 0 else |text| - 1
  }

  /** The passage index is in range and the character index at most LastIndex of its text. */
  predicate StateOk(passages: seq<string>, s: DialogState)
  {
    s.passageIndex < |passages| && s.index <= LastIndex(passages[s.passageIndex])
  }

  /** `advanceChar` on the character index. */
  function CharStep(text: string, index: nat): nat
  {
    if index < |text| - 1 then index + 1 else index
  }

  /** `nextPassage` on the state. */
  function PassageStep(passages: seq<string>, s: DialogState): DialogState
    requires s.passageIndex < |passages|
  {
    if s.passageIndex == |passages| - 1 then s else DialogState(s.passageIndex + 1, 0)
  }

  /** `getNextPassageStartTime` for passage `p` of `total`. */
  function NextStartTime(startTimes: seq<int>, total: nat, p: nat): Time
    requires total <= |startTimes|
  {
    if p < total - 1 then At(startTimes[p + 1]) else Never
  }

  /** `advanceChar` moves one character on exactly while the index is below `|text| - 1`, never
      leaves [0, LastIndex(text)], and is a no-op, hence idempotent, at the end. */
  lemma CharStepBounded(text: string, index: nat)
    requires index <= LastIndex(text)
    ensures CharStep(text, index) <= LastIndex(text)
    ensures CharStep(text, index) == index + 1 <==> index < |text| - 1
    ensures CharStep(text, index) != index + 1 ==> CharStep(text, index) == index
    ensures index == LastIndex(text) ==> CharStep(text, index) == index
    ensures CharStep(text, CharStep(text, index)) == CharStep(text, index) ==> CharStep(text, index) == LastIndex(text)
  {
  }

  /** `k` calls of `advanceChar`. */
  function CharSteps(text: string, index: nat, k: nat): nat
    decreases k
  {
    if k == 0 then index else CharSteps(text, CharStep(text, index), k - 1)
  }

  /** After `k` calls from index `i` the index is `min(i + k, LastIndex(text))`: characters are
      revealed one per call until the last one, and then the index stays there. */
  lemma {:induction false} RevealAfter(text: string, i: nat, k: nat)
    requires i <= LastIndex(text)
    ensures CharSteps(text, i, k) == if i + k <= LastIndex(text) then i + k else LastIndex(text)
    decreases k
  {
    if k > 0 {
      RevealAfter(text, CharStep(text, i), k - 1);
    }
  }

  /** `nextPassage` on the last passage changes nothing; otherwise it moves to the next passage
      with no characters revealed. Either way the state stays well formed. */
  lemma PassageStepFacts(passages: seq<string>, s: DialogState)
    requires StateOk(passages, s)
    ensures StateOk(passages, PassageStep(passages, s))
    ensures s.passageIndex == |passages| - 1 ==> PassageStep(passages, s) == s
    ensures s.passageIndex < |passages| - 1 ==>
      PassageStep(passages, s) == DialogState(s.passageIndex + 1, 0)
  {
  }

  /** `k` calls of `nextPassage`. */
  function PassageSteps(passages: seq<string>, s: DialogState, k: nat): DialogState
    requires s.passageIndex < |passages|
    decreases k
  {
    if k == 0 then s
    else PassageSteps(passages, PassageStep(passages, s), k - 1)
  }

  /** After `k` calls the passage index is `min(p + k, |passages| - 1)`: the last passage is
      terminal, and any call that moves resets the character index. */
  lemma {:induction false} PassagesAfter(passages: seq<string>, s: DialogState, k: nat)
    requires s.passageIndex < |passages|
    ensures var t := PassageSteps(passages, s, k);
      && t.passageIndex == (if s.passageIndex + k < |passages| then s.passageIndex + k else |passages| - 1)
      && (t.passageIndex != s.passageIndex ==> t.index == 0)
      && (t.passageIndex == s.passageIndex ==> t.index == s.index)
    decreases k
  {
    if k > 0 {
      PassagesAfter(passages, PassageStep(passages, s), k - 1);
    }
  }

  /** The next start time is finite exactly before the last passage, and then it is the start
      of the following passage; on the last passage no elapsed time exceeds it. */
  lemma NextStartSentinel(startTimes: seq<int>, total: nat, p: nat, elapsed: real)
    requires total <= |startTimes| && p < total
    ensures NextStartTime(startTimes, total, p).At? <==> p < total - 1
    ensures p < total - 1 ==> NextStartTime(startTimes, total, p).ms == startTimes[p + 1]
    ensures Exceeds(elapsed, NextStartTime(startTimes, total, p))
            <==> p < total - 1 && elapsed > startTimes[p + 1] as real
  {
  }

  class DialogBox {
    const passageList: seq<string>
    const totalPassages: nat
    const highlightIndices: seq<seq<Span>>
    const startTimes: seq<int>
    /** The y coordinate of the box's top edge, fixed from the canvas height at construction. */
    const boxY: real
    var index: nat
    var passageIndex: nat
    var text: string

    ghost predicate Valid()
      reads this
    {
      && totalPassages == |passageList| >= 1
      && |highlightIndices| == |passageList| && |startTimes| == |passageList|
      && StateOk(passageList, State())
      && text == passageList[passageIndex]
    }

    function State(): DialogState
      reads this
    {
      DialogState(passageIndex, index)
    }

    constructor (passages: seq<string>, highlights: seq<seq<Span>>, starts: seq<int>, canvasHeight: real)
      requires |passages| >= 1 && |highlights| == |passages| && |starts| == |passages|
      ensures Valid() && State() == DialogState(0, 0) && text == passages[0]
      ensures passageList == passages && highlightIndices == highlights && startTimes == starts
      ensures boxY == canvasHeight - HEIGHT - BOTTOM_MARGIN
    {
      passageList := passages;
      totalPassages := |passages|;
      index := 0;
      passageIndex := 0;
      boxY := canvasHeight - HEIGHT - BOTTOM_MARGIN;
      text := passages[0];
      highlightIndices := highlights;
      startTimes := starts;
    }

    function GetNextPassageStartTime(): (t: Time)
      reads this
      requires Valid()
      ensures t.At? <==> passageIndex < |passageList| - 1
      ensures t.At? ==> t.ms == startTimes[passageIndex + 1]
    {
      NextStartTime(startTimes, totalPassages, passageIndex)
    }

    method NextPassage()
      requires Valid()
      modifies this
      ensures Valid()
      ensures State() == PassageStep(passageList, old(State()))
      ensures old(passageIndex) == totalPassages - 1 ==> text == old(text)
    {
      if passageIndex == |passageList| - 1 {
      } else {
        passageIndex := passageIndex + 1;
        text := passageList[passageIndex];
        index := 0;
      }
    }

    method AdvanceChar()
      requires Valid()
      modifies this
      ensures Valid()
      ensures index == CharStep(text, old(index))
      ensures passageIndex == old(passageIndex) && text == old(text)
    {
      if index < |text| - 1 {
        index := index + 1;
      }
    }

    /** `renderText` without its drawing: lays out the speaker name and the revealed prefix,
        measuring through the cache, which it may only extend. */
    method RenderText(cache: GlyphCache, lineHeight: real, canvasWidth: real) returns (layout: Layout)
      requires Valid() && cache.Valid()
      modifies cache
      ensures cache.Valid()
      ensures layout == LayoutOf(Env(cache.glyphs, lineHeight, canvasWidth, boxY),
                                 text, highlightIndices[passageIndex], index)
      ensures old(cache.widths).Keys <= cache.widths.Keys
    {
      var env := Env(cache.glyphs, lineHeight, canvasWidth, boxY);
      var moreText := index == |text| - 1;

      var speaker := LayOutSpeaker(cache, env);

      var body := LayOutBody(cache, env, text, highlightIndices[passageIndex], index);
      layout := Layout(speaker, body, moreText);
    }
  }
}
