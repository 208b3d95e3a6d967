/** The constants sketch.js declares at the top level and shares with dialogbox.js. */
module Config {
  /** Font size in pixels; also the width of the buffer a glyph is measured in. */
  const FONT_SIZE: nat := 24
  /** Extra horizontal gap added after every non-space character. */
  const LETTER_SPACING: real := 1.25
  /** Fixed advance of a space, which is never measured: FONT_SIZE / 2. */
  const SPACE_WIDTH: real := FONT_SIZE as real / 2.0
  /** Seconds of the voice track skipped when playback starts. */
  const SOUND_FILE_START: int := 12

  /** The dialog box's geometry, shared by all its drawing code: its distance from the left
      edge of the canvas, its height, and its distance from the bottom edge, in pixels. */
  const LEFT_MARGIN: real := 80.0
  const HEIGHT: real := 224.0
  const BOTTOM_MARGIN: real := 20.0
}

module Wrappers {
  datatype Option<+T> = None | Some(value: T)
}

/** The few JavaScript and p5.js library operations the core relies on, with their exact semantics. */
module JsRuntime {

  /** `String.prototype.indexOf` for a one-character search string: the first index at or
      after `from` holding `c`, or -1 when there is none. */
  function IndexOf(s: string, c: char, from: nat): (k: int)
    ensures k == -1 || (from <= k < |s| && s[k] == c)
    ensures k == -1 <==> forall j :: from <= j < |s| ==> s[j] != c
    ensures k != -1 ==> forall j :: from <= j < k ==> s[j] != c
    decreases |s| - from
  {
    if from >= |s| then -1
    else if s[from] == c then from
    else IndexOf(s, c, from + 1)
  }

  /** The clamping `substring` applies to each of its arguments. */
  function ClampIndex(i: int, len: nat): (r: nat)
    ensures r <= len
  {
    if i < 0 then 0 else if i > len then len else i
  }

  /** `String.prototype.substring`: both arguments are clamped to [0, |s|], and when the first
      ends up greater than the second the two are swapped. */
  function Substring(s: string, start: int, end: int): (r: string)
    ensures |r| <= |s|
    ensures 0 <= start <= end <= |s| ==> r == s[start..end]
    ensures end <= start && 0 <= end && start <= |s| ==> r == s[end..start]
  {
    var a, b := ClampIndex(start, |s|), ClampIndex(end, |s|);
    if a <= b then s[a..b] else s[b..a]
  }

  /** `substring` is symmetric in its arguments, and with a negative end it yields the prefix
      before `start`, not the rest of the string. */
  lemma SubstringSwaps(s: string, start: int, end: int)
    ensures Substring(s, start, end) == Substring(s, end, start)
    ensures 0 <= start <= |s| && end < 0 ==> Substring(s, start, end) == s[..start]
  {
  }

  /** p5's `constrain(v, lo, hi)`: `Math.max(Math.min(v, hi), lo)`. */
  function Constrain(v: real, lo: real, hi: real): (r: real)
    requires lo <= hi
    ensures lo <= r <= hi
    ensures lo <= v <= hi ==> r == v
    ensures v < lo ==> r == lo
    ensures v > hi ==> r == hi
  {
    var m := if v < hi then v else hi;
    if m > lo then m else lo
  }

  /** The unclamped linear interpolation of p5's `map`. */
  function Lerp(v: real, a: real, b: real, c: real, d: real): real
    requires a != b
  {
    (v - a) / (b - a) * (d - c) + c
  }

  lemma {:induction false} DivSelf(k: real)
    requires k != 0.0
    ensures k / k == 1.0
  {
  }

  /** The interpolation sends `a` to `c` and `b` to `d`. */
  lemma {:induction false} LerpEndpoints(a: real, b: real, c: real, d: real)
    requires a != b
    ensures Lerp(a, a, b, c, d) == c && Lerp(b, a, b, c, d) == d
  {
    DivSelf(b - a);
  }

  /** p5's `map(v, a, b, c, d, withinBounds)`: linear interpolation of [a, b] onto [c, d],
      clamped to the target interval when `withinBounds` holds. */
  function MapRange(v: real, a: real, b: real, c: real, d: real, withinBounds: bool): (r: real)
    requires a != b
    ensures v == a ==> r == c
    ensures v == b ==> r == d
    ensures !withinBounds ==> r == Lerp(v, a, b, c, d)
    ensures withinBounds && c <= d ==> c <= r <= d
    ensures withinBounds && d <= c ==> d <= r <= c
  {
    LerpEndpoints(a, b, c, d);
    var x := Lerp(v, a, b, c, d);
    if !withinBounds then x
    else if c < d then Constrain(x, c, d)
    else Constrain(x, d, c)
  }

  lemma {:induction false} LerpMonotone(v: real, w: real, a: real, b: real, c: real, d: real)
    requires a < b && c <= d && v <= w
    ensures Lerp(v, a, b, c, d) <= Lerp(w, a, b, c, d)
  {
    var p, q := (v - a) / (b - a), (w - a) / (b - a);
    assert p <= q;
    assert p * (d - c) <= q * (d - c);
  }

  /** For an increasing source interval and a non-empty target interval, the clamped map is
      monotone, stays in [c, d], and sends everything at or below `a` to `c` and everything at
      or above `b` to `d`. */
  lemma {:induction false} MapRangeClamped(v: real, a: real, b: real, c: real, d: real)
    requires a < b && c < d
    ensures c <= MapRange(v, a, b, c, d, true) <= d
    ensures v <= a ==> MapRange(v, a, b, c, d, true) == c
    ensures v >= b ==> MapRange(v, a, b, c, d, true) == d
    ensures a <= v <= b ==> MapRange(v, a, b, c, d, true) == Lerp(v, a, b, c, d)
  {
    if v <= a { LerpMonotone(v, a, a, b, c, d); } else { LerpMonotone(a, v, a, b, c, d); }
    if v <= b { LerpMonotone(v, b, a, b, c, d); } else { LerpMonotone(b, v, a, b, c, d); }
    LerpEndpoints(a, b, c, d);
  }

  lemma {:induction false} MapRangeMonotone(v: real, w: real, a: real, b: real, c: real, d: real)
    requires a < b && c < d && v <= w
    ensures MapRange(v, a, b, c, d, true) <= MapRange(w, a, b, c, d, true)
  {
    LerpMonotone(v, w, a, b, c, d);
  }
}
