/** Clipping a note label: the longest trimmed prefix that, with an ellipsis, is no wider than a pill may be. */
module LabelClipping {

  import opened Prelude

  /** A UTF-16 code unit, the element of a JavaScript string. */
  type CodeUnit = c: int | 0 <= c < 0x10000
  type Text = seq<CodeUnit>

  const ELLIPSIS: Text := [0x2026]
  const MAX_LABEL_WIDTH := 160.0
  const CHROME := 10.0
  const FALLBACK_WIDTH := 5.0

  /** WhiteSpace and LineTerminator of ECMA-262 (sections 12.2 and 12.3). */
  predicate IsWhiteSpace(c: CodeUnit) {
    || 0x09 <= c <= 0x0D || c == 0x20 || c == 0xA0 || c == 0x1680 || 0x2000 <= c <= 0x200A
    || c == 0x2028 || c == 0x2029 || c == 0x202F || c == 0x205F || c == 0x3000 || c == 0xFEFF
  }

  function TrimEnd(t: Text): Text {
    if t != [] && IsWhiteSpace(t[|t| - 1]) then TrimEnd(t[..|t| - 1]) else t
  }

  lemma {:induction false} TrimEndMeans(t: Text)
    ensures
      var kept := |TrimEnd(t)|;
      && kept <= |t| && TrimEnd(t) == t[..kept]
      && (forall k :: kept <= k < |t| ==> IsWhiteSpace(t[k]))
      && (kept > 0 ==> !IsWhiteSpace(t[kept - 1]))
  {
    if t != [] && IsWhiteSpace(t[|t| - 1]) {
      TrimEndMeans(t[..|t| - 1]);
    }
  }

  /** A longer prefix never trims to less. */
  lemma TrimmedPrefixGrows(t: Text, j: nat, k: nat)
    requires j <= k <= |t|
    ensures |TrimEnd(t[..j])| <= |TrimEnd(t[..k])|
  {
    TrimEndMeans(t[..j]);
    TrimEndMeans(t[..k]);
    var kept := |TrimEnd(t[..j])|;
    if kept > 0 {
      assert !IsWhiteSpace(t[..k][kept - 1]);
    }
  }

  // ----- measuring -----

  /** The drawing surface, when there is one; measuring with it may throw. */
  type Canvas = Option<Text -> Option<real>>

  function Width(canvas: Canvas, text: Text): real {
    var measured := if canvas.None? then None else canvas.value(text);
    if measured.Some? && measured.value > 0.0 then measured.value else FALLBACK_WIDTH * |text| as real
  }

  function Ceiling(x: real): real { -((-x).Floor as real) }

  function EstimateLabelWidth(canvas: Canvas, text: Text): real {
    Ceiling(Width(canvas, text)) + CHROME
  }

  function Candidate(text: Text, n: nat): Text {
    TrimEnd(text[..if n <= |text| then n else |text|]) + ELLIPSIS
  }

  predicate Fits(canvas: Canvas, text: Text, n: nat) {
    Width(canvas, Candidate(text, n)) <= MAX_LABEL_WIDTH - CHROME
  }

  /** Longer candidates are never narrower: what the binary search relies on. */
  ghost predicate IsMonotone(canvas: Canvas, text: Text) {
    forall j, k :: 1 <= j <= k <= |text| ==> Width(canvas, Candidate(text, j)) <= Width(canvas, Candidate(text, k))
  }

  lemma FallbackIsMonotone(text: Text)
    ensures IsMonotone(None, text)
  {
    forall j, k | 1 <= j <= k <= |text|
      ensures Width(None, Candidate(text, j)) <= Width(None, Candidate(text, k))
    {
      TrimmedPrefixGrows(text, j, k);
    }
  }

  /** The rounding up does not matter: a candidate fits exactly when its pill is within the limit. */
  lemma FitsMeansPillFits(canvas: Canvas, text: Text, n: nat)
    ensures Fits(canvas, text, n) <==> EstimateLabelWidth(canvas, Candidate(text, n)) <= MAX_LABEL_WIDTH
  {
    var w := Width(canvas, Candidate(text, n));
    assert Ceiling(w) - 1.0 < w <= Ceiling(w);
  }

  // ----- the specification: try every length, longest first -----

  function LongestFit(canvas: Canvas, text: Text, n: nat): nat {
    if n <= 1 then 1 else if Fits(canvas, text, n) then n else LongestFit(canvas, text, n - 1)
  }

  function Clipped(canvas: Canvas, text: Text): Text {
    if EstimateLabelWidth(canvas, text) <= MAX_LABEL_WIDTH then text
    else Candidate(text, LongestFit(canvas, text, |text|))
  }

  lemma {:induction false} LongestFitMeans(canvas: Canvas, text: Text, n: nat)
    ensures
      var best := LongestFit(canvas, text, n);
      && 1 <= best && (best > 1 ==> best <= n && Fits(canvas, text, best))
      && forall k :: best < k <= n ==> !Fits(canvas, text, k)
  {
    if n > 1 && !Fits(canvas, text, n) {
      LongestFitMeans(canvas, text, n - 1);
    }
  }

  /** A length that fits, or is 1, with nothing longer fitting, is the one the specification picks. */
  lemma LongestFitIsUnique(canvas: Canvas, text: Text, low: nat)
    requires low >= 1 && (low > 1 ==> low <= |text| && Fits(canvas, text, low))
    requires forall k :: low < k <= |text| ==> !Fits(canvas, text, k)
    ensures low == LongestFit(canvas, text, |text|)
  {
    LongestFitMeans(canvas, text, |text|);
  }

  // ----- the code -----

  class LabelText {
    const canvas: Canvas
    var cache: map<Text, real>

    constructor (canvas: Canvas)
      ensures Valid() && this.canvas == canvas
    {
      this.canvas := canvas;
      cache := map[];
    }

    ghost predicate Valid()
      reads this
    {
      forall t :: t in cache ==> cache[t] == Width(canvas, t)
    }

    method MeasureTextPx(text: Text) returns (width: real)
      requires Valid()
      modifies this
      ensures Valid() && width == Width(canvas, text)
    {
      if text in cache {
        return cache[text];
      }
      width := 0.0;
      if canvas.Some? {
        var measured := canvas.value(text);
        if measured.Some? {
          width := measured.value;
        }
      }
      if width <= 0.0 {
        width := |text| as real * FALLBACK_WIDTH;
      }
      cache := cache[text := width];
    }

    /**
      * The binary search finds what trying every length finds; whatever the measure, only a one-unit prefix can
      * be too wide.
      */
    method ClipLabelText(text: Text) returns (clipped: Text)
      requires Valid()
      modifies this
      ensures Valid()
      ensures IsMonotone(canvas, text) ==> clipped == Clipped(canvas, text)
      ensures EstimateLabelWidth(canvas, clipped) <= MAX_LABEL_WIDTH || clipped == Candidate(text, 1)
    {
      var width := MeasureTextPx(text);
      if Ceiling(width) + CHROME <= MAX_LABEL_WIDTH {
        return text;
      }
      var maxTextPx := MAX_LABEL_WIDTH - CHROME;
      var low, high := 1, |text|;
      while low < high
        invariant Valid() && 1 <= low && 0 <= high <= |text| && (|text| >= 1 ==> low <= high)
        invariant low > 1 ==> low <= high && Fits(canvas, text, low)
        invariant IsMonotone(canvas, text) ==> forall k :: high < k <= |text| ==> !Fits(canvas, text, k)
      {
        var mid := (low + high + 1) / 2;
        var candidate := Candidate(text, mid);
        var candidateWidth := MeasureTextPx(candidate);
        if candidateWidth <= maxTextPx {
          low := mid;
        } else {
          high := mid - 1;
        }
      }
      clipped := Candidate(text, low);
      FitsMeansPillFits(canvas, text, low);
      if IsMonotone(canvas, text) {
        LongestFitIsUnique(canvas, text, low);
      }
    }
  }

  // ----- what a clipped label is, with the fallback measure -----

  /** Every label fits; clipping it again changes nothing. */
  lemma ClippedLabelFits(text: Text)
    ensures EstimateLabelWidth(None, Clipped(None, text)) <= MAX_LABEL_WIDTH
    ensures Clipped(None, Clipped(None, text)) == Clipped(None, text)
  {
    var best := LongestFit(None, text, |text|);
    LongestFitMeans(None, text, |text|);
    FitsMeansPillFits(None, text, best);
    if best == 1 {
      TrimEndMeans(text[..if 1 <= |text| then 1 else |text|]);
    }
  }

  /** A text stays whole exactly when it has at most 30 code units. */
  lemma ShortTextsStay(text: Text)
    ensures Clipped(None, text) == text <==> |text| <= 30
  {
    FitsIffShort(text, |text|);
    var w := Width(None, text);
    assert Ceiling(w) - 1.0 < w <= Ceiling(w);
    if |text| > 30 {
      LongText(text);
    }
  }

  lemma FitsIffShort(text: Text, n: nat)
    requires n <= |text|
    ensures Fits(None, text, n) <==> |TrimEnd(text[..n])| <= 29
  {}

  /** For a longer text the search has a closed form: the first 29 code units, trimmed, and the ellipsis. */
  lemma LongText(text: Text)
    requires |text| > 30
    ensures Clipped(None, text) == TrimEnd(text[..29]) + ELLIPSIS && Clipped(None, text) != text
  {
    var w := Width(None, text);
    assert Ceiling(w) - 1.0 < w <= Ceiling(w);
    var best := LongestFit(None, text, |text|);
    LongestFitMeans(None, text, |text|);
    TrimEndMeans(text[..best]);
    TrimEndMeans(text[..29]);
    FitsIffShort(text, 29);
    FitsIffShort(text, best);
    TrimmedPrefixGrows(text, 29, best);
    var kept := |TrimEnd(text[..best])|;
    if kept > 0 {
      assert !IsWhiteSpace(text[..29][kept - 1]);
    }
  }

  /** The ellipsis says something is missing exactly when more than 29 code units are left after trimming. */
  lemma EllipsisHidesSomething(text: Text)
    requires |text| > 30
    ensures Clipped(None, text) == TrimEnd(text) + ELLIPSIS <==> |TrimEnd(text)| <= 29
  {
    LongText(text);
    TrimEndMeans(text);
    TrimEndMeans(text[..29]);
    assert text[..|text|] == text;
    TrimmedPrefixGrows(text, 29, |text|);
    if 0 < |TrimEnd(text)| <= 29 {
      assert !IsWhiteSpace(text[..29][|TrimEnd(text)| - 1]);
    }
  }
}
