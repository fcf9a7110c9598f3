/** `scaledRgbChannel` and `getContrastRatio`: relative luminance and contrast ratio as defined
    in the glossary of WCAG 2.0 (Appendix A, "relative luminance" and "contrast ratio"),
    computed over exact reals. */
module Luminance {
  import opened ColorTypes

  /** What the model knows of `x => Math.pow(x, 2.4)`: it is positive on the positive reals,
      maps (0, 1] into (0, 1] and maps 1 to 1. The function itself is a parameter. */
  ghost predicate IsGammaPower(pow24: real -> real) {
    (forall x: real :: 0.0 < x ==> 0.0 < pow24(x)) &&
    (forall x: real :: 0.0 < x <= 1.0 ==> pow24(x) <= 1.0) &&
    pow24(1.0) == 1.0
  }

  /** `Math.pow(x, 2.4)` also grows with `x`; only the segment-wise monotonicity lemma needs this. */
  ghost predicate IsIncreasing(pow24: real -> real) {
    forall x: real, y: real :: 0.0 < x < y ==> pow24(x) < pow24(y)
  }

  /** `scaledRgbChannel`: an 8-bit channel value to its linear-light value. */
  function ScaledChannel(pow24: real -> real, c: nat): (s: real)
    requires IsGammaPower(pow24)
    ensures 0.0 <= s
    ensures c == 0 ==> s == 0.0
    ensures c <= 255 ==> s <= 1.0
    ensures c == 255 ==> s == 1.0
  {
    var unscaled := c as real / 255.0;
    if unscaled <= 0.03928 then unscaled / 12.92
    else
      pow24((unscaled + 0.055) / 1.055)
  }

  /** The threshold 0.03928 on `c / 255` puts exactly the integer channels 0 to 10 on the linear
      segment. */
  lemma LinearSegmentIsZeroToTen(pow24: real -> real, c: nat)
    requires IsGammaPower(pow24)
    ensures (c as real / 255.0 <= 0.03928) <==> c <= 10
    ensures c <= 10 ==> ScaledChannel(pow24, c) == c as real / 255.0 / 12.92
    ensures c > 10 ==> ScaledChannel(pow24, c) == pow24((c as real / 255.0 + 0.055) / 1.055)
  {
  }

  /** Within each segment a larger channel is never darker. */
  lemma ScaledChannelMonotoneOnSegments(pow24: real -> real, c: nat, d: nat)
    requires IsGammaPower(pow24) && IsIncreasing(pow24)
    requires c <= d && (d <= 10 || 10 < c)
    ensures ScaledChannel(pow24, c) <= ScaledChannel(pow24, d)
  {
  }

  /** Relative luminance: the channels' linear-light values weighted 0.2126, 0.7152 and 0.0722. */
  function RelativeLuminance(pow24: real -> real, c: RGB): (l: real)
    requires IsGammaPower(pow24)
    ensures 0.0 <= l
    ensures IsByteColor(c) ==> l <= 1.0
    ensures c.r == c.g == c.b ==> l == ScaledChannel(pow24, c.r)
  {
    ScaledChannel(pow24, c.r) * 0.2126 + ScaledChannel(pow24, c.g) * 0.7152
      + ScaledChannel(pow24, c.b) * 0.0722
  }

  /** `a / b` for `0 < b <= a` is at least 1, and exactly 1 only when `a == b`. */
  lemma QuotientAtLeastOne(a: real, b: real)
    requires 0.0 < b <= a
    ensures a / b >= 1.0
    ensures a / b == 1.0 <==> a == b
  {
  }

  /** The comparison at the end of `getContrastRatio`: the larger of two positive values over
      the smaller one. */
  function LargerOverSmaller(x: real, y: real): (q: real)
    requires 0.0 < x && 0.0 < y
    ensures q >= 1.0
    ensures q == 1.0 <==> x == y
  {
    if x > y then
      QuotientAtLeastOne(x, y);
      x / y
    else
      QuotientAtLeastOne(y, x);
      y / x
  }

  /** The quotient scales the smaller value back up to the larger one. */
  lemma LargerOverSmallerScales(x: real, y: real)
    requires 0.0 < x && 0.0 < y
    ensures LargerOverSmaller(x, y) * (if x > y then y else x) == (if x > y then x else y)
  {
  }

  /** The order of the two arguments does not matter. */
  lemma LargerOverSmallerSymmetric(x: real, y: real)
    requires 0.0 < x && 0.0 < y
    ensures LargerOverSmaller(x, y) == LargerOverSmaller(y, x)
  {
  }

  /** The contrast ratio of `getContrastRatio`: each luminance is offset by 0.05 and the larger
      offset luminance is divided by the smaller one. */
  function ContrastRatio(pow24: real -> real, bg: RGB, fg: RGB): (ratio: real)
    requires IsGammaPower(pow24)
    ensures ratio >= 1.0
    ensures ratio == 1.0 <==> RelativeLuminance(pow24, bg) == RelativeLuminance(pow24, fg)
  {
    LargerOverSmaller(RelativeLuminance(pow24, bg) + 0.05, RelativeLuminance(pow24, fg) + 0.05)
  }

  /** The definition in WCAG 2.0: (L1 + 0.05) / (L2 + 0.05) with L1 the lighter and L2 the darker
      relative luminance. */
  function WcagContrast(l1: real, l2: real): real
    requires 0.0 <= l1 && 0.0 <= l2
  {
    if l1 >= l2 then (l1 + 0.05) / (l2 + 0.05) else (l2 + 0.05) / (l1 + 0.05)
  }

  /** The code's ratio is the WCAG ratio of the two luminances. */
  lemma ContrastIsWcagContrast(pow24: real -> real, bg: RGB, fg: RGB)
    requires IsGammaPower(pow24)
    ensures ContrastRatio(pow24, bg, fg)
            == WcagContrast(RelativeLuminance(pow24, bg), RelativeLuminance(pow24, fg))
  {
  }

  /** Swapping background and foreground does not change the ratio. */
  lemma ContrastSymmetric(pow24: real -> real, bg: RGB, fg: RGB)
    requires IsGammaPower(pow24)
    ensures ContrastRatio(pow24, bg, fg) == ContrastRatio(pow24, fg, bg)
  {
  }

  /** A colour against itself has ratio 1. */
  lemma ContrastWithItself(pow24: real -> real, c: RGB)
    requires IsGammaPower(pow24)
    ensures ContrastRatio(pow24, c, c) == 1.0
  {
  }

  /** Two 8-bit colours are never more than 21:1 apart. */
  lemma ContrastAtMostTwentyOne(pow24: real -> real, bg: RGB, fg: RGB)
    requires IsGammaPower(pow24)
    requires IsByteColor(bg) && IsByteColor(fg)
    ensures ContrastRatio(pow24, bg, fg) <= 21.0
  {
    var a := RelativeLuminance(pow24, bg) + 0.05;
    var b := RelativeLuminance(pow24, fg) + 0.05;
    if a > b {
      QuotientAtMost(a, b);
    } else {
      QuotientAtMost(b, a);
    }
  }

  lemma QuotientAtMost(a: real, b: real)
    requires 0.05 <= b && a <= 1.05
    ensures a / b <= 21.0
  {
  }

  /** White on black is the extreme: exactly 21:1. */
  lemma WhiteOnBlack(pow24: real -> real)
    requires IsGammaPower(pow24)
    ensures ContrastRatio(pow24, RGB(255, 255, 255), RGB(0, 0, 0)) == 21.0
    ensures ContrastRatio(pow24, RGB(0, 0, 0), RGB(255, 255, 255)) == 21.0
  {
  }

  /** The three weighted channels of one colour plus 0.05, as the loop of `getContrastRatio`
      computes them for each of `bg` and `fg`. */
  method OffsetLuminance(pow24: real -> real, c: RGB) returns (sum: real)
    requires IsGammaPower(pow24)
    ensures sum == RelativeLuminance(pow24, c) + 0.05
    ensures 0.05 <= sum
  {
    var rScaled := ScaledChannel(pow24, c.r) * 0.2126;
    var gScaled := ScaledChannel(pow24, c.g) * 0.7152;
    var bScaled := ScaledChannel(pow24, c.b) * 0.0722;
    sum := rScaled + gScaled + bScaled + 0.05;
  }

  /** Comparing the two stored offset luminances gives the contrast ratio of the two colours. */
  lemma RatioOfOffsets(pow24: real -> real, bg: RGB, fg: RGB, bgSum: real, fgSum: real)
    requires IsGammaPower(pow24)
    requires bgSum == RelativeLuminance(pow24, bg) + 0.05
    requires fgSum == RelativeLuminance(pow24, fg) + 0.05
    ensures LargerOverSmaller(bgSum, fgSum) == ContrastRatio(pow24, bg, fg)
  {
  }

  /** The own keys of the object `run` builds, in the order `for ... in` visits them. */
  const ColorKeys: seq<string> := ["bg", "fg", "bgSum", "fgSum"]

  /** The `colors` object `run` hands to `getContrastRatio`; the ratios are absent until computed. */
  class ColorPair {
    var bg: RGB
    var fg: RGB
    var bgSum: real
    var fgSum: real
    var bgRatio: Option<real>
    var fgRatio: Option<real>

    constructor (bg: RGB, fg: RGB)
      ensures this.bg == bg && this.fg == fg
      ensures bgSum == 0.0 && fgSum == 0.0
      ensures bgRatio == None && fgRatio == None
    {
      this.bg := bg;
      this.fg := fg;
      bgSum := 0.0;
      fgSum := 0.0;
      bgRatio := None;
      fgRatio := None;
    }

    /** One pass of the `for ... in` loop of `getContrastRatio`: the keys `bg` and `fg` store
        that colour's offset luminance; every other key is skipped. */
    method VisitKey(pow24: real -> real, key: string)
      requires IsGammaPower(pow24)
      modifies this`bgRatio, this`fgRatio
      ensures key == "bg" ==> bgRatio == Some(RelativeLuminance(pow24, bg) + 0.05)
      ensures key != "bg" ==> bgRatio == old(bgRatio)
      ensures key == "fg" ==> fgRatio == Some(RelativeLuminance(pow24, fg) + 0.05)
      ensures key != "fg" ==> fgRatio == old(fgRatio)
    {
      if key == "bg" {
        var sum := OffsetLuminance(pow24, bg);
        bgRatio := Some(sum);
      } else if key == "fg" {
        var sum := OffsetLuminance(pow24, fg);
        fgRatio := Some(sum);
      }
    }

    /** `getContrastRatio`: visits the keys, stores each colour's offset luminance in `bgRatio`
        and `fgRatio`, and returns the larger over the smaller. Nothing else is written. */
    method GetContrastRatio(pow24: real -> real) returns (ratio: real)
      requires IsGammaPower(pow24)
      modifies this`bgRatio, this`fgRatio
      ensures bg == old(bg) && fg == old(fg) && bgSum == old(bgSum) && fgSum == old(fgSum)
      ensures bgRatio == Some(RelativeLuminance(pow24, bg) + 0.05)
      ensures fgRatio == Some(RelativeLuminance(pow24, fg) + 0.05)
      ensures ratio == ContrastRatio(pow24, bg, fg)
    {
      var i := 0;
      while i < |ColorKeys|
        invariant 0 <= i <= |ColorKeys|
        invariant i > 0 ==> bgRatio == Some(RelativeLuminance(pow24, bg) + 0.05)
        invariant i > 1 ==> fgRatio == Some(RelativeLuminance(pow24, fg) + 0.05)
      {
        VisitKey(pow24, ColorKeys[i]);
        i := i + 1;
      }
      RatioOfOffsets(pow24, bg, fg, bgRatio.value, fgRatio.value);
      ratio := LargerOverSmaller(bgRatio.value, fgRatio.value);
    }
  }
}
