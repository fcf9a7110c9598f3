/** `getReport`: the four WCAG 2.0 verdicts for a contrast ratio, and how the whole chain from hex
    strings to verdicts behaves on white and black. */
module Compliance {
  import opened ColorTypes
  import HexColor
  import Luminance

  datatype Verdict = Pass | Fail

  /** The report object: the ratio and the verdicts for normal (AA, AAA) and large text. */
  datatype Report = Report(ratio: real, aa: Verdict, aaLarge: Verdict, aaa: Verdict, aaaLarge: Verdict)

  /** Minimum ratios of WCAG 2.0: success criterion 1.4.3 (AA: 4.5 for text, 3 for large text)
      and 1.4.6 (AAA: 7 for text, 4.5 for large text). */
  const AAMinimum: real := 4.5
  const AALargeMinimum: real := 3.0
  const AAAMinimum: real := 7.0
  const AAALargeMinimum: real := 4.5

  /** The code passes a level only when the ratio is strictly above its minimum. */
  function Above(ratio: real, minimum: real): Verdict {
    if ratio > minimum then Pass else Fail
  }

  /** `getReport`. */
  function GetReport(ratio: real): (r: Report)
    ensures r.ratio == ratio
    ensures r.aa == r.aaaLarge
    ensures r.aaa == Pass ==> r.aa == Pass && r.aaLarge == Pass && r.aaaLarge == Pass
    ensures r.aa == Pass ==> r.aaLarge == Pass
  {
    Report(ratio, Above(ratio, AAMinimum), Above(ratio, AALargeMinimum), Above(ratio, AAAMinimum),
           Above(ratio, AAALargeMinimum))
  }

  /** WCAG 2.0 asks for a ratio of AT LEAST the minimum. */
  predicate MeetsWcag(ratio: real, minimum: real) {
    ratio >= minimum
  }

  function Verdicts(r: Report): seq<Verdict> {
    [r.aa, r.aaLarge, r.aaa, r.aaaLarge]
  }

  const Minimums: seq<real> := [AAMinimum, AALargeMinimum, AAAMinimum, AAALargeMinimum]

  /** Against the wording of WCAG 2.0, each verdict passes exactly when the minimum is met and
      the ratio is not equal to it: the strict comparison differs only at the minimum itself. */
  lemma VerdictsAgainstWcag(ratio: real)
    ensures forall k :: 0 <= k < 4 ==>
      (Verdicts(GetReport(ratio))[k] == Pass <==> MeetsWcag(ratio, Minimums[k]) && ratio != Minimums[k])
  {
  }

  /** Exactly 4.5:1 fails AA and AAA large text (WCAG would pass both) but passes AA large text;
      a ratio just above passes both. */
  lemma BoundaryAtFourPointFive()
    ensures var r := GetReport(4.5); r.aa == Fail && r.aaaLarge == Fail && r.aaLarge == Pass && r.aaa == Fail
    ensures MeetsWcag(4.5, AAMinimum) && MeetsWcag(4.5, AAALargeMinimum)
    ensures var r := GetReport(4.51); r.aa == Pass && r.aaaLarge == Pass && r.aaa == Fail
  {
  }

  /** A higher ratio never loses a verdict. */
  lemma VerdictsMonotone(lower: real, higher: real)
    requires lower <= higher
    ensures forall k :: 0 <= k < 4 ==>
      Verdicts(GetReport(lower))[k] == Pass ==> Verdicts(GetReport(higher))[k] == Pass
  {
  }

  /** The verdicts are determined by which band between the thresholds the ratio falls in. */
  lemma VerdictBands(ratio: real)
    ensures ratio <= 3.0 ==> Verdicts(GetReport(ratio)) == [Fail, Fail, Fail, Fail]
    ensures 3.0 < ratio <= 4.5 ==> Verdicts(GetReport(ratio)) == [Fail, Pass, Fail, Fail]
    ensures 4.5 < ratio <= 7.0 ==> Verdicts(GetReport(ratio)) == [Pass, Pass, Fail, Pass]
    ensures 7.0 < ratio ==> Verdicts(GetReport(ratio)) == [Pass, Pass, Pass, Pass]
  {
  }

  /** A colour against itself fails every level. */
  lemma SameColorFailsAll(pow24: real -> real, c: RGB)
    requires Luminance.IsGammaPower(pow24)
    ensures Verdicts(GetReport(Luminance.ContrastRatio(pow24, c, c))) == [Fail, Fail, Fail, Fail]
  {
  }

  /** The default colours of the command, `ffffff` on `000000`, read through `hexToRGB`: a ratio of
      exactly 21 and a pass at every level. */
  lemma DefaultColorsPassAll(pow24: real -> real)
    requires Luminance.IsGammaPower(pow24)
    ensures HexColor.HexToRGB("ffffff") == Some(RGB(255, 255, 255))
    ensures HexColor.HexToRGB("000000") == Some(RGB(0, 0, 0))
    ensures GetReport(Luminance.ContrastRatio(pow24, RGB(255, 255, 255), RGB(0, 0, 0)))
            == Report(21.0, Pass, Pass, Pass, Pass)
  {
    HexColor.WhiteAndBlack();
    Luminance.WhiteOnBlack(pow24);
    VerdictBands(21.0);
  }
}
