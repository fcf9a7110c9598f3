# color-contrast in Dafny

A model of the core of `color-contrast`, a command-line tool that takes a background and a
foreground colour and reports their WCAG 2.0 contrast ratio with four pass/fail verdicts. The
core has three parts:

- **Colour-string parsers.** `trimHash` and `hexToRGB` read hexadecimal colours, in three-digit
  shorthand or as six digits. `cleanRGB` reads `rgb(r, g, b)` strings. Both are modelled as
  functions over `string` that return `Option<RGB>`. `None` stands for the `NaN`, `undefined` or
  thrown `TypeError` that JavaScript produces on malformed input.
- **Contrast engine.** `scaledRgbChannel` and `getContrastRatio` compute relative luminance and
  contrast ratio as defined in the glossary (Appendix A) of WCAG 2.0. They are computed over exact
  reals. `Math.pow(x, 2.4)` is a function parameter `pow24`. The model assumes only what
  `IsGammaPower` states about it: it is positive for positive inputs, at most 1 on (0, 1], and maps 1
  to 1. The `colors` object that `getContrastRatio` writes to is the class `ColorPair`. Its method
  loops over the object's keys as the source's `for ... in` does, and it is proved against the
  specification function `ContrastRatio`.
- **Report classifier.** `getReport` compares the ratio with the minimums of success criteria 1.4.3
  and 1.4.6 of WCAG 2.0. The comparison is the code's strict `>`, although WCAG says "at least".
  `VerdictsAgainstWcag` proves that the two readings differ only when the ratio equals a minimum.

Modules: `ColorTypes` (shared values), `JsString` (`String.prototype.trim`), `HexColor`,
`RgbString`, `Luminance` and `Compliance`. There is one file per module.

Where the code and its documented intent differ, the model follows the code:

- `hexToRGB` accepts bodies longer than six characters and reads only the first six.
- `Number("0xa ")` is 10, because `Number` ignores surrounding whitespace. So a pair whose second
  character is whitespace yields its first digit alone (`ParsePair`, `SpacedPairs`).
- `trimHash` drops the first character whenever a `#` occurs anywhere, so `" #fff"` fails to parse
  (`SpaceBeforeHashFails`).
- `cleanRGB` does not clamp its channels, so `RGB` channels are unbounded naturals. Only
  `HexToRGB` promises 8-bit channels.

## Model

| member | source | states |
|---|---|---|
| JsString.Trim | src/index.js:105 | `trim` leaves no whitespace at either end and never lengthens the string |
| JsString.TrimStartIsSuffix | src/index.js:105 | stripping leading whitespace keeps a suffix of the string, and everything before it is whitespace |
| JsString.TrimEndIsPrefix | src/index.js:105 | stripping trailing whitespace keeps a prefix of the string, and everything after it is whitespace |
| JsString.TrimIsSlice | src/index.js:105 | `trim` returns a slice `s[i..j]` of its input with only whitespace before `i` and from `j` on; with `Trim`'s contract, it removes exactly the whitespace at the two ends and keeps the middle |
| JsString.TrimNoWhitespace | src/index.js:105 | trimming a string without whitespace returns it unchanged |
| JsString.TrimIdempotent | src/index.js:105 | trimming twice is trimming once |
| HexColor.TrimHash | src/index.js:104-106 | the body never starts or ends with whitespace, is never longer than the input, and is strictly shorter than the input whenever a `#` occurs in it |
| HexColor.TrimHashIsSlice | src/index.js:104-106 | the body is a slice of the input (of the input without its first character when a `#` occurs anywhere) with only whitespace cut from the two ends |
| HexColor.HashPrefixIgnored | src/index.js:104-106 | `"#" + s` and `s` (with no `#` in `s`) normalise to the same body |
| HexColor.SpaceBeforeHashFails | src/index.js:104-106 | `" #fff"` keeps its `#` after `trimHash` and fails, while `"#fff"` gives white |
| HexColor.HexDigitValue | src/index.js:127-129 | a hexadecimal digit of either case has a value below 16 |
| HexColor.HexCharOfValue | src/index.js:127-129 | reading a digit and writing its value back gives the digit lowercased |
| HexColor.ParsePair | src/index.js:121-129 | `+("0x" + h[i] + h[i+1])`: two hex digits give `16 * hi + lo` <= 255; a hex digit followed by whitespace gives that one digit's value; an index past the end, a non-hex first character, or a second character that is neither a hex digit nor whitespace gives no number |
| HexColor.DoubledDigit | src/index.js:121-123 | a shorthand digit gives exactly 17 times its value, and only hex digits give a value |
| HexColor.BodyToRGB | src/index.js:119-130 | any colour read from a body is 8-bit and comes from a body of length 3 or at least 6 |
| HexColor.HexToRGB | src/index.js:116-132 | any colour `hexToRGB` yields is 8-bit, and it comes from a trimmed body of length 3 or at least 6 |
| HexColor.ShorthandDoubles | src/index.js:116-123 | for any input whose body is three hex digits, each channel is 17 times its digit, and the body reads as its six-digit spelling `aabbcc` |
| HexColor.PaddedShorthand | src/index.js:104-123 | `" abc "` is trimmed to the shorthand `abc` and gives (170, 187, 204) |
| HexColor.SpacedPairs | src/index.js:121-129 | in `"a b c d e f"` each pair is a digit and a space, read as that digit: (10, 11, 12) |
| HexColor.LongBodyPairs | src/index.js:121-130 | for a body whose first six characters are hex digits, the channels are `16 * hi + lo` of pairs [0:2], [2:4] and [4:6] |
| HexColor.BodyPairs | src/index.js:121-130 | the same fact stated for a body directly |
| HexColor.ShortBodyFails | src/index.js:121-123 | bodies of length 0, 1, 2, 4 or 5 give no colour |
| HexColor.WhiteAndBlack | src/index.js:8-9 | the default colours `ffffff` and `000000`, and `fff` and `000`, parse to white and black |
| HexColor.WhiteParses | src/index.js:119-123 | `ffffff` and `fff` both parse to (255, 255, 255) |
| HexColor.BlackParses | src/index.js:119-123 | `000000` and `000` both parse to (0, 0, 0) |
| HexColor.OwnBody | src/index.js:104-106 | a string of hex digits is its own body |
| HexColor.FormatThenParse | src/index.js:116-132 | any 8-bit colour written as six lowercase hex digits, with or without `#`, parses back to itself |
| HexColor.ParseThenFormat | src/index.js:116-132 | a six-digit body parses, and writing the colour back gives the body lowercased; with `FormatThenParse` the parser is a bijection between lowercase 6-digit bodies and 8-bit colours |
| HexColor.FormatPairs | src/index.js:121-129 | writing the channels read from six hex digits gives those digits lowercased |
| HexColor.CaseInsensitive | src/index.js:116-132 | lowercasing the input's hex letters never changes the colour or the failure |
| HexColor.TrimHashLower | src/index.js:104-106 | `trimHash` commutes with lowercasing |
| HexColor.BodyLower | src/index.js:119-130 | reading a lowercased body gives the same result as reading the body |
| HexColor.TrimLower | src/index.js:105 | `trim` commutes with lowercasing |
| HexColor.TrimStartLower | src/index.js:105 | stripping leading whitespace commutes with lowercasing |
| HexColor.TrimEndLower | src/index.js:105 | stripping trailing whitespace commutes with lowercasing |
| RgbString.LeadingDigits | src/index.js:228 | the greedy `\d+` match at the start is all digits and stops at a non-digit or the end |
| RgbString.DigitRuns | src/index.js:228-231 | every match of `/(\d+)/g` is a nonempty run of digits |
| RgbString.CleanRGB | src/index.js:226-238 | `cleanRGB` yields a colour exactly when the string holds at least three digit runs |
| RgbString.DecimalValue | src/index.js:231 | `+x` on a run of `n` digits is its base-10 value, below 10^n |
| RgbString.LeadingZeroIgnored | src/index.js:231 | a leading zero does not change `+x`: `"007"` reads as 7 |
| RgbString.DecimalRoundTrip | src/index.js:231 | `+x` inverts the shortest decimal spelling (`DecimalString`, the spelling `FormatThenClean` writes): every number is read back from it |
| RgbString.LeadingDigitsStop | src/index.js:228 | once the greedy match has met a non-digit, what follows does not change it |
| RgbString.LeadingDigitsOfRun | src/index.js:228 | a run of digits followed by a non-digit or the end is matched whole |
| RgbString.DigitRunsSplit | src/index.js:228-231 | a non-digit separates the matches: the runs of `s + [c] + t` are those of `s` followed by those of `t` |
| RgbString.SingleRun | src/index.js:228-231 | a nonempty string of digits is a single match |
| RgbString.NonDigitsIgnored | src/index.js:228-231 | strings with the same digits in the same places, whatever their other characters, have the same runs |
| RgbString.LeadingDigitsAgree | src/index.js:228 | the same holds for the first run |
| RgbString.NoDigitPrefix | src/index.js:228-231 | a prefix without digits adds no match |
| RgbString.RunThenRest | src/index.js:228-231 | a digit run closed by a non-digit is the next match |
| RgbString.FormatThenClean | src/index.js:224-238 | `cleanRGB("rgb(r, g, b)")` returns (r, g, b) for every colour |
| RgbString.RunsKeepEveryDigit | src/index.js:228-231 | the matches, joined, are exactly the input's digits in left-to-right order |
| RgbString.ExtraRunsIgnored | src/index.js:233-237 | runs after the third do not change the colour |
| RgbString.TooFewRunsFail | src/index.js:231-237 | with fewer than three runs there is no colour (one direction of `CleanRGB`'s contract, kept as its own statement) |
| Luminance.ScaledChannel | src/index.js:248-261 | a channel's linear-light value is non-negative, 0 for channel 0, at most 1 for 8-bit channels and exactly 1 for 255 |
| Luminance.LinearSegmentIsZeroToTen | src/index.js:249-258 | `c / 255 <= 0.03928` holds exactly for channels 0 to 10, which take the linear branch `c / 255 / 12.92`; all others take the power branch |
| Luminance.ScaledChannelMonotoneOnSegments | src/index.js:253-258 | within each branch a larger channel never gives a smaller value |
| Luminance.RelativeLuminance | src/index.js:53-57 | relative luminance is non-negative, at most 1 for 8-bit colours, and equals the channel value for greys |
| Luminance.LargerOverSmaller | src/index.js:69-71 | the ratio is at least 1, and is 1 exactly when the two sides are equal |
| Luminance.LargerOverSmallerScales | src/index.js:69-71 | the ratio times the smaller side gives the larger side |
| Luminance.LargerOverSmallerSymmetric | src/index.js:69-71 | the comparison gives the same ratio in either argument order |
| Luminance.ContrastRatio | src/index.js:50-72 | the contrast ratio is at least 1, and exactly 1 when the two colours have equal luminance |
| Luminance.ContrastIsWcagContrast | src/index.js:57-71 | the code's ratio equals WCAG's (L1 + 0.05) / (L2 + 0.05), with L1 the lighter luminance; the code compares with `>` and WCAG names the lighter colour, so the two readings differ only in which side is named when the luminances are equal |
| Luminance.ContrastSymmetric | src/index.js:69-71 | swapping `bg` and `fg` does not change the ratio |
| Luminance.ContrastWithItself | src/index.js:69-71 | a colour against itself has ratio exactly 1 |
| Luminance.ContrastAtMostTwentyOne | src/index.js:57-71 | two 8-bit colours are at most 21:1 apart |
| Luminance.WhiteOnBlack | src/index.js:57-71 | white against black, in either order, is exactly 21:1 |
| Luminance.OffsetLuminance | src/index.js:53-64 | the three weighted channels plus 0.05 equal the relative luminance plus 0.05, so they are at least 0.05 |
| Luminance.RatioOfOffsets | src/index.js:57-71 | comparing the two stored offset luminances gives `ContrastRatio(bg, fg)` (an unfolding of `ContrastRatio`, the last step of `GetContrastRatio`) |
| Luminance.ColorPair.constructor | src/index.js:26-31 | the `colors` object holds `bg` and `fg`, `bgSum` and `fgSum` are 0, and no ratio is present yet |
| Luminance.ColorPair.VisitKey | src/index.js:51-66 | one pass of the `for ... in` loop: key `bg` stores the luminance of `bg` plus 0.05 in `bgRatio`, key `fg` does the same for `fg`, and no other key changes either ratio |
| Luminance.ColorPair.GetContrastRatio | src/index.js:50-72 | after the loop over the keys, `bgRatio` and `fgRatio` hold each colour's luminance plus 0.05, `bg`, `fg`, `bgSum` and `fgSum` are unchanged, and the result is `ContrastRatio(bg, fg)` |
| Compliance.GetReport | src/index.js:80-94 | the report carries the ratio; AA and AAA-large always agree; passing AAA implies passing all four; passing AA implies passing AA-large |
| Compliance.VerdictsAgainstWcag | src/index.js:82-85 | each verdict passes exactly when WCAG's "at least the minimum" holds and the ratio is not equal to the minimum |
| Compliance.BoundaryAtFourPointFive | src/index.js:82-85 | a ratio of exactly 4.5 fails AA and AAA-large although it meets WCAG's minimum, and 4.51 passes both |
| Compliance.VerdictsMonotone | src/index.js:82-85 | a higher ratio never loses a verdict |
| Compliance.VerdictBands | src/index.js:82-85 | the four verdicts for each band (up to 3, up to 4.5, up to 7, above 7) |
| Compliance.SameColorFailsAll | src/index.js:50-94 | a colour against itself fails every level |
| Compliance.DefaultColorsPassAll | src/index.js:8-36 | the default colours `ffffff` on `000000` give exactly 21:1 and pass all four levels |

## Left out

- `run`, the oclif `Command` base class, `this.parse`, `this.log`, the `flags` table and the
  JSON output (src/index.js:1-40, 265-283) are command-line plumbing over a library that is not part
  of this model. The model has no mode selection and no end-to-end entry point. Parse failures end
  at `None` and are not carried on to a report. In JavaScript a `NaN` or `undefined` channel gives a
  `NaN` ratio, which fails all four levels. A `cleanRGB` input with no digit run at all gives no
  ratio: `match` returns `null` and `.map` throws a `TypeError` (src/index.js:231).
- `hslToRGB` (src/index.js:134-217) is left out. Its arithmetic is floating point, with `Math.PI`,
  `Math.round`, float `%` and unit stripping driven by regular expressions. It uses saturation and
  lightness as raw percentages and gives hue 0 no sextant. So no stated behaviour could be verified
  over the reals.
- The value of `Math.pow(base, 2.4)` is left out. It is the parameter `pow24`, and the model
  assumes only what `IsGammaPower` states. Numeric facts that depend on its actual values are out of
  reach, such as the ratio of `777777` against `888888`.
- Floating point is left out: luminance and ratios are exact reals. JavaScript doubles may round,
  for example 0.2126 + 0.7152 + 0.0722 need not be exactly 1.
- `+x` in `cleanRGB` loses precision above 2^53 in JavaScript. `DecimalValue` is exact.
- Luminance.ScaledChannelMonotoneOnSegments: states monotonicity only within each branch, not
  across the step from channel 10 to 11. Comparing the two branches needs actual values of
  `Math.pow`, and it also needs `IsIncreasing(pow24)`.
- HexColor.TrimHash: strings are read as sequences of Unicode scalar values, not UTF-16 code units.
  `substring(1)` drops one code unit, so for an input that starts with a character outside the Basic
  Multilingual Plane and contains a `#`, JavaScript keeps a lone low surrogate at the front of the
  body while the model drops the whole character. For `"\u{1F600}abcdef#"` JavaScript gives `NaN`
  channels and `HexToRGB` gives (171, 205, 239). Every other step agrees: the whitespace `trim`
  removes lies in the Basic Multilingual Plane, and no surrogate is a digit, so the lengths that
  decide between shorthand, pairs and failure lead to the same result.
