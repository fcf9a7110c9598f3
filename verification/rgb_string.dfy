/** `cleanRGB`: the channels of an `rgb(r, g, b)` string, read as the first three maximal runs
    of decimal digits that the global pattern `\d+` matches. */
module RgbString {
  import opened ColorTypes

  predicate AllDigits(s: string) {
    forall i :: 0 <= i < |s| ==> IsDigit(s[i])
  }

  /** Length of the run of digits at the start of `s`: a greedy `\d+` match is exactly this long. */
  function LeadingDigits(s: string): (n: nat)
    ensures n <= |s|
    ensures AllDigits(s[..n])
    ensures n < |s| ==> !IsDigit(s[n])
  {
    if s != [] && IsDigit(s[0]) then
      var m := LeadingDigits(s[1..]);
      assert s[..m + 1] == [s[0]] + s[1..][..m];
      m + 1
    else 0
  }

  /** The matches of `/(\d+)/g` in order: every maximal run of digits, left to right. */
  function DigitRuns(s: string): (runs: seq<string>)
    ensures forall k :: 0 <= k < |runs| ==> runs[k] != [] && AllDigits(runs[k])
    decreases |s|
  {
    if s == [] then []
    else if !IsDigit(s[0]) then DigitRuns(s[1..])
    else
      var n := LeadingDigits(s);
      [s[..n]] + DigitRuns(s[n..])
  }

  function Pow10(n: nat): (p: nat)
    ensures p >= 1
  {
    if n == 0 then 1 else 10 * Pow10(n - 1)
  }

  /** `+x` on a string of decimal digits: its base-10 value (leading zeros allowed). A run of `n`
      digits is below `10^n`. */
  function DecimalValue(d: string): (v: nat)
    requires AllDigits(d)
    ensures v < Pow10(|d|)
  {
    if d == [] then 0 else 10 * DecimalValue(d[..|d| - 1]) + DigitValue(d[|d| - 1])
  }

  /** Leading zeros do not change the value: `+"007"` is 7. */
  lemma {:induction false} LeadingZeroIgnored(d: string)
    requires AllDigits(d)
    ensures AllDigits(['0'] + d) && DecimalValue(['0'] + d) == DecimalValue(d)
  {
    var z := ['0'] + d;
    if d != [] {
      assert z[..|z| - 1] == ['0'] + d[..|d| - 1];
      LeadingZeroIgnored(d[..|d| - 1]);
    }
  }

  /** `cleanRGB`: r, g and b are the values of the first three runs; later runs are ignored.
      With no run at all `match` returns null and `map` throws; with one or two the missing
      channels are undefined. Both are None here. */
  function CleanRGB(rgb: string): (c: Option<RGB>)
    ensures c.Some? <==> |DigitRuns(rgb)| >= 3
  {
    var runs := DigitRuns(rgb);
    if |runs| >= 3 then
      Some(RGB(DecimalValue(runs[0]), DecimalValue(runs[1]), DecimalValue(runs[2])))
    else None
  }

  /** The shortest decimal spelling of a natural number. */
  function DecimalString(n: nat): (d: string)
    ensures d != [] && AllDigits(d)
  {
    if n < 10 then [('0' as int + n) as char]
    else DecimalString(n / 10) + [('0' as int + n % 10) as char]
  }

  /** Reading back the decimal spelling gives the number. */
  lemma {:induction false} DecimalRoundTrip(n: nat)
    ensures DecimalValue(DecimalString(n)) == n
  {
    var d := DecimalString(n);
    if n >= 10 {
      assert d[..|d| - 1] == DecimalString(n / 10);
      DecimalRoundTrip(n / 10);
    }
  }

  /** The `rgb(r, g, b)` notation the command line accepts. */
  function FormatRGB(c: RGB): string {
    "rgb(" + DecimalString(c.r) + ", " + DecimalString(c.g) + ", " + DecimalString(c.b) + ")"
  }

  /** Once the greedy match has seen a non-digit, the rest of the string does not matter. */
  lemma {:induction false} LeadingDigitsStop(s: string, t: string)
    requires LeadingDigits(s) < |s|
    ensures LeadingDigits(s + t) == LeadingDigits(s)
  {
    if IsDigit(s[0]) {
      assert (s + t)[1..] == s[1..] + t;
      LeadingDigitsStop(s[1..], t);
    }
  }

  /** A run of digits followed by a non-digit is matched whole. */
  lemma {:induction false} LeadingDigitsOfRun(d: string, t: string)
    requires AllDigits(d)
    requires t == [] || !IsDigit(t[0])
    ensures LeadingDigits(d + t) == |d|
  {
    if d != [] {
      assert (d + t)[1..] == d[1..] + t;
      LeadingDigitsOfRun(d[1..], t);
    }
  }

  /** A non-digit separates runs: the runs of `s + [c] + t` are those of `s` followed by those of `t`. */
  lemma {:induction false} DigitRunsSplit(s: string, c: char, t: string)
    requires !IsDigit(c)
    ensures DigitRuns(s + [c] + t) == DigitRuns(s) + DigitRuns(t)
    decreases |s|
  {
    var u := s + [c] + t;
    if s == [] {
      assert u[1..] == t;
    } else if !IsDigit(s[0]) {
      assert u[1..] == s[1..] + [c] + t;
      DigitRunsSplit(s[1..], c, t);
    } else {
      var n := LeadingDigits(s);
      if n < |s| {
        LeadingDigitsStop(s, [c] + t);
        assert u == s + ([c] + t);
      } else {
        assert s[..n] == s;
        LeadingDigitsOfRun(s, [c] + t);
        assert u == s + ([c] + t);
      }
      assert u[..n] == s[..n];
      assert u[n..] == s[n..] + [c] + t;
      DigitRunsSplit(s[n..], c, t);
    }
  }

  /** A nonempty string of digits is a single run. */
  lemma SingleRun(d: string)
    requires d != [] && AllDigits(d)
    ensures DigitRuns(d) == [d]
  {
    LeadingDigitsOfRun(d, []);
    assert d + [] == d;
    assert d[|d|..] == [];
  }

  /** Which characters are not digits does not matter: two strings with the same digits at the same
      places, and non-digits elsewhere, have the same runs. */
  lemma {:induction false} NonDigitsIgnored(s: string, t: string)
    requires |s| == |t|
    requires forall i :: 0 <= i < |s| ==> (IsDigit(s[i]) || IsDigit(t[i]) ==> s[i] == t[i])
    ensures DigitRuns(s) == DigitRuns(t)
    decreases |s|
  {
    if s != [] {
      if !IsDigit(s[0]) {
        NonDigitsIgnored(s[1..], t[1..]);
      } else {
        LeadingDigitsAgree(s, t);
        var n := LeadingDigits(s);
        assert s[..n] == t[..n];
        NonDigitsIgnored(s[n..], t[n..]);
      }
    }
  }

  lemma {:induction false} LeadingDigitsAgree(s: string, t: string)
    requires |s| == |t|
    requires forall i :: 0 <= i < |s| ==> (IsDigit(s[i]) || IsDigit(t[i]) ==> s[i] == t[i])
    ensures LeadingDigits(s) == LeadingDigits(t)
  {
  }

  /** A prefix without digits adds no run. */
  lemma {:induction false} NoDigitPrefix(p: string, t: string)
    requires forall i :: 0 <= i < |p| ==> !IsDigit(p[i])
    ensures DigitRuns(p + t) == DigitRuns(t)
  {
    if p != [] {
      assert (p + t)[1..] == p[1..] + t;
      NoDigitPrefix(p[1..], t);
    } else {
      assert p + t == t;
    }
  }

  /** A run of digits closed by a non-digit is the next match. */
  lemma RunThenRest(d: string, sep: char, t: string)
    requires d != [] && AllDigits(d) && !IsDigit(sep)
    ensures DigitRuns(d + [sep] + t) == [d] + DigitRuns(t)
  {
    DigitRunsSplit(d, sep, t);
    SingleRun(d);
  }

  /** Formatting a colour in `rgb(r, g, b)` notation and cleaning it gives the colour back. */
  lemma FormatThenClean(c: RGB)
    ensures CleanRGB(FormatRGB(c)) == Some(c)
  {
    var dr, dg, db := DecimalString(c.r), DecimalString(c.g), DecimalString(c.b);
    var w := db + [')'] + [];
    var z := dg + [','] + (" " + w);
    var x := dr + [','] + (" " + z);
    assert FormatRGB(c) == "rgb(" + x;
    NoDigitPrefix("rgb(", x);
    RunThenRest(dr, ',', " " + z);
    NoDigitPrefix(" ", z);
    RunThenRest(dg, ',', " " + w);
    NoDigitPrefix(" ", w);
    RunThenRest(db, ')', []);
    assert DigitRuns(FormatRGB(c)) == [dr, dg, db];
    DecimalRoundTrip(c.r);
    DecimalRoundTrip(c.g);
    DecimalRoundTrip(c.b);
  }

  /** The digits of `s` in order, everything else dropped. */
  function Digits(s: string): (d: string)
    ensures AllDigits(d)
  {
    if s == [] then [] else (if IsDigit(s[0]) then [s[0]] else []) + Digits(s[1..])
  }

  function Concat(runs: seq<string>): string {
    if runs == [] then [] else runs[0] + Concat(runs[1..])
  }

  lemma {:induction false} DigitsAppend(a: string, b: string)
    ensures Digits(a + b) == Digits(a) + Digits(b)
  {
    if a == [] {
      assert a + b == b;
    } else {
      assert (a + b)[1..] == a[1..] + b;
      DigitsAppend(a[1..], b);
    }
  }

  lemma {:induction false} DigitsOfRun(d: string)
    requires AllDigits(d)
    ensures Digits(d) == d
  {
    if d != [] {
      DigitsOfRun(d[1..]);
    }
  }

  /** The runs, put back together, are the digits of the input in their original order: no digit
      is lost, none is reordered, and only non-digits separate the matches. */
  lemma {:induction false} RunsKeepEveryDigit(s: string)
    ensures Concat(DigitRuns(s)) == Digits(s)
    decreases |s|
  {
    if s != [] {
      if !IsDigit(s[0]) {
        RunsKeepEveryDigit(s[1..]);
      } else {
        var n := LeadingDigits(s);
        var rest := DigitRuns(s[n..]);
        RunsKeepEveryDigit(s[n..]);
        assert ([s[..n]] + rest)[1..] == rest;
        assert s == s[..n] + s[n..];
        DigitsAppend(s[..n], s[n..]);
        DigitsOfRun(s[..n]);
      }
    }
  }

  /** Runs after the third do not affect the result: once three runs have been seen, anything
      after a separating non-digit can be appended. */
  lemma ExtraRunsIgnored(s: string, sep: char, t: string)
    requires |DigitRuns(s)| >= 3 && !IsDigit(sep)
    ensures CleanRGB(s + [sep] + t) == CleanRGB(s)
  {
    DigitRunsSplit(s, sep, t);
  }

  /** Fewer than three runs: no colour. */
  lemma TooFewRunsFail(s: string)
    requires |DigitRuns(s)| < 3
    ensures CleanRGB(s) == None
  {
  }
}
