/** `trimHash` and `hexToRGB`: hexadecimal colour strings to 8-bit channels. */
module HexColor {
  import opened ColorTypes
  import opened JsString

  predicate IsHexDigit(c: char) {
    IsDigit(c) || ('a' <= c <= 'f') || ('A' <= c <= 'F')
  }

  /** Value of one hexadecimal digit, upper or lower case. */
  function HexDigitValue(c: char): (v: nat)
    requires IsHexDigit(c)
    ensures v < 16
  {
    if IsDigit(c) then DigitValue(c)
    else if 'a' <= c <= 'f' then (c - 'a') as nat + 10
    else (c - 'A') as nat + 10
  }

  /** Lower-cases the six upper-case hexadecimal letters and leaves every other character. */
  function LowerHex(c: char): char {
    if 'A' <= c <= 'F' then (c - 'A' + 'a') as char else c
  }

  /** The lowercase hexadecimal digit of a value below 16. */
  function HexChar(v: nat): (c: char)
    requires v < 16
    ensures IsHexDigit(c) && HexDigitValue(c) == v
    ensures !('A' <= c <= 'F')
  {
    if v < 10 then ('0' as int + v) as char else ('a' as int + v - 10) as char
  }

  /** Digits are read case-insensitively, and writing a value back gives its lowercase digit. */
  lemma HexCharOfValue(c: char)
    requires IsHexDigit(c)
    ensures HexChar(HexDigitValue(c)) == LowerHex(c)
  {
  }

  /** What `trimHash` trims: the input without its first character when a `#` occurs anywhere
      in it, otherwise the whole input. */
  function HashDropped(hex: string): string {
    if '#' in hex then hex[1..] else hex
  }

  /** `trimHash`: when the input contains a `#` anywhere its FIRST character is dropped
      (whatever it is), then whitespace is trimmed from both ends; otherwise it is only trimmed. */
  function TrimHash(hex: string): (h: string)
    ensures |h| <= |HashDropped(hex)|
    ensures '#' in hex ==> |h| < |hex|
    ensures h == [] || (!IsJsWhitespace(h[0]) && !IsJsWhitespace(h[|h| - 1]))
  {
    Trim(HashDropped(hex))
  }

  /** The body is what `trimHash` keeps of its input, with only whitespace around it dropped. */
  lemma TrimHashIsSlice(hex: string)
    ensures IsTrimmedSlice(HashDropped(hex), TrimHash(hex))
  {
    TrimIsSlice(HashDropped(hex));
  }

  /** `+("0x" + hi + lo)` for the characters at `i` and `i + 1` of `h`. An index past the end reads
      as the text "undefined" and makes the number NaN. Number() ignores surrounding whitespace, so a
      whitespace low character leaves the one-digit literal `0x<hi>`. */
  function ParsePair(h: string, i: nat): (v: Option<nat>)
    ensures v.Some? ==> v.value <= 255
    ensures i + 1 < |h| && IsHexDigit(h[i]) && IsHexDigit(h[i + 1]) ==>
              v == Some(16 * HexDigitValue(h[i]) + HexDigitValue(h[i + 1]))
    ensures i + 1 < |h| && IsHexDigit(h[i]) && IsJsWhitespace(h[i + 1]) ==>
              v == Some(HexDigitValue(h[i]))
    ensures v.Some? ==> i + 1 < |h| && IsHexDigit(h[i])
    ensures v.Some? ==> IsHexDigit(h[i + 1]) || IsJsWhitespace(h[i + 1])
  {
    if i + 1 < |h| && IsHexDigit(h[i]) then
      if IsHexDigit(h[i + 1]) then Some(16 * HexDigitValue(h[i]) + HexDigitValue(h[i + 1]))
      else if IsJsWhitespace(h[i + 1]) then Some(HexDigitValue(h[i]))
      else None
    else None
  }

  /** `+("0x" + d + d)`: a shorthand digit doubled. */
  function DoubledDigit(d: char): (v: Option<nat>)
    ensures v.Some? <==> IsHexDigit(d)
    ensures v.Some? ==> v.value == 17 * HexDigitValue(d) && v.value <= 255
  {
    if IsHexDigit(d) then Some(16 * HexDigitValue(d) + HexDigitValue(d)) else None
  }

  /** The `{r, g, b}` object, or None when any channel is NaN. */
  function Channels(r: Option<nat>, g: Option<nat>, b: Option<nat>): Option<RGB> {
    if r.Some? && g.Some? && b.Some? then Some(RGB(r.value, g.value, b.value)) else None
  }

  /** The channels `hexToRGB` reads from a body `h` that `trimHash` produced: a body of exactly
      three characters is shorthand with every digit doubled; any other length is read as three
      pairs at positions 0, 2 and 4, extra characters ignored. */
  function BodyToRGB(h: string): (c: Option<RGB>)
    ensures c.Some? ==> IsByteColor(c.value)
    ensures c.Some? ==> |h| == 3 || |h| >= 6
  {
    if |h| == 3 then Channels(DoubledDigit(h[0]), DoubledDigit(h[1]), DoubledDigit(h[2]))
    else Channels(ParsePair(h, 0), ParsePair(h, 2), ParsePair(h, 4))
  }

  /** `hexToRGB`: the 8-bit colour of a hexadecimal string, or None where JavaScript yields NaN. */
  function HexToRGB(hex: string): (c: Option<RGB>)
    ensures c.Some? ==> IsByteColor(c.value)
    ensures c.Some? ==> |TrimHash(hex)| == 3 || |TrimHash(hex)| >= 6
  {
    BodyToRGB(TrimHash(hex))
  }

  /** Six lowercase hexadecimal digits of an 8-bit colour, without `#`. */
  function FormatHex(c: RGB): (s: string)
    requires IsByteColor(c)
    ensures |s| == 6
  {
    [HexChar(c.r / 16), HexChar(c.r % 16), HexChar(c.g / 16), HexChar(c.g % 16),
     HexChar(c.b / 16), HexChar(c.b % 16)]
  }

  predicate AllHexDigits(s: string) {
    forall i :: 0 <= i < |s| ==> IsHexDigit(s[i])
  }

  function Lower(s: string): (t: string)
    ensures |t| == |s| && forall i :: 0 <= i < |s| ==> t[i] == LowerHex(s[i])
  {
    seq(|s|, i requires 0 <= i < |s| => LowerHex(s[i]))
  }

  /** A hex string that has a `#` somewhere and one that does not normalise alike once the `#` is
      put in front: `"#aabbcc"` and `"aabbcc"` give the same body. */
  lemma HashPrefixIgnored(s: string)
    requires '#' !in s
    ensures TrimHash(['#'] + s) == TrimHash(s)
  {
  }

  /** A leading `#` only works as the very first character: with whitespace before it, the
      whitespace is what `trimHash` drops, the `#` stays and the colour fails to parse. */
  lemma SpaceBeforeHashFails()
    ensures HexToRGB(" #fff") == None
    ensures HexToRGB("#fff") == Some(RGB(255, 255, 255))
  {
    assert " #fff"[1..] == "#fff" && "#fff"[1..] == "fff";
    assert TrimStart("#fff") == "#fff" && TrimEnd("#fff") == "#fff";
    assert TrimHash(" #fff") == "#fff";
    OwnBody("fff");
  }

  /** A three-digit body: every channel is its digit doubled, 17 times the digit's value, and the
      result equals that of the six-digit spelling `d0 d0 d1 d1 d2 d2`. */
  lemma ShorthandDoubles(hex: string)
    requires var h := TrimHash(hex); |h| == 3 && AllHexDigits(h)
    ensures var h := TrimHash(hex);
      HexToRGB(hex) == Some(RGB(17 * HexDigitValue(h[0]), 17 * HexDigitValue(h[1]),
                                17 * HexDigitValue(h[2])))
    ensures var h := TrimHash(hex);
      HexToRGB(hex) == BodyToRGB([h[0], h[0], h[1], h[1], h[2], h[2]])
  {
    var h := TrimHash(hex);
    BodyPairs([h[0], h[0], h[1], h[1], h[2], h[2]]);
  }

  /** Whitespace around a body is trimmed: `" abc "` is shorthand for `aabbcc`. */
  lemma PaddedShorthand()
    ensures HexToRGB(" abc ") == Some(RGB(170, 187, 204))
  {
    assert " abc "[1..] == "abc ";
    assert TrimStart(" abc ") == "abc ";
    assert "abc "[..3] == "abc";
    assert TrimHash(" abc ") == "abc";
  }

  /** Whitespace inside a pair: in `"a b c d e f"` each pair `"a "` reads as the single digit `a`. */
  lemma SpacedPairs()
    ensures HexToRGB("a b c d e f") == Some(RGB(10, 11, 12))
  {
    var s := "a b c d e f";
    assert TrimStart(s) == s && TrimEnd(s) == s;
    assert TrimHash(s) == s;
  }

  /** A body of at least six characters whose first six are hexadecimal digits: each channel is
      `16 * hi + lo` of its pair, so it lies in [0, 255]. */
  lemma LongBodyPairs(hex: string)
    requires var h := TrimHash(hex); |h| >= 6 && forall i :: 0 <= i < 6 ==> IsHexDigit(h[i])
    ensures var h := TrimHash(hex);
      HexToRGB(hex) == Some(RGB(16 * HexDigitValue(h[0]) + HexDigitValue(h[1]),
                                16 * HexDigitValue(h[2]) + HexDigitValue(h[3]),
                                16 * HexDigitValue(h[4]) + HexDigitValue(h[5])))
  {
  }

  lemma BodyPairs(h: string)
    requires |h| >= 6 && IsHexDigit(h[0]) && IsHexDigit(h[1]) && IsHexDigit(h[2])
    requires IsHexDigit(h[3]) && IsHexDigit(h[4]) && IsHexDigit(h[5])
    ensures BodyToRGB(h) == Some(RGB(16 * HexDigitValue(h[0]) + HexDigitValue(h[1]),
                                     16 * HexDigitValue(h[2]) + HexDigitValue(h[3]),
                                     16 * HexDigitValue(h[4]) + HexDigitValue(h[5])))
  {
  }

  /** The command's default colours and their shorthand spellings. */
  lemma WhiteAndBlack()
    ensures HexToRGB("ffffff") == Some(RGB(255, 255, 255)) && HexToRGB("fff") == Some(RGB(255, 255, 255))
    ensures HexToRGB("000000") == Some(RGB(0, 0, 0)) && HexToRGB("000") == Some(RGB(0, 0, 0))
  {
    WhiteParses();
    BlackParses();
  }

  lemma WhiteParses()
    ensures HexToRGB("ffffff") == Some(RGB(255, 255, 255)) && HexToRGB("fff") == Some(RGB(255, 255, 255))
  {
    OwnBody("ffffff");
    OwnBody("fff");
  }

  lemma BlackParses()
    ensures HexToRGB("000000") == Some(RGB(0, 0, 0)) && HexToRGB("000") == Some(RGB(0, 0, 0))
  {
    OwnBody("000000");
    OwnBody("000");
  }

  /** Bodies of length 0, 1, 2, 4 or 5 leave some pair reaching past the end: NaN. */
  lemma ShortBodyFails(hex: string)
    requires var n := |TrimHash(hex)|; n < 6 && n != 3
    ensures HexToRGB(hex) == None
  {
  }

  /** Formatting any 8-bit colour as six lowercase digits, with or without `#`, and parsing it
      back gives the colour. */
  lemma {:induction false} FormatThenParse(c: RGB)
    requires IsByteColor(c)
    ensures HexToRGB(FormatHex(c)) == Some(c)
    ensures HexToRGB(['#'] + FormatHex(c)) == Some(c)
  {
    var s := FormatHex(c);
    assert AllHexDigits(s);
    assert '#' !in s by {
      forall i | 0 <= i < 6 ensures s[i] != '#' { assert IsHexDigit(s[i]); }
    }
    assert NoWhitespace(s) by {
      forall i | 0 <= i < 6 ensures !IsJsWhitespace(s[i]) { assert IsHexDigit(s[i]); }
    }
    TrimNoWhitespace(s);
    assert (['#'] + s)[1..] == s;
    assert TrimHash(s) == s && TrimHash(['#'] + s) == s;
  }

  /** A string of hexadecimal digits is its own body. */
  lemma OwnBody(s: string)
    requires AllHexDigits(s)
    ensures TrimHash(s) == s
  {
  }

  /** The other direction: parsing a six-digit body and formatting the colour gives the body back,
      lowercased. So on six-digit bodies the parser identifies exactly the strings that agree up to
      the case of their letters. */
  lemma {:induction false} ParseThenFormat(s: string)
    requires |s| == 6 && AllHexDigits(s)
    ensures HexToRGB(s).Some? && FormatHex(HexToRGB(s).value) == Lower(s)
  {
    OwnBody(s);
    assert IsHexDigit(s[0]) && IsHexDigit(s[1]) && IsHexDigit(s[2]);
    assert IsHexDigit(s[3]) && IsHexDigit(s[4]) && IsHexDigit(s[5]);
    BodyPairs(s);
    FormatPairs(s);
  }

  lemma FormatPairs(s: string)
    requires |s| == 6 && IsHexDigit(s[0]) && IsHexDigit(s[1]) && IsHexDigit(s[2])
    requires IsHexDigit(s[3]) && IsHexDigit(s[4]) && IsHexDigit(s[5])
    ensures FormatHex(RGB(16 * HexDigitValue(s[0]) + HexDigitValue(s[1]),
                          16 * HexDigitValue(s[2]) + HexDigitValue(s[3]),
                          16 * HexDigitValue(s[4]) + HexDigitValue(s[5]))) == Lower(s)
  {
    HexCharOfValue(s[0]);
    HexCharOfValue(s[1]);
    HexCharOfValue(s[2]);
    HexCharOfValue(s[3]);
    HexCharOfValue(s[4]);
    HexCharOfValue(s[5]);
    FormatSix(HexDigitValue(s[0]), HexDigitValue(s[1]), HexDigitValue(s[2]),
              HexDigitValue(s[3]), HexDigitValue(s[4]), HexDigitValue(s[5]));
    LowerSix(s);
  }

  /** Formatting a colour given by its six hexadecimal digit values writes those digits. */
  lemma FormatSix(r1: nat, r0: nat, g1: nat, g0: nat, b1: nat, b0: nat)
    requires r1 < 16 && r0 < 16 && g1 < 16 && g0 < 16 && b1 < 16 && b0 < 16
    ensures FormatHex(RGB(16 * r1 + r0, 16 * g1 + g0, 16 * b1 + b0))
            == [HexChar(r1), HexChar(r0), HexChar(g1), HexChar(g0), HexChar(b1), HexChar(b0)]
  {
    assert (16 * r1 + r0) / 16 == r1 && (16 * r1 + r0) % 16 == r0;
    assert (16 * g1 + g0) / 16 == g1 && (16 * g1 + g0) % 16 == g0;
    assert (16 * b1 + b0) / 16 == b1 && (16 * b1 + b0) % 16 == b0;
  }

  lemma LowerSix(s: string)
    requires |s| == 6
    ensures Lower(s) == [LowerHex(s[0]), LowerHex(s[1]), LowerHex(s[2]), LowerHex(s[3]),
                         LowerHex(s[4]), LowerHex(s[5])]
  {
  }

  /** Letter case does not matter: lowering the hexadecimal letters of the input gives the same colour. */
  lemma CaseInsensitive(hex: string)
    ensures HexToRGB(Lower(hex)) == HexToRGB(hex)
  {
    TrimHashLower(hex);
    BodyLower(TrimHash(hex));
  }

  lemma TrimHashLower(hex: string)
    ensures TrimHash(Lower(hex)) == Lower(TrimHash(hex))
  {
    var lo := Lower(hex);
    assert '#' in lo <==> '#' in hex by {
      forall i | 0 <= i < |hex| ensures lo[i] == '#' <==> hex[i] == '#' { }
    }
    if '#' in hex {
      assert lo[1..] == Lower(hex[1..]);
      TrimLower(hex[1..]);
    } else {
      TrimLower(hex);
    }
  }

  lemma BodyLower(h: string)
    ensures BodyToRGB(Lower(h)) == BodyToRGB(h)
  {
    var hl := Lower(h);
    forall i | 0 <= i < |h| ensures IsHexDigit(hl[i]) == IsHexDigit(h[i])
      && IsJsWhitespace(hl[i]) == IsJsWhitespace(h[i])
      && (IsHexDigit(h[i]) ==> HexDigitValue(hl[i]) == HexDigitValue(h[i]))
    {
    }
    if |h| == 3 {
      assert DoubledDigit(hl[0]) == DoubledDigit(h[0]);
      assert DoubledDigit(hl[1]) == DoubledDigit(h[1]);
      assert DoubledDigit(hl[2]) == DoubledDigit(h[2]);
    } else {
      assert ParsePair(hl, 0) == ParsePair(h, 0);
      assert ParsePair(hl, 2) == ParsePair(h, 2);
      assert ParsePair(hl, 4) == ParsePair(h, 4);
    }
  }

  /** Trimming commutes with lowering the hexadecimal letters, which are never whitespace. */
  lemma {:induction false} TrimLower(s: string)
    ensures Trim(Lower(s)) == Lower(Trim(s))
  {
    TrimStartLower(s);
    TrimEndLower(TrimStart(s));
  }

  lemma {:induction false} TrimStartLower(s: string)
    ensures TrimStart(Lower(s)) == Lower(TrimStart(s))
  {
    if s != [] {
      assert Lower(s)[1..] == Lower(s[1..]);
      TrimStartLower(s[1..]);
    }
  }

  lemma {:induction false} TrimEndLower(s: string)
    ensures TrimEnd(Lower(s)) == Lower(TrimEnd(s))
  {
    if s != [] {
      assert Lower(s)[..|s| - 1] == Lower(s[..|s| - 1]);
      TrimEndLower(s[..|s| - 1]);
    }
  }
}
