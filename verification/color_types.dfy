/** Values shared by the colour parsers and the contrast engine. */
module ColorTypes {

  /** Stands for the JavaScript results that are not numbers (NaN, undefined, a thrown
      TypeError) that the parsers produce on malformed input. */
  datatype Option<+T> = None | Some(value: T)

  /** The `{r, g, b}` object every parser returns. Channels are unbounded naturals:
      only the hexadecimal parser guarantees that they are 8-bit. */
  datatype RGB = RGB(r: nat, g: nat, b: nat)

  /** Every channel is an 8-bit value. */
  predicate IsByteColor(c: RGB) {
    c.r <= 255 && c.g <= 255 && c.b <= 255
  }

  /** ASCII decimal digit, the class `\d` of a JavaScript regular expression without the u flag. */
  predicate IsDigit(c: char) {
    '0' <= c <= '9'
  }

  function DigitValue(c: char): (v: nat)
    requires IsDigit(c)
    ensures v < 10
  {
    (c - '0') as nat
  }
}
