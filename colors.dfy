/** Colours of the quiz: an RGB triple drawn from `Math.random`, and the
    `rgb(r, g, b)` string the component stores and compares. */
module Colors {

  /** One colour channel: an integer in 0..255. */
  type Channel = x: int | 0 <= x <= 255

  datatype Color = Color(r: Channel, g: Channel, b: Channel)

  /** Three results of `Math.random`, one per channel. */
  datatype Sample = Sample(r: real, g: real, b: real)

  /** `Math.random` returns a value in [0, 1). */
  predicate IsUnit(u: real) {
    0.0 <= u < 1.0
  }

  predicate UnitSample(s: Sample) {
    IsUnit(s.r) && IsUnit(s.g) && IsUnit(s.b)
  }

  /** `Math.floor(Math.random() * 256)`: the largest integer not above u * 256,
      which lies in 0..255 for every u in [0, 1). */
  function RandomChannel(u: real): (c: int)
    requires IsUnit(u)
    ensures 0 <= c <= 255
    ensures c as real <= u * 256.0 < c as real + 1.0
  {
    (u * 256.0).Floor
  }

  /** `generateRandomColor`: one channel per sample. */
  function RandomColor(s: Sample): (c: Color)
    requires UnitSample(s)
    ensures c.r as real <= s.r * 256.0 < c.r as real + 1.0
    ensures c.g as real <= s.g * 256.0 < c.g as real + 1.0
    ensures c.b as real <= s.b * 256.0 < c.b as real + 1.0
  {
    Color(RandomChannel(s.r), RandomChannel(s.g), RandomChannel(s.b))
  }

  // ---------------------------------------------------------------------
  // Decimal text of a channel, as a template literal prints an integer
  // ---------------------------------------------------------------------

  predicate IsDigit(ch: char) {
    '0' <= ch <= '9'
  }

  predicate AllDigits(s: string) {
    forall k :: 0 <= k < |s| ==> IsDigit(s[k])
  }

  function DigitChar(d: int): (ch: char)
    requires 0 <= d < 10
    ensures IsDigit(ch) && ch as int - '0' as int == d
  {
    ('0' as int + d) as char
  }

  /** Decimal digits of n, most significant first, without leading zeros. */
  function Digits(n: nat): string
  {
    if n < 10 then [DigitChar(n)] else Digits(n / 10) + [DigitChar(n % 10)]
  }

  /** Value of a string of decimal digits (the reading direction of Digits). */
  function ParseDigits(s: string): int
  {
    if s == [] then 0
    else 10 * ParseDigits(s[..|s| - 1]) + (s[|s| - 1] as int - '0' as int)
  }

  lemma {:induction false} DigitsRoundTrip(n: nat)
    ensures |Digits(n)| > 0 && AllDigits(Digits(n))
    ensures ParseDigits(Digits(n)) == n
  {
    if n >= 10 {
      DigitsRoundTrip(n / 10);
      var s := Digits(n);
      assert s[..|s| - 1] == Digits(n / 10);
    }
  }

  /** A run of digits followed by a non-digit splits in exactly one way. */
  lemma SplitAfterDigits(x: string, s: string, y: string, t: string)
    requires AllDigits(x) && AllDigits(y)
    requires |s| > 0 && !IsDigit(s[0]) && |t| > 0 && !IsDigit(t[0])
    requires x + s == y + t
    ensures x == y && s == t
  {
    assert x == (x + s)[..|x|] && y == (y + t)[..|y|];
    assert s == (x + s)[|x|..] && t == (y + t)[|y|..];
  }

  // ---------------------------------------------------------------------
  // The `rgb(r, g, b)` string held in the component's state
  // ---------------------------------------------------------------------

  function Encode(c: Color): string
  {
    "rgb(" + (Digits(c.r) + (", " + (Digits(c.g) + (", " + (Digits(c.b) + ")")))))
  }

  /** The string is a canonical encoding: two colours have the same string
      exactly when their channels agree. */
  lemma EncodeInjective(c1: Color, c2: Color)
    ensures Encode(c1) == Encode(c2) <==> c1 == c2
  {
    if Encode(c1) == Encode(c2) {
      DigitsRoundTrip(c1.r); DigitsRoundTrip(c1.g); DigitsRoundTrip(c1.b);
      DigitsRoundTrip(c2.r); DigitsRoundTrip(c2.g); DigitsRoundTrip(c2.b);
      var b1, b2 := Digits(c1.b) + ")", Digits(c2.b) + ")";
      var g1, g2 := Digits(c1.g) + (", " + b1), Digits(c2.g) + (", " + b2);
      var r1, r2 := Digits(c1.r) + (", " + g1), Digits(c2.r) + (", " + g2);
      assert r1 == Encode(c1)[4..] && r2 == Encode(c2)[4..];
      SplitAfterDigits(Digits(c1.r), ", " + g1, Digits(c2.r), ", " + g2);
      assert g1 == (", " + g1)[2..] && g2 == (", " + g2)[2..];
      SplitAfterDigits(Digits(c1.g), ", " + b1, Digits(c2.g), ", " + b2);
      assert b1 == (", " + b1)[2..] && b2 == (", " + b2)[2..];
      SplitAfterDigits(Digits(c1.b), ")", Digits(c2.b), ")");
    }
  }

  /** The guess test `guess === rgbColor`: string equality on the encodings,
      which holds exactly when the colours are equal. */
  function IsMatch(guess: Color, target: Color): (m: bool)
    ensures m <==> guess == target
  {
    EncodeInjective(guess, target);
    Encode(guess) == Encode(target)
  }
}
