/**
 * The number verbaliser `number_to_hebrew_words`: round to two decimals,
 * print the number as Python's `str` does, split the text at the point and
 * speak the integer part followed by every fractional digit as its own word.
 *
 * `num2words(n, lang='he')` is not modelled: it is the parameter `words`.
 */
module Numerals {

  /** A Python number as the verbaliser receives it: an `int`, or a `float`
      taken at its exact value. */
  datatype Number = Int(n: int) | Float(x: real)

  type Digit = d: int | 0 <= d < 10

  /** The words between the integer part and the fractional digits. */
  const POINT: string := " נקודה "

  function Abs(h: int): nat {
    if h < 0 then -h else h
  }

  function AbsReal(x: real): real {
    if x < 0.0 then -x else x
  }

  /** Python's `round(x, 2)` on a float, as a count of hundredths: the
      nearest hundredth, and on a tie the even one. */
  function Round2(x: real): (h: int)
    ensures h as real - 0.5 <= 100.0 * x <= h as real + 0.5
    ensures (100.0 * x == h as real - 0.5 || 100.0 * x == h as real + 0.5) ==> h % 2 == 0
  {
    var y := 100.0 * x;
    var f := y.Floor;
    var frac := y - f as real;
    if frac < 0.5 then f
    else if frac > 0.5 then f + 1
    else if f % 2 == 0 then f
    else f + 1
  }

  /** `round(x, 2)` as a value. */
  function RoundTo2(x: real): real {
    Round2(x) as real / 100.0
  }

  /** A value that already has at most two decimals is its own rounding. */
  lemma RoundHundredths(h: int)
    ensures Round2(h as real / 100.0) == h
  {
    var y := 100.0 * (h as real / 100.0);
    assert y == h as real;
    assert y.Floor == h;
  }

  /** Rounding twice is rounding once: the verbaliser's own `round` does not
      change a value that `get_ticker_data` already rounded. */
  lemma RoundTwice(x: real)
    ensures Round2(RoundTo2(x)) == Round2(x)
    ensures Round2(AbsReal(RoundTo2(x))) == Abs(Round2(x))
  {
    var h := Round2(x);
    RoundHundredths(h);
    RoundHundredths(-h);
    assert AbsReal(RoundTo2(x)) == Abs(h) as real / 100.0;
  }

  /** The text `str(float)` prints for a value with at most two decimals,
      split at the point: the integer part as `int(parts[0])` reads it, and
      the fractional digits. */
  datatype DecimalText = DecimalText(whole: int, fraction: seq<Digit>)

  /** Python prints the shortest form: one or two fractional digits, never a
      trailing zero after the first digit ("12.0", "12.3", "12.34"). */
  predicate Canonical(t: DecimalText) {
    1 <= |t.fraction| <= 2 && (|t.fraction| == 2 ==> t.fraction[1] != 0)
  }

  /** The fractional digits read back as hundredths. */
  function Hundredths(fraction: seq<Digit>): nat
    requires 1 <= |fraction| <= 2
  {
    var d0: int := fraction[0];
    if |fraction| == 1 then 10 * d0 else 10 * d0 + fraction[1]
  }

  /** `str(h / 100)` split on ".", for a value of h hundredths. */
  function FloatText(h: int): (t: DecimalText)
    ensures Canonical(t)
    ensures Abs(h) == Abs(t.whole) * 100 + Hundredths(t.fraction)
    ensures h >= 0 ==> t.whole >= 0
    ensures h < 0 ==> t.whole <= 0
  {
    var m := Abs(h);
    var f := m % 100;
    DecimalText(if h < 0 then -(m / 100) else m / 100,
                if f % 10 == 0 then [f / 10] else [f / 10, f % 10])
  }

  /** The printed form is the only canonical text of its value: reading it
      back gives the number, and no other text reads back to it. */
  lemma {:induction false} FloatTextUnique(h: int, t: DecimalText)
    requires Canonical(t)
    requires Abs(h) == Abs(t.whole) * 100 + Hundredths(t.fraction)
    requires h >= 0 ==> t.whole >= 0
    requires h < 0 ==> t.whole <= 0
    ensures t == FloatText(h)
  {
    var m := Abs(h);
    var u := FloatText(h);
    var k := Hundredths(t.fraction);
    assert k < 100;
    assert Abs(t.whole) == m / 100 && k == m % 100 by {
      DivModUnique(m, Abs(t.whole), k);
    }
    assert t.whole == u.whole;
    if |t.fraction| == 1 {
      assert k % 10 == 0;
      assert t.fraction == [k / 10];
    } else {
      assert k % 10 == t.fraction[1] != 0;
      assert t.fraction == [k / 10, k % 10];
    }
  }

  lemma DivModUnique(m: nat, q: nat, r: nat)
    requires r < 100 && m == q * 100 + r
    ensures q == m / 100 && r == m % 100
  {
  }

  /** `" ".join(ws)`. */
  function JoinWords(ws: seq<string>): string {
    if ws == [] then ""
    else if |ws| == 1 then ws[0]
    else ws[0] + " " + JoinWords(ws[1..])
  }

  /** One word per fractional digit, as the loop over `decimal_part_str` builds them. */
  function DigitWords(fraction: seq<Digit>, words: int -> string): (ws: seq<string>)
    ensures |ws| == |fraction|
  {
    seq(|fraction|, k requires 0 <= k < |fraction| => words(fraction[k]))
  }

  /** What `number_to_hebrew_words` returns. */
  function Spoken(number: Number, words: int -> string): string {
    match number
    case Int(n) => words(n)
    case Float(x) =>
      var t := FloatText(Round2(x));
      words(t.whole) + POINT + JoinWords(DigitWords(t.fraction, words))
  }

  /** A float is always spoken with a fractional clause of one or two digit
      words, and those digits with the integer part give back the rounded
      value; in particular a whole float ends in "point zero". */
  lemma SpokenFloat(x: real, words: int -> string)
    ensures var h := Round2(x);
            exists whole: int, ds: seq<Digit> ::
              Canonical(DecimalText(whole, ds)) &&
              (h >= 0 ==> whole >= 0) && (h < 0 ==> whole <= 0) &&
              Abs(h) == Abs(whole) * 100 + Hundredths(ds) &&
              Spoken(Float(x), words) == words(whole) + POINT + JoinWords(DigitWords(ds, words))
    ensures Round2(x) % 100 == 0 ==>
              Spoken(Float(x), words) == words(Round2(x) / 100) + POINT + words(0)
  {
    var h := Round2(x);
    var t := FloatText(h);
    assert Canonical(DecimalText(t.whole, t.fraction));
    if h % 100 == 0 {
      var q := h / 100;
      assert h == q * 100;
      assert Abs(h) == Abs(q) * 100;
      DivModUnique(Abs(h), Abs(q), 0);
      assert t.fraction == [0] && t.whole == q;
      assert DigitWords(t.fraction, words) == [words(0)];
    }
  }

  /** The example in the docstring of `number_to_hebrew_words`: 12.34 is spoken as
      "twelve point three four". */
  lemma SpokenExample(words: int -> string)
    ensures Spoken(Float(12.34), words) == words(12) + POINT + words(3) + " " + words(4)
    ensures Spoken(Float(12.0), words) == words(12) + POINT + words(0)
    ensures Spoken(Int(12), words) == words(12)
  {
    assert Round2(12.34) == 1234;
    assert Round2(12.0) == 1200;
    assert FloatText(1234).fraction == [3, 4];
    assert DigitWords([3, 4], words) == [words(3), words(4)];
    assert JoinWords([words(3), words(4)]) == words(3) + " " + words(4) by {
      assert [words(3), words(4)][1..] == [words(4)];
    }
  }

  /** `number_to_hebrew_words`: the fractional words are collected one digit
      at a time and joined with spaces. */
  method NumberToHebrewWords(number: Number, words: int -> string) returns (s: string)
    ensures s == Spoken(number, words)
  {
    match number
    case Int(n) =>
      s := words(n);
    case Float(x) =>
      var parts := FloatText(Round2(x));
      var integerPart := words(parts.whole);
      var digitWords: seq<string> := [];
      for i := 0 to |parts.fraction|
        invariant digitWords == DigitWords(parts.fraction[..i], words)
      {
        assert parts.fraction[..i + 1] == parts.fraction[..i] + [parts.fraction[i]];
        digitWords := digitWords + [words(parts.fraction[i])];
      }
      assert parts.fraction[..|parts.fraction|] == parts.fraction;
      s := integerPart + POINT + JoinWords(digitWords);
  }
}
