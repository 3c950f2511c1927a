/**
 * The direction phraser `format_direction`: a verb phrase chosen from the
 * change, the trend, the drama threshold and the sign, then inflected for
 * feminine agreement.
 *
 * A phrase is a sequence of words. The three verb stems carry their gender;
 * the `str.replace` chain of `format_direction` changes exactly those stems, and in every
 * phrase they occur only as whole words, so the replacement is a word-by-word
 * map here.
 */
module Direction {
  import opened Wrappers
  import opened Numerals
  import opened Quotes

  datatype Gender = Masculine | Feminine

  /** The three inflected verbs: rises, falls, continues. */
  datatype Verb = Rises | Falls | Continues

  datatype Word =
    | Stem(verb: Verb, gender: Gender)
    | ToRise | ToFall     // the infinitives after "continues"
    | InManner | Dramatic // "in a dramatic manner"
    | Not | Available     // "not available"

  function WordText(w: Word): string {
    match w
    case Stem(Rises, Masculine) => "עוֹלֶה"
    case Stem(Rises, Feminine) => "עוֹלָה"
    case Stem(Falls, Masculine) => "יוֹרֵד"
    case Stem(Falls, Feminine) => "יוֹרֶדֶת"
    case Stem(Continues, Masculine) => "מַמְשִׁיךְ"
    case Stem(Continues, Feminine) => "מַמְשִׁיכָה"
    case ToRise => "לַעֲלוֹת"
    case ToFall => "לְרֶדֶת"
    case InManner => "בְּצוּרָה"
    case Dramatic => "דְרָמָטִית"
    case Not => "לא"
    case Available => "זמין"
  }

  datatype Movement = Up | Down

  /** The base phrase `format_direction` picks before inflecting it. */
  datatype Phrase = NotAvailable | Continuing(m: Movement) | Sharply(m: Movement) | Plainly(m: Movement)

  /** The choice: no change is "not available"; a trend wins; otherwise the
      size of the change against the threshold (inclusive) and its sign,
      where a change of zero, or NaN, reads as falling. */
  function ChoosePhrase(pct: Option<Change>, trend: Option<Trend>, threshold: real): (p: Phrase)
    ensures p.NotAvailable? <==> pct.None?
    ensures p.Continuing? <==> pct.Some? && trend.Some?
    ensures p.Sharply? <==> pct.Some? && trend.None? && Reaches(pct.value, threshold)
    ensures p.Plainly? <==> pct.Some? && trend.None? && !Reaches(pct.value, threshold)
    ensures p.Continuing? ==> (p.m == Up <==> trend.value == KeepsRising)
    ensures p.Sharply? || p.Plainly? ==> (p.m == Up <==> IsPositive(pct.value))
  {
    match pct
    case None => NotAvailable
    case Some(c) =>
      if trend.Some? then
        Continuing(if trend.value == KeepsRising then Up else Down)
      else if Reaches(c, threshold) then
        Sharply(if IsPositive(c) then Up else Down)
      else
        Plainly(if IsPositive(c) then Up else Down)
  }

  function MovementVerb(m: Movement): Verb {
    if m == Up then Rises else Falls
  }

  /** The masculine text of each base phrase. */
  function PhraseWords(p: Phrase): seq<Word> {
    match p
    case NotAvailable => [Not, Available]
    case Continuing(m) => [Stem(Continues, Masculine), if m == Up then ToRise else ToFall]
    case Sharply(m) => [Stem(MovementVerb(m), Masculine), InManner, Dramatic]
    case Plainly(m) => [Stem(MovementVerb(m), Masculine)]
  }

  function FeminineWord(w: Word): Word {
    if w.Stem? then Stem(w.verb, Feminine) else w
  }

  /** The `replace` chain applied when `is_female` holds: every stem becomes
      feminine and every other word stays as it is. */
  function Inflect(ws: seq<Word>, isFemale: bool): (r: seq<Word>)
    ensures |r| == |ws|
    ensures !isFemale ==> r == ws
    ensures forall i :: 0 <= i < |ws| && !ws[i].Stem? ==> r[i] == ws[i]
    ensures isFemale ==> forall i :: 0 <= i < |ws| && ws[i].Stem? ==> r[i] == Stem(ws[i].verb, Feminine)
  {
    if isFemale then seq(|ws|, i requires 0 <= i < |ws| => FeminineWord(ws[i])) else ws
  }

  /** `format_direction(pct, trend, threshold, is_female)`. */
  function FormatDirection(pct: Option<Change>, trend: Option<Trend>, threshold: real, isFemale: bool): (r: seq<Word>)
    ensures pct.None? ==> r == [Not, Available]
    ensures pct.Some? ==>
              |r| == (if trend.Some? then 2 else if Reaches(pct.value, threshold) then 3 else 1)
    ensures pct.Some? ==> r[0].Stem? && r[0].gender == (if isFemale then Feminine else Masculine)
    ensures pct.Some? ==> (r[0].verb == Continues <==> trend.Some?)
    ensures pct.Some? && trend.None? ==> (r[0].verb == Rises <==> IsPositive(pct.value))
    ensures pct.Some? && trend.Some? ==> r[1] == (if trend.value == KeepsRising then ToRise else ToFall)
    ensures pct.Some? && trend.None? && Reaches(pct.value, threshold) ==> r[1..] == [InManner, Dramatic]
  {
    var p := ChoosePhrase(pct, trend, threshold);
    if p.NotAvailable? then PhraseWords(p) else Inflect(PhraseWords(p), isFemale)
  }

  /** Inflection never produces a masculine stem, and inflecting twice is
      inflecting once. */
  lemma {:induction false} InflectFeminine(ws: seq<Word>)
    ensures forall i :: 0 <= i < |ws| && Inflect(ws, true)[i].Stem? ==> Inflect(ws, true)[i].gender == Feminine
    ensures Inflect(Inflect(ws, true), true) == Inflect(ws, true)
  {
    var once := Inflect(ws, true);
    var twice := Inflect(once, true);
    assert forall i :: 0 <= i < |ws| ==> twice[i] == once[i];
  }

  /** A change of -2 with no trend and threshold 1.5 is "falls
      dramatically", in both genders; a change of 0 reads as falling. An
      infinite rise is dramatic, and NaN reads as a plain fall. */
  lemma FallingSharplyExample()
    ensures FormatDirection(Some(Finite(-2.0)), None, 1.5, false) == [Stem(Falls, Masculine), InManner, Dramatic]
    ensures FormatDirection(Some(Finite(-2.0)), None, 1.5, true) == [Stem(Falls, Feminine), InManner, Dramatic]
    ensures FormatDirection(Some(Finite(0.0)), None, 1.5, false) == [Stem(Falls, Masculine)]
    ensures FormatDirection(Some(Infinity(true)), None, 5.0, true) == [Stem(Rises, Feminine), InManner, Dramatic]
    ensures FormatDirection(Some(NaN), None, 1.5, false) == [Stem(Falls, Masculine)]
  {
  }
}
