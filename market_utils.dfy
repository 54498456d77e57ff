/**
 * Reading a sold price out of a comparable sale's price text
 * ("$1,500,000", "$2.1M").
 */
module MarketUtils {
  import opened Wrappers
  import opened Text
  import opened PriceScan


  /** The message of the ValueError `float` raises on a malformed number. */
  const FloatError := "could not convert string to float"

  /** The price for the first number of `t` matched by `pat`, in millions when `millions`. */
  function Price(t: string, pat: Pattern, millions: bool): (r: Option<Result<Option<real>>>)
    ensures r.Some? <==> Search(pat, t, 0).Some?
    ensures r.Some? && r.value.Ok? ==> r.value.value.Some? && r.value.value.value >= 0.0
  {
    var found := Search(pat, t, 0);
    if found.None? then None
    else
      var g := found.value;
      assert g[0] in g;
      var v := ParseDecimal(g[0]);
      if v.None? then Some(Err(FloatError))
      else if millions then Some(Ok(Some(v.value * 1000000.0)))
      else Some(Ok(Some(v.value)))
  }

  /**
   * parse_sold_price as written: when the cleaned text has an "m"
   * anywhere, its first number is read as millions; otherwise (or with no
   * number at all) a run of five or more digits is the price.
   */
  function ParseSoldPriceAsWritten(priceText: string): Result<Option<real>>
  {
    if priceText == [] then Ok(None)
    else
      var t := Strip(Clean(priceText));
      var millions := if Contains(t, "m") then Price(t, Number, true) else None;
      if millions.Some? then millions.value
      else
        match Price(t, DigitRun(5), false)
        case Some(r) => r
        case None => Ok(None)
  }

  /**
   * parse_sold_price as evidently intended: only a number followed by
   * "m" (spaces allowed between) is in millions, as parse_price reads a
   * single price; otherwise a run of five or more digits is the price.
   */
  function ParseSoldPrice(priceText: string): Result<Option<real>>
  {
    if priceText == [] then Ok(None)
    else
      var t := Strip(Clean(priceText));
      match Price(t, NumberThenM, true)
      case Some(r) => r
      case None =>
        match Price(t, DigitRun(5), false)
        case Some(r) => r
        case None => Ok(None)
  }

  /**
   * Empty text has no price, a price found is never negative, and text
   * with no digit and no dot has none; with no "m" in the cleaned text the
   * corrected reading is the one written.
   */
  lemma ParseSoldPriceFacts(priceText: string)
    ensures priceText == [] ==> ParseSoldPrice(priceText) == Ok(None)
    ensures ParseSoldPrice(priceText).Ok? && ParseSoldPrice(priceText).value.Some? ==>
      ParseSoldPrice(priceText).value.value >= 0.0
    ensures (forall c | c in priceText :: !InClass(NumChars, c)) ==> ParseSoldPrice(priceText) == Ok(None)
    ensures !Contains(Strip(Clean(priceText)), "m") ==>
      ParseSoldPrice(priceText) == ParseSoldPriceAsWritten(priceText)
  {
    var t := Strip(Clean(priceText));
    if forall c | c in priceText :: !InClass(NumChars, c) {
      CleanKeepsNumbers(priceText);
      StripKeeps(Clean(priceText));
      NoNumberNoMatch(NumberThenM, t, 0);
      NoNumberNoMatch(DigitRun(5), t, 0);
    }
    if !Contains(t, "m") && priceText != [] {
      NoMNoMillions(t);
    }
  }

  /** Stripping keeps only characters of the text. */
  lemma StripKeeps(s: string)
    ensures forall c | c in Strip(s) :: c in s
  {
    StripLeftKeeps(s);
    StripRightKeeps(StripLeft(s));
  }

  lemma {:induction false} StripLeftKeeps(s: string)
    ensures forall c | c in StripLeft(s) :: c in s
  {
    if |s| > 0 && IsSpace(s[0]) {
      StripLeftKeeps(s[1..]);
    }
  }

  lemma {:induction false} StripRightKeeps(s: string)
    ensures forall c | c in StripRight(s) :: c in s
  {
    if |s| > 0 && IsSpace(s[|s| - 1]) {
      StripRightKeeps(s[..|s| - 1]);
    }
  }

  /** A number followed by "m" needs an "m" in the text. */
  lemma NoMNoMillions(t: string)
    requires !Contains(t, "m")
    ensures Search(NumberThenM, t, 0).None?
  {
    SearchIsFirstMatch(NumberThenM, t, 0);
    if Search(NumberThenM, t, 0).Some? {
      var q := FirstHit(MatchPositions(NumberThenM, t), 0, |t|).value;
      MatchNeedsM(t, q);
    }
  }

  lemma MatchNeedsM(t: string, q: nat)
    requires q <= |t| && MatchAt(NumberThenM, t, q).Some?
    ensures Contains(t, "m")
  {
    var e := RunEnd(t, q, NumChars);
    var k := RunEnd(t, e, Spaces);
    assert t[k..k + 1] == "m";
    ContainsAt(t, "m", k);
  }

  /** A keyword found at position `k` is contained in the text. */
  lemma {:induction false} ContainsAt(text: string, kw: string, k: nat)
    requires k + |kw| <= |text| && text[k..k + |kw|] == kw
    ensures Contains(text, kw)
    decreases k
  {
    if k > 0 {
      assert text[1..][k - 1..k - 1 + |kw|] == text[k..k + |kw|];
      ContainsAt(text[1..], kw, k - 1);
    }
  }

  /**
   * Digits followed by text with no digit or dot: the first number, and
   * the first run of five or more digits, is the digits.
   */
  lemma DigitsThenWords(d: string, rest: string)
    requires d != [] && forall c | c in d :: IsDigit(c)
    requires rest != [] && forall c | c in rest :: !InClass(NumChars, c)
    ensures Search(Number, d + rest, 0) == Some([d])
    ensures |d| >= 5 ==> Search(DigitRun(5), d + rest, 0) == Some([d])
  {
    var s := d + rest;
    assert rest[0] in rest;
    RunEndShift(d, rest, 0, NumChars);
    RunEndTo(s, 0, |d|, NumChars);
    RunEndShift(d, rest, 0, Digits);
    RunEndTo(s, 0, |d|, Digits);
    assert s[0..|d|] == d;
  }

  /**
   * Digits followed by text with no digit or dot, whose first non-space
   * character is not "m": no number is followed by "m".
   */
  lemma DigitsThenNoM(d: string, rest: string)
    requires d != [] && forall c | c in d :: IsDigit(c)
    requires forall c | c in rest :: !InClass(NumChars, c)
    requires RunEnd(rest, 0, Spaces) < |rest| && rest[RunEnd(rest, 0, Spaces)] != 'm'
    ensures Search(NumberThenM, d + rest, 0).None?
  {
    var s := d + rest;
    forall p | 0 <= p <= |s| ensures MatchAt(NumberThenM, s, p).None? {
      if p < |d| {
        NoMInDigits(d, rest, p);
      } else {
        NoMInRest(d, rest, p);
      }
    }
    SearchFindsMatch(NumberThenM, s, 0);
  }

  /** A number starting inside the digits runs to their end and is not followed by "m". */
  lemma NoMInDigits(d: string, rest: string, p: nat)
    requires d != [] && forall c | c in d :: IsDigit(c)
    requires forall c | c in rest :: !InClass(NumChars, c)
    requires RunEnd(rest, 0, Spaces) < |rest| && rest[RunEnd(rest, 0, Spaces)] != 'm'
    requires p < |d|
    ensures MatchAt(NumberThenM, d + rest, p).None?
  {
    var s := d + rest;
    DigitsRunEnds(d, rest, p);
    var q := |d| + RunEnd(rest, 0, Spaces);
    assert s[q] == rest[q - |d|] != 'm';
    NumberThenMAt(s, p);
  }

  /** A number starting inside the digits ends with them, and the spaces after it are those of the words. */
  lemma DigitsRunEnds(d: string, rest: string, p: nat)
    requires d != [] && forall c | c in d :: IsDigit(c)
    requires rest != [] && forall c | c in rest :: !InClass(NumChars, c)
    requires p < |d|
    ensures RunEnd(d + rest, p, NumChars) == |d|
    ensures RunEnd(d + rest, |d|, Spaces) == |d| + RunEnd(rest, 0, Spaces)
  {
    assert rest[0] in rest;
    RunEndShift(d, rest, 0, NumChars);
    RunEndShift(d, rest, 0, Spaces);
    RunEndTo(d + rest, p, |d|, NumChars);
    assert RunEnd(rest, 0, NumChars) == 0;
  }

  /** No number starts in the words after the digits. */
  lemma NoMInRest(d: string, rest: string, p: nat)
    requires forall c | c in rest :: !InClass(NumChars, c)
    requires |d| <= p <= |d + rest|
    ensures MatchAt(NumberThenM, d + rest, p).None?
  {
    var s := d + rest;
    if p < |s| {
      assert s[p] == rest[p - |d|] && rest[p - |d|] in rest;
    }
  }

  /**
   * Digits followed by words that mention an "m" but do not start with
   * one (a month after the price, say): as written the price comes out a
   * million times too large, while the corrected reading gives the
   * digits' value.
   */
  lemma MonthInflatesPrice(d: string, words: string, v: real)
    requires |d| >= 5 && forall c | c in d :: IsDigit(c)
    requires forall c | c in words :: !InClass(NumChars, c) && LowerChar(c) == c && c != ',' && c != '$'
    requires RunEnd(words, 0, Spaces) < |words| && words[RunEnd(words, 0, Spaces)] != 'm'
    requires !IsSpace(words[|words| - 1])
    requires Contains(words, "m")
    requires v == DigitsValue(d) as real
    ensures ParseSoldPriceAsWritten(d + words) == Ok(Some(v * 1000000.0))
    ensures ParseSoldPrice(d + words) == Ok(Some(v))
  {
    MonthAsWritten(d, words, v);
    MonthCorrected(d, words);
  }

  /** As written, the digits before the month are read as millions. */
  lemma MonthAsWritten(d: string, words: string, v: real)
    requires |d| >= 5 && forall c | c in d :: IsDigit(c)
    requires forall c | c in words :: !InClass(NumChars, c) && LowerChar(c) == c && c != ',' && c != '$'
    requires words != [] && !IsSpace(words[|words| - 1])
    requires Contains(words, "m")
    requires v == DigitsValue(d) as real
    ensures ParseSoldPriceAsWritten(d + words) == Ok(Some(v * 1000000.0))
  {
    MonthTextFacts(d, words, v);
    AsWrittenWithM(d + words);
  }

  /** Digits then words with an "m" are cleaned text with an "m", led by the digits in millions. */
  lemma MonthTextFacts(d: string, words: string, v: real)
    requires |d| >= 5 && forall c | c in d :: IsDigit(c)
    requires forall c | c in words :: !InClass(NumChars, c) && LowerChar(c) == c && c != ',' && c != '$'
    requires words != [] && !IsSpace(words[|words| - 1])
    requires Contains(words, "m")
    requires v == DigitsValue(d) as real
    ensures Strip(Clean(d + words)) == d + words && Contains(d + words, "m")
    ensures Price(d + words, Number, true) == Some(Ok(Some(v * 1000000.0)))
  {
    CleanStripIdentity(d, words);
    DigitsMillions(d, words, v);
    ContainsSuffix(d, words, "m");
  }

  /** Corrected, the digits before the month are the price. */
  lemma MonthCorrected(d: string, words: string)
    requires |d| >= 5 && forall c | c in d :: IsDigit(c)
    requires forall c | c in words :: !InClass(NumChars, c) && LowerChar(c) == c && c != ',' && c != '$'
    requires RunEnd(words, 0, Spaces) < |words| && words[RunEnd(words, 0, Spaces)] != 'm'
    requires !IsSpace(words[|words| - 1])
    ensures ParseSoldPrice(d + words) == Ok(Some(DigitsValue(d) as real))
  {
    CleanStripIdentity(d, words);
    DigitsRunPrice(d, words);
    DigitsThenNoM(d, words);
    CorrectedWithoutM(d + words);
  }

  /** The digits' value, in millions, is the price of the first number. */
  lemma DigitsMillions(d: string, words: string, v: real)
    requires |d| >= 5 && forall c | c in d :: IsDigit(c)
    requires words != [] && forall c | c in words :: !InClass(NumChars, c)
    requires v == DigitsValue(d) as real
    ensures Price(d + words, Number, true) == Some(Ok(Some(v * 1000000.0)))
  {
    DigitsThenWords(d, words);
    WholeNumber(d);
    PriceOfNumber(d + words, Number, true, d, v);
  }

  /** The digits' value is the price of the first run of five or more digits. */
  lemma DigitsRunPrice(d: string, words: string)
    requires |d| >= 5 && forall c | c in d :: IsDigit(c)
    requires words != [] && forall c | c in words :: !InClass(NumChars, c)
    ensures Price(d + words, DigitRun(5), false) == Some(Ok(Some(DigitsValue(d) as real)))
  {
    DigitsThenWords(d, words);
    WholeNumber(d);
    PriceOfNumber(d + words, DigitRun(5), false, d, DigitsValue(d) as real);
  }

  /** Corrected, text with no number followed by "m" is read by its first long digit run. */
  lemma CorrectedWithoutM(text: string)
    requires text != [] && Strip(Clean(text)) == text
    requires Search(NumberThenM, text, 0).None?
    ensures ParseSoldPrice(text) == (match Price(text, DigitRun(5), false) case Some(r) => r case None => Ok(None))
  {
  }

  /** As written, cleaned text with an "m" is read by its first number, in millions. */
  lemma AsWrittenWithM(text: string)
    requires text != [] && Strip(Clean(text)) == text && Contains(text, "m")
    requires Price(text, Number, true).Some?
    ensures ParseSoldPriceAsWritten(text) == Price(text, Number, true).value
  {
  }

  lemma PriceOfNumber(t: string, pat: Pattern, millions: bool, g: string, v: real)
    requires Search(pat, t, 0) == Some([g])
    requires forall c | c in g :: InClass(NumChars, c)
    requires ParseDecimal(g) == Some(v)
    ensures Price(t, pat, millions) == Some(Ok(Some(if millions then v * 1000000.0 else v)))
  {
    assert Search(pat, t, 0).value[0] == g;
  }

  /** Digits then such words are their own cleaned, stripped text. */
  lemma CleanStripIdentity(d: string, words: string)
    requires d != [] && forall c | c in d :: IsDigit(c)
    requires words != [] && forall c | c in words :: LowerChar(c) == c && c != ',' && c != '$'
    requires !IsSpace(words[|words| - 1])
    ensures Strip(Clean(d + words)) == d + words
  {
    var t := d + words;
    assert d[0] in d;
    assert t[0] == d[0] && t[|t| - 1] == words[|words| - 1];
    CleanIdentity(t);
    assert StripLeft(t) == t;
  }

  /** A keyword in the tail of a text is in the text. */
  lemma {:induction false} ContainsSuffix(d: string, words: string, kw: string)
    requires Contains(words, kw)
    ensures Contains(d + words, kw)
    decreases |d|
  {
    if d != [] {
      assert (d + words)[1..] == d[1..] + words;
      ContainsSuffix(d[1..], words, kw);
    } else {
      assert d + words == words;
    }
  }
}
