/**
 * Reading the browser agent's reply: the JSON array of listings it
 * returns, normalised into listing records, and the price text of a
 * listing parsed into a low, high and guide price.
 *
 * JSON decoding is a parameter (`decode`, None where the decoder raises);
 * the scrape time is a parameter too.
 */
module BrowserAgent {
  import opened Wrappers
  import opened Text
  import opened Numeric
  import opened PriceScan

  // ---------------------------------------------------------------------
  // Price text.
  // ---------------------------------------------------------------------

  datatype PriceGuide = PriceGuide(low: Option<real>, high: Option<real>, guide: Option<real>)

  const NoPrice := PriceGuide(None, None, None)


  /** The message of the ValueError `float` raises on a malformed number. */
  const FloatError := "could not convert string to float"

  /** A range bound under 100 is read as millions. */
  function ScaleMillions(v: real): (r: real)
    ensures v >= 0.0 ==> r >= v
    ensures v >= 0.0 ==> (r >= 100.0 <==> v >= 0.0001)
  {
    if v < 100.0 then v * 1000000.0 else v
  }

  function SinglePrice(v: real): PriceGuide
  {
    PriceGuide(Some(v), Some(v), Some(v))
  }

  /**
   * parse_price: a range "a - b" (either bound in millions when under
   * 100), else one number followed by "m" in millions, else a run of six
   * or more digits, else no price.  A captured number `float` cannot read
   * makes it raise.
   */
  function ParsePrice(priceText: string): Result<PriceGuide>
  {
    if priceText == [] then Ok(NoPrice) else PriceOf(Clean(priceText))
  }

  /** The price of cleaned text: the first pattern that matches decides. */
  function PriceOf(t: string): Result<PriceGuide>
  {
    match Search(PriceRange, t, 0)
    case Some(g) =>
      assert g[0] in g && g[1] in g;
      RangeGuide(g[0], g[1])
    case None =>
      match Search(NumberThenM, t, 0)
      case Some(g) =>
        assert g[0] in g;
        SingleGuide(g[0], true)
      case None =>
        match Search(DigitRun(6), t, 0)
        case Some(g) =>
          assert g[0] in g;
          SingleGuide(g[0], false)
        case None => Ok(NoPrice)
  }

  /** The two captured bounds, each in millions when under 100, and their midpoint. */
  function RangeGuide(a: string, b: string): Result<PriceGuide>
    requires forall c | c in a :: InClass(NumChars, c)
    requires forall c | c in b :: InClass(NumChars, c)
  {
    match (ParseDecimal(a), ParseDecimal(b))
    case (Some(lo), Some(hi)) =>
      var low := ScaleMillions(lo);
      var high := ScaleMillions(hi);
      Ok(PriceGuide(Some(low), Some(high), Some((low + high) / 2.0)))
    case _ => Err(FloatError)
  }

  /** One captured number as low, high and guide, in millions when it was followed by "m". */
  function SingleGuide(g: string, millions: bool): Result<PriceGuide>
    requires forall c | c in g :: InClass(NumChars, c)
  {
    match ParseDecimal(g)
    case Some(v) => Ok(SinglePrice(if millions then v * 1000000.0 else v))
    case None => Err(FloatError)
  }

  /**
   * A price guide is either no price at all, or all three values, none
   * negative, with the guide the midpoint between low and high.
   */
  predicate Consistent(g: PriceGuide)
  {
    || g == NoPrice
    || (&& g.low.Some? && g.high.Some? && g.guide.Some?
        && g.guide.value * 2.0 == g.low.value + g.high.value
        && Min(g.low.value, g.high.value) <= g.guide.value <= Max(g.low.value, g.high.value)
        && 0.0 <= g.low.value && 0.0 <= g.high.value)
  }

  /**
   * Empty text has no price; a parsed price is all three values or none;
   * the guide of a range is its midpoint, and a single value is its own
   * low, high and guide; prices are never negative; text with no digit
   * and no dot has no price.
   */
  lemma ParsePriceFacts(priceText: string)
    ensures priceText == [] ==> ParsePrice(priceText) == Ok(NoPrice)
    ensures ParsePrice(priceText).Ok? ==> Consistent(ParsePrice(priceText).value)
    ensures var r := ParsePrice(priceText);
      r.Ok? && r.value != NoPrice && Search(PriceRange, Clean(priceText), 0).None? ==>
        r.value.low == r.value.high == r.value.guide
    ensures (forall c | c in priceText :: !InClass(NumChars, c)) ==> ParsePrice(priceText) == Ok(NoPrice)
  {
    ParsePriceShape(priceText);
    ParsePriceSingle(priceText);
    ParsePriceNoDigits(priceText);
  }

  lemma ParsePriceShape(priceText: string)
    ensures ParsePrice(priceText).Ok? ==> Consistent(ParsePrice(priceText).value)
  {
    if priceText != [] {
      var t := Clean(priceText);
      match Search(PriceRange, t, 0)
      case Some(g) =>
        assert g[0] in g && g[1] in g;
        match (ParseDecimal(g[0]), ParseDecimal(g[1])) {
          case (Some(lo), Some(hi)) =>
            RangeConsistent(ScaleMillions(lo), ScaleMillions(hi));
          case _ =>
        }
      case None =>
        match Search(NumberThenM, t, 0)
        case Some(g) =>
          assert g[0] in g;
          match ParseDecimal(g[0]) {
            case Some(v) => SingleConsistent(v * 1000000.0);
            case None =>
          }
        case None =>
          match Search(DigitRun(6), t, 0)
          case Some(g) =>
            assert g[0] in g;
            match ParseDecimal(g[0]) {
              case Some(v) => SingleConsistent(v);
              case None =>
            }
          case None =>
    }
  }

  lemma RangeConsistent(low: real, high: real)
    requires 0.0 <= low && 0.0 <= high
    ensures Consistent(PriceGuide(Some(low), Some(high), Some((low + high) / 2.0)))
  {
  }

  lemma SingleConsistent(v: real)
    requires 0.0 <= v
    ensures Consistent(SinglePrice(v))
  {
  }

  lemma ParsePriceSingle(priceText: string)
    ensures var r := ParsePrice(priceText);
      r.Ok? && r.value != NoPrice && Search(PriceRange, Clean(priceText), 0).None? ==>
        r.value.low == r.value.high == r.value.guide
  {
  }

  lemma ParsePriceNoDigits(priceText: string)
    ensures (forall c | c in priceText :: !InClass(NumChars, c)) ==> ParsePrice(priceText) == Ok(NoPrice)
  {
    if forall c | c in priceText :: !InClass(NumChars, c) {
      var t := Clean(priceText);
      CleanKeepsNumbers(priceText);
      NoNumberNoMatch(PriceRange, t, 0);
      NoNumberNoMatch(NumberThenM, t, 0);
      NoNumberNoMatch(DigitRun(6), t, 0);
    }
  }

  /** A price number: digits and dots that `float` reads as `v`. */
  predicate PriceNumber(g: string, v: real)
  {
    && g != [] && (forall c | c in g :: InClass(NumChars, c))
    && ParseDecimal(g) == Some(v)
  }

  /**
   * A range "a m - b m": low and high are the two numbers, each read in
   * millions when under 100, and the guide is their midpoint.
   */
  lemma RangeValue(a: string, b: string, lo: real, hi: real)
    requires PriceNumber(a, lo) && PriceNumber(b, hi)
    ensures var low := if lo < 100.0 then lo * 1000000.0 else lo;
      var high := if hi < 100.0 then hi * 1000000.0 else hi;
      ParsePrice(a + "m - " + b + "m") == Ok(PriceGuide(Some(low), Some(high), Some((low + high) / 2.0)))
  {
    var s := a + "m - " + b + "m";
    RangeMatch(a, b);
    RangeClean(a, b);
    CleanPrice(s);
    RangeFirst(s, a, b);
    RangeGuideValue(a, b, lo, hi);
  }

  /** Text that is its own cleaning is priced as it stands. */
  lemma CleanPrice(t: string)
    requires t != [] && Clean(t) == t
    ensures ParsePrice(t) == PriceOf(t)
  {
  }

  /** Text whose first range match captures a and b is priced by the range guide of a and b. */
  lemma RangeFirst(t: string, a: string, b: string)
    requires forall c | c in a :: InClass(NumChars, c)
    requires forall c | c in b :: InClass(NumChars, c)
    requires Search(PriceRange, t, 0) == Some([a, b])
    ensures PriceOf(t) == RangeGuide(a, b)
  {
  }

  /** Two readable bounds give their scaled values and the midpoint. */
  lemma RangeGuideValue(a: string, b: string, lo: real, hi: real)
    requires PriceNumber(a, lo) && PriceNumber(b, hi)
    ensures var low := if lo < 100.0 then lo * 1000000.0 else lo;
      var high := if hi < 100.0 then hi * 1000000.0 else hi;
      RangeGuide(a, b) == Ok(PriceGuide(Some(low), Some(high), Some((low + high) / 2.0)))
  {
  }

  /** The range pattern matches "a m - b m" at its start, capturing a and b. */
  lemma RangeMatch(a: string, b: string)
    requires a != [] && b != []
    requires forall c | c in a :: InClass(NumChars, c)
    requires forall c | c in b :: InClass(NumChars, c)
    ensures Search(PriceRange, a + "m - " + b + "m", 0) == Some([a, b])
  {
    var s := a + "m - " + b + "m";
    var n := |a|;
    var m := |b|;
    assert s[0..n] == a && s[n + 4..n + 4 + m] == b;
    assert s[n] == 'm' && s[n + 1] == ' ' && s[n + 2] == '-' && s[n + 3] == ' ' && s[n + 4 + m] == 'm';
    forall k | 0 <= k < n ensures InClass(NumChars, s[k]) {
      assert s[k] == a[k] && a[k] in a;
    }
    forall k | n + 4 <= k < n + 4 + m ensures InClass(NumChars, s[k]) {
      assert s[k] == b[k - n - 4] && b[k - n - 4] in b;
    }
    RangeMatchAt(s, n, m);
  }

  /**
   * Text laid out as a number (n characters), "m - ", a number (m
   * characters) and "m": the range pattern captures the two numbers.
   */
  lemma RangeMatchAt(s: string, n: nat, m: nat)
    requires 0 < n && 0 < m && n + 4 + m < |s|
    requires forall k | 0 <= k < n :: InClass(NumChars, s[k])
    requires forall k | n + 4 <= k < n + 4 + m :: InClass(NumChars, s[k])
    requires s[n] == 'm' && s[n + 1] == ' ' && s[n + 2] == '-' && s[n + 3] == ' ' && s[n + 4 + m] == 'm'
    ensures MatchAt(PriceRange, s, 0) == Some([s[0..n], s[n + 4..n + 4 + m]])
  {
    RunEndTo(s, 0, n, NumChars);
    RunEndTo(s, n + 4, n + 4 + m, NumChars);
    RangeGap(s, n);
  }

  /** The runs between the numbers of "a m - b": no space, the "m", one space, one dash, one space. */
  lemma RangeGap(s: string, n: nat)
    requires n + 4 < |s|
    requires s[n] == 'm' && s[n + 1] == ' ' && s[n + 2] == '-' && s[n + 3] == ' ' && InClass(NumChars, s[n + 4])
    ensures RunEnd(s, n, Spaces) == n
    ensures RunEnd(s, n + 1, Spaces) == n + 2
    ensures RunEnd(s, n + 2, Dashes) == n + 3
    ensures RunEnd(s, n + 3, Spaces) == n + 4
  {
    assert RunEnd(s, n + 2, Spaces) == n + 2;
    assert RunEnd(s, n + 3, Dashes) == n + 3;
    assert RunEnd(s, n + 4, Spaces) == n + 4;
  }

  /** "a m - b m" is its own cleaning. */
  lemma RangeClean(a: string, b: string)
    requires forall c | c in a :: InClass(NumChars, c)
    requires forall c | c in b :: InClass(NumChars, c)
    ensures Clean(a + "m - " + b + "m") == a + "m - " + b + "m"
  {
    var s := a + "m - " + b + "m";
    forall c | c in s ensures LowerChar(c) == c && c != ',' && c != '$' {
      if c in a {
      } else if c in b {
      } else {
        assert c in "m - m";
      }
    }
    CleanIdentity(s);
  }

  /** A number followed by "m" is one price in millions. */
  lemma MillionsValue(d: string, v: real)
    requires PriceNumber(d, v)
    ensures ParsePrice(d + "m") == Ok(SinglePrice(v * 1000000.0))
  {
    var s := d + "m";
    var n := |d|;
    assert s[0..n] == d && s[n] == 'm';
    forall k | 0 <= k < n ensures InClass(NumChars, s[k]) {
      assert s[k] == d[k] && d[k] in d;
    }
    MillionsMatch(s, n);
    forall c | c in s ensures LowerChar(c) == c && c != ',' && c != '$' {
      if c != 'm' {
        assert c in d;
      }
    }
    CleanIdentity(s);
    CleanPrice(s);
    MillionsFirst(s, d);
    SingleGuideValue(d, true, v);
  }

  /** A number of n characters then a final "m": no range, and the number before "m" is the number. */
  lemma MillionsMatch(s: string, n: nat)
    requires 0 < n && |s| == n + 1 && s[n] == 'm'
    requires forall k | 0 <= k < n :: InClass(NumChars, s[k])
    ensures Search(PriceRange, s, 0).None?
    ensures Search(NumberThenM, s, 0) == Some([s[0..n]])
  {
    forall q | 0 <= q <= |s| ensures MatchAt(PriceRange, s, q).None? {
      if q < n {
        RunEndTo(s, q, n, NumChars);
      }
    }
    SearchFindsMatch(PriceRange, s, 0);
    RunEndTo(s, 0, n, NumChars);
  }

  /** Text with no range whose first number before "m" is d is priced by d in millions. */
  lemma MillionsFirst(t: string, d: string)
    requires forall c | c in d :: InClass(NumChars, c)
    requires Search(PriceRange, t, 0).None? && Search(NumberThenM, t, 0) == Some([d])
    ensures PriceOf(t) == SingleGuide(d, true)
  {
  }

  /** One readable number is low, high and guide, scaled to millions when asked. */
  lemma SingleGuideValue(g: string, millions: bool, v: real)
    requires PriceNumber(g, v)
    ensures SingleGuide(g, millions) == Ok(SinglePrice(if millions then v * 1000000.0 else v))
  {
  }

  /** Six or more plain digits are one price, their value. */
  lemma DigitsValuePrice(d: string)
    requires |d| >= 6 && forall c | c in d :: IsDigit(c)
    ensures ParsePrice(d) == Ok(SinglePrice(DigitsValue(d) as real))
  {
    DigitsPrice(d);
    DigitsClean(d);
    CleanPrice(d);
  }

  /** Plain digits are their own cleaning. */
  lemma DigitsClean(d: string)
    requires forall c | c in d :: IsDigit(c)
    ensures Clean(d) == d
  {
    forall c | c in d ensures LowerChar(c) == c && c != ',' && c != '$' {
      assert IsDigit(c);
    }
    CleanIdentity(d);
  }

  /** The digit-run pattern matches all of a run of six or more digits. */
  lemma DigitsRunMatch(d: string)
    requires |d| >= 6 && forall c | c in d :: IsDigit(c)
    ensures MatchAt(DigitRun(6), d, 0) == Some([d])
  {
    forall k | 0 <= k < |d| ensures InClass(Digits, d[k]) {
      assert d[k] in d;
    }
    RunEndTo(d, 0, |d|, Digits);
    assert d[0..|d|] == d;
  }

  /** Six or more plain digits, as cleaned text, are priced by their value. */
  lemma DigitsPrice(d: string)
    requires |d| >= 6 && forall c | c in d :: IsDigit(c)
    ensures PriceOf(d) == Ok(SinglePrice(DigitsValue(d) as real))
  {
    DigitsNoRange(d);
    DigitsRunMatch(d);
    WholeNumber(d);
    DigitsFirst(d, d);
    SingleGuideValue(d, false, DigitsValue(d) as real);
  }

  /** Text with no range and no number before "m" whose first long digit run is g is priced by g. */
  lemma DigitsFirst(t: string, g: string)
    requires forall c | c in g :: InClass(NumChars, c)
    requires Search(PriceRange, t, 0).None? && Search(NumberThenM, t, 0).None?
    requires MatchAt(DigitRun(6), t, 0) == Some([g])
    ensures PriceOf(t) == SingleGuide(g, false)
  {
  }

  /** Plain digits hold neither a range nor a number followed by "m". */
  lemma DigitsNoRange(d: string)
    requires forall c | c in d :: IsDigit(c)
    ensures Search(PriceRange, d, 0).None? && Search(NumberThenM, d, 0).None?
  {
    forall q | 0 <= q <= |d| ensures MatchAt(PriceRange, d, q).None? && MatchAt(NumberThenM, d, q).None? {
      if q < |d| {
        forall k | q <= k < |d| ensures InClass(NumChars, d[k]) {
          assert d[k] in d;
        }
        RunEndTo(d, q, |d|, NumChars);
      }
    }
    SearchFindsMatch(PriceRange, d, 0);
    SearchFindsMatch(NumberThenM, d, 0);
  }

  // ---------------------------------------------------------------------
  // The listings in the reply.
  // ---------------------------------------------------------------------

  datatype Json =
    | JNull
    | JBool(b: bool)
    | JNumber(n: real)
    | JString(str: string)
    | JArray(items: seq<Json>)
    | JObject(fields: map<string, Json>)

  /** Python truthiness of a decoded JSON value. */
  predicate JTruthy(j: Json)
  {
    match j
    case JNull => false
    case JBool(b) => b
    case JNumber(n) => n != 0.0
    case JString(s) => s != ""
    case JArray(items) => items != []
    case JObject(fields) => |fields| != 0
  }

  /** `dict.get(key, default)`. */
  function Get(fields: map<string, Json>, key: string, default: Json): Json
  {
    if key in fields then fields[key] else default
  }

  /** The text from the first "[" to the last "]", if "]" comes after it. */
  function ArrayText(text: string): (r: Option<string>)
    ensures r.Some? ==> |r.value| >= 2 && r.value[0] == '[' && r.value[|r.value| - 1] == ']'
    ensures r.Some? <==> exists i, j | 0 <= i < j < |text| :: text[i] == '[' && text[j] == ']'
  {
    if '[' !in text then None
    else
      var i := FirstIndex(text, '[');
      var j := LastIndex(text, ']');
      if j.Some? && j.value > i then Some(text[i..j.value + 1])
      else
        forall a, b | 0 <= a < b < |text| ensures !(text[a] == '[' && text[b] == ']') {
          if a < i {
            assert text[a] in text[..i];
          }
        }
        None
  }

  function FirstIndex(s: string, c: char): (k: nat)
    requires c in s
    ensures k < |s| && s[k] == c && c !in s[..k]
  {
    if s[0] == c then 0
    else
      var k := FirstIndex(s[1..], c) + 1;
      assert s[..k] == [s[0]] + s[1..][..k - 1];
      k
  }

  function LastIndex(s: string, c: char): (r: Option<nat>)
    ensures r.None? <==> c !in s
    ensures r.Some? ==> r.value < |s| && s[r.value] == c && forall k | r.value < k < |s| :: s[k] != c
  {
    if s == [] then None
    else if s[|s| - 1] == c then Some(|s| - 1)
    else
      var r := LastIndex(s[..|s| - 1], c);
      assert c in s ==> c in s[..|s| - 1] by {
        if c in s {
          var k :| 0 <= k < |s| && s[k] == c;
          assert s[..|s| - 1][k] == c;
        }
      }
      r
  }

  /** The entries of the reply's array; nothing when there is none, it does not decode, or it is not a list. */
  function ReplyEntries(text: string, decode: string -> Option<Json>): seq<Json>
  {
    match ArrayText(text)
    case None => []
    case Some(a) =>
      match decode(a)
      case Some(JArray(items)) => items
      case _ => []
  }

  /** A listing as the rest of the pipeline stores it. */
  datatype Listing = Listing(
    listingId: Option<string>,
    url: string,
    address: Json,
    suburb: string,
    priceText: Json,
    bedrooms: Json,
    bathrooms: Json,
    carSpaces: Json,
    landSizeM2: Json,
    scrapedAt: string,
    source: string)

  const Source := "domain_browser"

  /** The end of the digit run after position q. */
  function IdEnd(url: string, q: nat): nat
    requires q < |url|
  {
    RunEnd(url, q + 1, Digits)
  }

  /**
   * `/(\d+)(?:\?|$)` matches at q: a "/", then digits up to a "?", the
   * end of the URL, or a final newline.  A shorter digit run is followed
   * by a digit, so the greedy run is the only one that can match.
   */
  predicate IdMatchAt(url: string, q: nat)
    requires q < |url|
  {
    var e := IdEnd(url, q);
    && url[q] == '/' && e > q + 1
    && (e == |url| || url[e] == '?' || (e == |url| - 1 && url[e] == '\n'))
  }

  /** The listing id: the digits of the leftmost match at or after p. */
  function ListingIdAt(url: string, p: nat): (r: Option<string>)
    requires p <= |url|
    ensures r.Some? ==> r.value != [] && forall c | c in r.value :: IsDigit(c)
    decreases |url| - p
  {
    if p == |url| then None
    else if IdMatchAt(url, p) then
      assert forall c | c in url[p + 1..IdEnd(url, p)] :: IsDigit(c);
      Some(url[p + 1..IdEnd(url, p)])
    else ListingIdAt(url, p + 1)
  }

  /** No id is found from p exactly when nothing matches at or after p. */
  lemma {:induction false} ListingIdNone(url: string, p: nat)
    requires p <= |url|
    ensures ListingIdAt(url, p).None? <==> forall q | p <= q < |url| :: !IdMatchAt(url, q)
    decreases |url| - p
  {
    if p < |url| && !IdMatchAt(url, p) {
      ListingIdNone(url, p + 1);
    }
  }

  /** The first position at or after p where the id pattern matches, or the URL's length. */
  function FirstIdMatch(url: string, p: nat): (q: nat)
    requires p <= |url|
    ensures p <= q <= |url|
    ensures q < |url| ==> IdMatchAt(url, q)
    ensures forall q' | p <= q' < q :: !IdMatchAt(url, q')
    decreases |url| - p
  {
    if p == |url| || IdMatchAt(url, p) then p else FirstIdMatch(url, p + 1)
  }

  /**
   * The id found is the digit run of the leftmost match from p (a "/" and
   * digits that end at a "?" or the end of the URL); with no match there
   * is no id.
   */
  lemma {:induction false} ListingIdLeftmost(url: string, p: nat)
    requires p <= |url|
    ensures var q := FirstIdMatch(url, p);
      q < |url| ==> ListingIdAt(url, p) == Some(url[q + 1..IdEnd(url, q)])
    ensures FirstIdMatch(url, p) == |url| ==> ListingIdAt(url, p).None?
    decreases |url| - p
  {
    if p < |url| && !IdMatchAt(url, p) {
      ListingIdLeftmost(url, p + 1);
    }
  }

  /** A listing entry the reply keeps: a JSON object with an address or a URL. */
  predicate KeptEntry(j: Json)
  {
    j.JObject? && (JTruthy(Get(j.fields, "address", JNull)) || JTruthy(Get(j.fields, "url", JNull)))
  }

  /**
   * The URL used for an entry: its "url" when that is text, "" when it is
   * missing or not text.
   */
  function EntryUrl(fields: map<string, Json>): string
  {
    match Get(fields, "url", JString(""))
    case JString(u) => u
    case _ => ""
  }

  function Normalise(fields: map<string, Json>, suburb: string, scrapedAt: string): (l: Listing)
    ensures l.suburb == suburb && l.source == Source && l.scrapedAt == scrapedAt
    ensures l.listingId.Some? ==> forall c | c in l.listingId.value :: IsDigit(c)
  {
    var url := EntryUrl(fields);
    Listing(
      ListingIdAt(url, 0), url, Get(fields, "address", JString("")), suburb,
      Get(fields, "price_text", JString("")), Get(fields, "bedrooms", JNull),
      Get(fields, "bathrooms", JNull), Get(fields, "car_spaces", JNull),
      Get(fields, "land_size_m2", JNull), scrapedAt, Source)
  }

  /** The objects kept from the entries so far, in order. */
  function KeptFields(entries: seq<Json>): seq<map<string, Json>>
  {
    if entries == [] then []
    else
      var last := entries[|entries| - 1];
      KeptFields(entries[..|entries| - 1]) + (if KeptEntry(last) then [last.fields] else [])
  }

  /**
   * The kept objects are exactly the entries that are objects with an
   * address or a URL: every one of them, and nothing else.
   */
  lemma KeptFieldsMembers(entries: seq<Json>)
    ensures |KeptFields(entries)| <= |entries|
    ensures forall f :: f in KeptFields(entries) <==> exists i | 0 <= i < |entries| :: KeptEntry(entries[i]) && entries[i].fields == f
  {
    KeptFieldsBound(entries);
    KeptFieldsExactly(entries);
  }

  lemma {:induction false} KeptFieldsBound(entries: seq<Json>)
    ensures |KeptFields(entries)| <= |entries|
  {
    if entries != [] {
      KeptFieldsBound(entries[..|entries| - 1]);
    }
  }

  lemma {:induction false} KeptFieldsExactly(entries: seq<Json>)
    ensures forall f :: f in KeptFields(entries) <==> exists i | 0 <= i < |entries| :: KeptEntry(entries[i]) && entries[i].fields == f
  {
    if entries != [] {
      var init := entries[..|entries| - 1];
      KeptFieldsExactly(init);
      forall f ensures f in KeptFields(entries) <==> exists i | 0 <= i < |entries| :: KeptEntry(entries[i]) && entries[i].fields == f {
        if f in KeptFields(init) {
          var i :| 0 <= i < |init| && KeptEntry(init[i]) && init[i].fields == f;
          assert entries[i] == init[i];
        }
        if exists i | 0 <= i < |entries| :: KeptEntry(entries[i]) && entries[i].fields == f {
          var i :| 0 <= i < |entries| && KeptEntry(entries[i]) && entries[i].fields == f;
          if i < |init| {
            assert init[i] == entries[i];
          }
        }
      }
    }
  }

  /** The reply's listings: each kept entry normalised, in order. */
  function Listings(text: string, suburb: string, scrapedAt: string, decode: string -> Option<Json>): seq<Listing>
  {
    var kept := KeptFields(ReplyEntries(text, decode));
    seq(|kept|, i requires 0 <= i < |kept| => Normalise(kept[i], suburb, scrapedAt))
  }

  /** parse_browser_agent_response. */
  method ParseBrowserAgentResponse(text: string, suburb: string, scrapedAt: string, decode: string -> Option<Json>)
    returns (listings: seq<Listing>)
    ensures listings == Listings(text, suburb, scrapedAt, decode)
  {
    var entries := ReplyEntries(text, decode);
    listings := [];
    var i := 0;
    while i < |entries|
      invariant 0 <= i <= |entries|
      invariant |listings| == |KeptFields(entries[..i])|
      invariant forall k | 0 <= k < |listings| :: listings[k] == Normalise(KeptFields(entries[..i])[k], suburb, scrapedAt)
    {
      assert entries[..i + 1][..i] == entries[..i];
      var entry := entries[i];
      if entry.JObject? && (JTruthy(Get(entry.fields, "address", JNull)) || JTruthy(Get(entry.fields, "url", JNull))) {
        listings := listings + [Normalise(entry.fields, suburb, scrapedAt)];
      }
      i := i + 1;
    }
    assert entries[..i] == entries;
  }

  /**
   * Each listing of a reply belongs to its suburb and source, and no
   * reply without a JSON array, or whose array does not decode to a list,
   * yields listings.
   */
  lemma ListingsFacts(text: string, suburb: string, scrapedAt: string, decode: string -> Option<Json>)
    ensures forall l | l in Listings(text, suburb, scrapedAt, decode) :: l.suburb == suburb && l.source == Source
    ensures ArrayText(text).None? ==> Listings(text, suburb, scrapedAt, decode) == []
    ensures ArrayText(text).Some? && !(decode(ArrayText(text).value).Some? && decode(ArrayText(text).value).value.JArray?) ==>
      Listings(text, suburb, scrapedAt, decode) == []
  {
  }

  /**
   * The listings as written: an entry whose "url" is present but not
   * text (a JSON null, say) makes the URL search raise TypeError, which
   * nothing catches.
   */
  function ListingsAsWritten(entries: seq<Json>, suburb: string, scrapedAt: string): Result<seq<Listing>>
  {
    if entries == [] then Ok([])
    else
      var last := entries[|entries| - 1];
      match ListingsAsWritten(entries[..|entries| - 1], suburb, scrapedAt)
      case Err(e) => Err(e)
      case Ok(init) =>
        if !KeptEntry(last) then Ok(init)
        else if !Get(last.fields, "url", JString("")).JString? then Err("expected string or bytes-like object")
        else Ok(init + [Normalise(last.fields, suburb, scrapedAt)])
  }

  /**
   * One entry with an address and a null URL: as written the whole reply
   * fails, while the listing the address describes is the one expected.
   */
  lemma NullUrlRaises(suburb: string, scrapedAt: string)
    ensures var entry := JObject(map["address" := JString("1 Smith St"), "url" := JNull]);
      && ListingsAsWritten([entry], suburb, scrapedAt).Err?
      && |KeptFields([entry])| == 1
      && Normalise(KeptFields([entry])[0], suburb, scrapedAt).address == JString("1 Smith St")
      && Normalise(KeptFields([entry])[0], suburb, scrapedAt).url == ""
  {
    var entry := JObject(map["address" := JString("1 Smith St"), "url" := JNull]);
    assert [entry][..0] == [];
    assert KeptEntry(entry);
  }

  /** Where every URL present is text, the listings as written and the corrected ones agree. */
  lemma {:induction false} AsWrittenAgrees(entries: seq<Json>, suburb: string, scrapedAt: string)
    requires forall j | j in entries && j.JObject? && "url" in j.fields :: j.fields["url"].JString?
    ensures ListingsAsWritten(entries, suburb, scrapedAt).Ok?
    ensures var kept := KeptFields(entries);
      ListingsAsWritten(entries, suburb, scrapedAt).value ==
        seq(|kept|, i requires 0 <= i < |kept| => Normalise(kept[i], suburb, scrapedAt))
  {
    if entries != [] {
      var init := entries[..|entries| - 1];
      assert forall j | j in init :: j in entries;
      AsWrittenAgrees(init, suburb, scrapedAt);
      var last := entries[|entries| - 1];
      assert last in entries;
    }
  }
}
