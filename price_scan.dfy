/**
 * The pattern searches the price parsers run over listing price text,
 * and Python's `float` on the digit-and-dot strings they capture.
 *
 * Every pattern here starts with a greedy run of one character class and
 * continues with classes that cannot extend that run, so a match at a
 * position, when there is one, is the one found by scanning maximal runs
 * without backtracking; a search returns the groups of the leftmost match.
 */
module PriceScan {
  import opened Wrappers
  import opened Text

  // ---------------------------------------------------------------------
  // Character classes and their runs.
  // ---------------------------------------------------------------------

  datatype CharClass =
    | NumChars  // [\d.]
    | Spaces    // \s
    | Dashes    // [-–to]
    | Digits    // \d

  predicate InClass(cls: CharClass, c: char)
  {
    match cls
    case NumChars => IsDigit(c) || c == '.'
    case Spaces => IsSpace(c)
    case Dashes => c == '-' || c == '–' || c == 't' || c == 'o'
    case Digits => IsDigit(c)
  }

  /** The end of the longest run of `cls` characters starting at `i`. */
  function RunEnd(s: string, i: nat, cls: CharClass): (e: nat)
    requires i <= |s|
    ensures i <= e <= |s|
    ensures forall k | i <= k < e :: InClass(cls, s[k])
    ensures e == |s| || !InClass(cls, s[e])
    decreases |s| - i
  {
    if i < |s| && InClass(cls, s[i]) then RunEnd(s, i + 1, cls) else i
  }

  // ---------------------------------------------------------------------
  // Patterns.
  // ---------------------------------------------------------------------

  datatype Pattern =
    | PriceRange        // ([\d.]+)\s*m?\s*[-–to]+\s*([\d.]+)\s*m?
    | NumberThenM       // ([\d.]+)\s*m
    | Number            // ([\d.]+)
    | DigitRun(min: nat) // (\d{min,})

  function GroupCount(pat: Pattern): nat
  {
    if pat.PriceRange? then 2 else 1
  }

  /** The groups captured are non-empty digit-and-dot strings, as many as the pattern has. */
  predicate NumberGroups(pat: Pattern, groups: seq<string>)
  {
    && |groups| == GroupCount(pat)
    && forall g | g in groups :: g != [] && forall c | c in g :: InClass(NumChars, c)
  }

  /** The groups of the match of `pat` starting exactly at `p`, if it matches there. */
  function MatchAt(pat: Pattern, s: string, p: nat): (r: Option<seq<string>>)
    requires p <= |s|
    ensures r.Some? ==> NumberGroups(pat, r.value)
    ensures r.Some? ==> p < |s| && InClass(NumChars, s[p])
  {
    match pat
    case PriceRange =>
      var e1 := RunEnd(s, p, NumChars);
      if e1 == p then None
      else
        var q1 := RunEnd(s, e1, Spaces);
        var q2 := if q1 < |s| && s[q1] == 'm' then q1 + 1 else q1;
        var q3 := RunEnd(s, q2, Spaces);
        var d := RunEnd(s, q3, Dashes);
        if d == q3 then None
        else
          var b := RunEnd(s, d, Spaces);
          var e2 := RunEnd(s, b, NumChars);
          if e2 == b then None else Some([s[p..e1], s[b..e2]])
    case NumberThenM =>
      var e := RunEnd(s, p, NumChars);
      var q := RunEnd(s, e, Spaces);
      if e > p && q < |s| && s[q] == 'm' then Some([s[p..e]]) else None
    case Number =>
      var e := RunEnd(s, p, NumChars);
      if e > p then Some([s[p..e]]) else None
    case DigitRun(min) =>
      var e := RunEnd(s, p, Digits);
      assert forall c | c in s[p..e] :: IsDigit(c);
      if e > p && e - p >= min then Some([s[p..e]]) else None
  }

  /** A number followed by "m" matches at `p` exactly when the digits then spaces end on an "m". */
  lemma NumberThenMAt(s: string, p: nat)
    requires p <= |s|
    ensures MatchAt(NumberThenM, s, p).Some? <==>
      var e := RunEnd(s, p, NumChars);
      var q := RunEnd(s, e, Spaces);
      e > p && q < |s| && s[q] == 'm'
  {
  }

  /** `re.search`: the groups of the leftmost match at or after `p`. */
  function Search(pat: Pattern, s: string, p: nat): (r: Option<seq<string>>)
    requires p <= |s|
    ensures r.Some? ==> NumberGroups(pat, r.value)
    decreases |s| - p
  {
    match MatchAt(pat, s, p)
    case Some(groups) => Some(groups)
    case None => if p == |s| then None else Search(pat, s, p + 1)
  }

  /** The first position from `p` up to `end` where `hit` holds. */
  function FirstHit(hit: nat -> bool, p: nat, end: nat): (r: Option<nat>)
    requires p <= end
    ensures r.Some? ==> p <= r.value <= end && hit(r.value) && forall q | p <= q < r.value :: !hit(q)
    ensures r.None? ==> forall q | p <= q <= end :: !hit(q)
    decreases end - p
  {
    if hit(p) then Some(p)
    else if p == end then None
    else FirstHit(hit, p + 1, end)
  }

  /** The positions of `s` where `pat` matches. */
  function MatchPositions(pat: Pattern, s: string): nat -> bool
  {
    (q: nat) => q <= |s| && MatchAt(pat, s, q).Some?
  }

  /** The search returns the match at the first matching position, and nothing when there is none. */
  lemma {:induction false} SearchIsFirstMatch(pat: Pattern, s: string, p: nat)
    requires p <= |s|
    ensures FirstHit(MatchPositions(pat, s), p, |s|).None? ==> Search(pat, s, p).None?
    ensures FirstHit(MatchPositions(pat, s), p, |s|).Some? ==>
      Search(pat, s, p) == MatchAt(pat, s, FirstHit(MatchPositions(pat, s), p, |s|).value)
    decreases |s| - p
  {
    assert MatchPositions(pat, s)(p) == MatchAt(pat, s, p).Some?;
    if MatchAt(pat, s, p).None? && p < |s| {
      SearchIsFirstMatch(pat, s, p + 1);
    }
  }

  /** The search finds a match exactly when one exists. */
  lemma SearchFindsMatch(pat: Pattern, s: string, p: nat)
    requires p <= |s|
    ensures Search(pat, s, p).None? <==> forall q | p <= q <= |s| :: MatchAt(pat, s, q).None?
  {
    SearchIsFirstMatch(pat, s, p);
    forall q | p <= q <= |s| ensures MatchPositions(pat, s)(q) == MatchAt(pat, s, q).Some? { }
  }

  /** Text without a digit or a dot holds no match of any of the patterns. */
  lemma NoNumberNoMatch(pat: Pattern, s: string, p: nat)
    requires p <= |s|
    requires forall c | c in s :: !InClass(NumChars, c)
    ensures Search(pat, s, p).None?
    decreases |s| - p
  {
    assert p < |s| ==> s[p] in s;
    if p < |s| {
      NoNumberNoMatch(pat, s, p + 1);
    }
  }

  // ---------------------------------------------------------------------
  // Cleaning the text.
  // ---------------------------------------------------------------------

  /** `s.replace(c, "")`. */
  function Without(s: string, c: char): string
  {
    if s == [] then []
    else (if s[0] == c then [] else [s[0]]) + Without(s[1..], c)
  }

  /** Dropping a character keeps exactly the other characters and never lengthens the text. */
  lemma {:induction false} WithoutMembers(s: string, c: char)
    ensures |Without(s, c)| <= |s|
    ensures forall x :: x in Without(s, c) <==> x in s && x != c
  {
    if s != [] {
      WithoutMembers(s[1..], c);
      assert s == [s[0]] + s[1..];
    }
  }

  /** Lower case, thousands separators and dollar signs dropped. */
  function Clean(s: string): string
  {
    Without(Without(Lower(s), ','), '$')
  }

  /** Cleaning removes every "," and "$" and keeps the other lower-cased characters. */
  lemma CleanMembers(s: string)
    ensures ',' !in Clean(s) && '$' !in Clean(s)
    ensures forall x :: x in Clean(s) <==> x in Lower(s) && x != ',' && x != '$'
  {
    WithoutMembers(Lower(s), ',');
    WithoutMembers(Without(Lower(s), ','), '$');
  }

  /** Cleaning neither creates nor removes digits and dots. */
  lemma CleanKeepsNumbers(s: string)
    ensures forall c | c in Clean(s) :: InClass(NumChars, c) ==> c in s
  {
    CleanMembers(s);
    forall c | c in Clean(s) && InClass(NumChars, c) ensures c in s {
      var l := Lower(s);
      var i :| 0 <= i < |l| && l[i] == c;
      assert l[i] == LowerChar(s[i]);
    }
  }

  // ---------------------------------------------------------------------
  // Python's float() on a run of digits and dots.
  // ---------------------------------------------------------------------

  function Pow10(n: nat): (r: nat)
    ensures r >= 1
  {
    if n == 0 then 1 else 10 * Pow10(n - 1)
  }

  /** The position of the first dot. */
  function DotIndex(g: string): (k: nat)
    requires '.' in g
    ensures k < |g| && g[k] == '.' && '.' !in g[..k]
  {
    if g[0] == '.' then 0
    else
      assert g == [g[0]] + g[1..];
      var k := DotIndex(g[1..]) + 1;
      assert g[..k] == [g[0]] + g[1..][..k - 1];
      k
  }

  /** A string `float` accepts: at least one digit and at most one dot. */
  predicate WellFormedDecimal(g: string)
  {
    && (exists k | 0 <= k < |g| :: IsDigit(g[k]))
    && forall i, j | 0 <= i < j < |g| :: !(g[i] == '.' && g[j] == '.')
  }

  /**
   * `float(g)` for a string of digits and dots: None where Python raises
   * ValueError, otherwise the whole part plus the fraction after the dot.
   */
  function ParseDecimal(g: string): (r: Option<real>)
    requires forall c | c in g :: InClass(NumChars, c)
    ensures r.Some? <==> WellFormedDecimal(g)
    ensures r.Some? ==> r.value >= 0.0
  {
    if '.' !in g then
      forall c | c in g ensures IsDigit(c) {
        assert InClass(NumChars, c);
      }
      assert g != [] ==> IsDigit(g[0]);
      if g == [] then None else Some(DigitsValue(g) as real)
    else
      var k := DotIndex(g);
      var whole := g[..k];
      var fraction := g[k + 1..];
      forall c | c in whole ensures IsDigit(c) {
        assert c in g && InClass(NumChars, c);
      }
      if '.' in fraction then
        assert !WellFormedDecimal(g) by {
          var j :| 0 <= j < |fraction| && fraction[j] == '.';
          assert g[k + 1 + j] == '.';
        }
        None
      else if whole == [] && fraction == [] then
        assert |g| == 1;
        None
      else
        forall c | c in fraction ensures IsDigit(c) {
          assert c in g && InClass(NumChars, c);
        }
        assert WellFormedDecimal(g) by {
          if whole != [] {
            assert IsDigit(g[0]);
          } else {
            assert IsDigit(g[k + 1]);
          }
          forall i, j | 0 <= i < j < |g| ensures !(g[i] == '.' && g[j] == '.') {
            if i < k {
              assert g[i] in g[..k];
            } else if i > k {
              assert g[i] in fraction;
            } else if j > k {
              assert g[j] in fraction;
            }
          }
        }
        Some(DigitsValue(whole) as real + DigitsValue(fraction) as real / Pow10(|fraction|) as real)
  }

  /** Without a dot, `float` reads the digits as a whole number. */
  lemma WholeNumber(g: string)
    requires g != [] && forall c | c in g :: IsDigit(c)
    ensures forall c | c in g :: InClass(NumChars, c)
    ensures ParseDecimal(g) == Some(DigitsValue(g) as real)
  {
    assert '.' !in g;
  }

  // ---------------------------------------------------------------------
  // Runs and cleaning on text of a known shape.
  // ---------------------------------------------------------------------

  /** RunEnd in the tail of `d + rest` is RunEnd in `rest`, shifted. */
  lemma {:induction false} RunEndShift(d: string, rest: string, k: nat, cls: CharClass)
    requires k <= |rest|
    ensures RunEnd(d + rest, |d| + k, cls) == |d| + RunEnd(rest, k, cls)
    decreases |rest| - k
  {
    if k < |rest| {
      assert (d + rest)[|d| + k] == rest[k];
      if InClass(cls, rest[k]) {
        RunEndShift(d, rest, k + 1, cls);
      }
    }
  }

  /** A run of `cls` from `p` that stops exactly at `e` ends at `e`. */
  lemma {:induction false} RunEndTo(s: string, p: nat, e: nat, cls: CharClass)
    requires p <= e <= |s|
    requires forall k | p <= k < e :: InClass(cls, s[k])
    requires RunEnd(s, e, cls) == e
    ensures RunEnd(s, p, cls) == e
    decreases e - p
  {
    if p < e {
      RunEndTo(s, p + 1, e, cls);
    }
  }

  /** Text already lower case, without "," or "$", is its own cleaning. */
  lemma {:induction false} CleanIdentity(s: string)
    requires forall c | c in s :: LowerChar(c) == c && c != ',' && c != '$'
    ensures Clean(s) == s
  {
    assert Lower(s) == s;
    WithoutAbsent(s, ',');
    WithoutAbsent(s, '$');
  }

  /** Dropping a character the text does not hold changes nothing. */
  lemma {:induction false} WithoutAbsent(s: string, c: char)
    requires c !in s
    ensures Without(s, c) == s
  {
    if s != [] {
      assert s[0] in s;
      WithoutAbsent(s[1..], c);
      assert s == [s[0]] + s[1..];
    }
  }
}
