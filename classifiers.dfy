/**
 * Property classification for gross-realisation-value analysis: the
 * standard property type, the finish-quality tier, the age depreciation of
 * improvements, the renovation status, and the residual land value of a
 * sale.
 */
module Classifiers {
  import opened Wrappers
  import opened Text
  import opened Numeric

  // ---------------------------------------------------------------------
  // Property type.
  // ---------------------------------------------------------------------

  datatype PropertyType = House | Townhouse | Acreage | Unit | VacantLand | Unknown

  /** Python truthiness of optional text and numbers. */
  predicate Truthy(s: Option<string>) { s.Some? && s.value != "" }
  predicate TruthyNum(x: Option<real>) { x.Some? && x.value != 0.0 }

  predicate ContainsAny(text: string, kws: seq<string>)
  {
    exists k | k in kws :: Contains(text, k)
  }

  const TownhouseWords: seq<string> := ["townhouse", "town house", "terrace"]
  const UnitWords: seq<string> := ["unit", "apartment", "flat"]
  const VacantWords: seq<string> := ["vacant", "land"]
  const AcreageWords: seq<string> := ["acreage", "rural", "lifestyle", "farm"]
  const StrataPrefixes: seq<string> := ["unit", "apt", "apartment", "lot"]

  /** The listed type's own verdict, keyword families tried in order. */
  function ListedTypeClass(lt: string): Option<PropertyType>
  {
    if ContainsAny(lt, TownhouseWords) then Some(Townhouse)
    else if ContainsAny(lt, UnitWords) then Some(Unit)
    else if ContainsAny(lt, VacantWords) then Some(VacantLand)
    else if ContainsAny(lt, AcreageWords) then Some(Acreage)
    else None
  }

  /** Optional white space, then a digit: the tail of `(unit|apt|apartment|lot)\s*\d+`. */
  predicate SpacesThenDigit(s: string)
  {
    |s| > 0 && (IsDigit(s[0]) || (IsSpace(s[0]) && SpacesThenDigit(s[1..])))
  }

  predicate StrataAddress(addrLower: string)
  {
    exists p | p in StrataPrefixes :: StartsWith(addrLower, p) && SpacesThenDigit(addrLower[|p|..])
  }

  function LeadingDigits(s: string): (n: nat)
    ensures n <= |s|
    ensures forall i | 0 <= i < n :: IsDigit(s[i])
    ensures n < |s| ==> !IsDigit(s[n])
  {
    if s == [] || !IsDigit(s[0]) then 0 else 1 + LeadingDigits(s[1..])
  }

  /** `^\d+/\d+`: digits, a slash, a digit. */
  predicate NumberSlashNumber(s: string)
  {
    var n := LeadingDigits(s);
    n >= 1 && n + 1 < |s| && s[n] == '/' && IsDigit(s[n + 1])
  }

  function AddressClass(address: string): Option<PropertyType>
  {
    if StrataAddress(Lower(address)) then Some(Unit)
    else if '/' in address && NumberSlashNumber(address) then Some(Townhouse)
    else None
  }

  /** classify_property_type. */
  function ClassifyPropertyType(listedType: Option<string>, landArea: Option<real>, address: Option<string>): PropertyType
  {
    var fromListing := if Truthy(listedType) then ListedTypeClass(Lower(listedType.value)) else None;
    var fromAddress := if Truthy(address) then AddressClass(address.value) else None;
    if fromListing.Some? then fromListing.value
    else if fromAddress.Some? then fromAddress.value
    else if TruthyNum(landArea) && landArea.value > 2000.0 then Acreage
    else if TruthyNum(landArea) && landArea.value < 150.0 then Unit
    else if Truthy(listedType) && Contains(Lower(listedType.value), "house") then House
    else if TruthyNum(landArea) && landArea.value > 200.0 then House
    else Unknown
  }

  /**
   * The listed type wins, townhouse words before unit words; without a
   * verdict from the listing or the address, more than 2000 sqm is acreage
   * and a non-zero area under 150 sqm a unit; "Unknown" only when no land
   * area over 200 sqm is known, and never for a listed type mentioning a
   * house.
   */
  lemma PropertyTypeRules(listedType: Option<string>, landArea: Option<real>, address: Option<string>)
    ensures Truthy(listedType) && Contains(Lower(listedType.value), "townhouse") ==>
      ClassifyPropertyType(listedType, landArea, address) == Townhouse
    ensures Truthy(listedType) && !ContainsAny(Lower(listedType.value), TownhouseWords) && Contains(Lower(listedType.value), "unit") ==>
      ClassifyPropertyType(listedType, landArea, address) == Unit
    ensures (!Truthy(listedType) || ListedTypeClass(Lower(listedType.value)).None?) &&
            (!Truthy(address) || AddressClass(address.value).None?) && TruthyNum(landArea) ==>
      && (landArea.value > 2000.0 ==> ClassifyPropertyType(listedType, landArea, address) == Acreage)
      && (landArea.value < 150.0 ==> ClassifyPropertyType(listedType, landArea, address) == Unit)
    ensures ClassifyPropertyType(listedType, landArea, address) == Unknown ==>
      && !(TruthyNum(landArea) && landArea.value > 200.0)
      && !(Truthy(listedType) && Contains(Lower(listedType.value), "house"))
  {
    if Truthy(listedType) && Contains(Lower(listedType.value), "townhouse") {
      assert TownhouseWords[0] == "townhouse";
    }
    if Truthy(listedType) && !ContainsAny(Lower(listedType.value), TownhouseWords) && Contains(Lower(listedType.value), "unit") {
      assert UnitWords[0] == "unit";
    }
  }

  // ---------------------------------------------------------------------
  // Finish quality.
  // ---------------------------------------------------------------------

  /** The tiers, in the ascending order the blend averages over. */
  datatype Tier = Basic | Standard | Premium | Luxury

  function TierIndex(t: Tier): (i: nat)
    ensures i <= 3
  {
    match t
    case Basic => 0
    case Standard => 1
    case Premium => 2
    case Luxury => 3
  }

  function TierAt(i: nat): (t: Tier)
    requires i <= 3
    ensures TierIndex(t) == i
  {
    if i == 0 then Basic else if i == 1 then Standard else if i == 2 then Premium else Luxury
  }

  /** The keyword lists, in the order their tiers are scored (and ties broken). */
  const QualityKeywords: seq<(Tier, seq<string>)> := [
    (Luxury, ["luxury", "luxurious", "prestige", "prestigious", "architect-designed", "bespoke", "premium",
              "high-end", "world-class", "state-of-the-art", "opulent", "grand", "masterpiece", "exceptional",
              "resort-style", "marble", "imported", "custom-built", "trophy home", "designer"]),
    (Premium, ["executive", "quality", "beautiful", "stunning", "sophisticated", "elegant", "immaculate",
               "pristine", "meticulously", "exquisite", "refined", "substantial", "impressive", "generous",
               "entertainer"]),
    (Standard, ["comfortable", "well-maintained", "neat", "tidy", "practical", "functional", "convenient",
                "family", "solid", "established"]),
    (Basic, ["original", "unrenovated", "renovator", "handyman", "potential", "deceased estate", "as-is",
             "requires work", "project", "opportunity", "investor", "dated", "retro", "needs updating",
             "blank canvas"])
  ]

  /** How many of the keywords occur in the text. */
  function CountIn(kws: seq<string>, text: string): (n: nat)
    ensures n <= |kws|
    ensures n == 0 <==> !ContainsAny(text, kws)
  {
    if kws == [] then 0
    else
      var n0 := CountIn(kws[..|kws| - 1], text);
      assert forall k | k in kws[..|kws| - 1] :: k in kws;
      assert forall k | k in kws :: k in kws[..|kws| - 1] || k == kws[|kws| - 1];
      n0 + (if Contains(text, kws[|kws| - 1]) then 1 else 0)
  }

  /** The keyword count of each tier of the table, in the table's order. */
  function ScoresOf(table: seq<(Tier, seq<string>)>, text: string): (r: seq<nat>)
    ensures |r| == |table|
    ensures forall i | 0 <= i < |table| :: r[i] == CountIn(table[i].1, text)
  {
    if table == [] then [] else ScoresOf(table[..|table| - 1], text) + [CountIn(table[|table| - 1].1, text)]
  }

  /** The keyword scoring loop of classify_finish_quality. */
  method ScoreKeywords(table: seq<(Tier, seq<string>)>, text: string) returns (scores: seq<nat>)
    ensures scores == ScoresOf(table, text)
  {
    scores := [];
    var t := 0;
    while t < |table|
      invariant 0 <= t <= |table|
      invariant scores == ScoresOf(table[..t], text)
    {
      var kws := table[t].1;
      var n := 0;
      var k := 0;
      while k < |kws|
        invariant 0 <= k <= |kws|
        invariant n == CountIn(kws[..k], text)
      {
        assert kws[..k + 1][..k] == kws[..k];
        if Contains(text, kws[k]) {
          n := n + 1;
        }
        k := k + 1;
      }
      assert kws[..k] == kws;
      assert table[..t + 1][..t] == table[..t];
      scores := scores + [n];
      t := t + 1;
    }
    assert table[..t] == table;
  }

  /** Python max over the score dict: the first index with the largest score. */
  function FirstMax(scores: seq<nat>): (i: nat)
    requires scores != []
    ensures i < |scores|
    ensures forall j | 0 <= j < |scores| :: scores[j] <= scores[i]
    ensures forall j | 0 <= j < i :: scores[j] < scores[i]
  {
    if |scores| == 1 then 0
    else
      var j := FirstMax(scores[..|scores| - 1]);
      if scores[|scores| - 1] > scores[j] then |scores| - 1 else j
  }

  /** The tier the sale price per sqm of building suggests, when the building is over 50 sqm. */
  function PriceQuality(soldPrice: Option<real>, buildingArea: Option<real>): (r: Option<Tier>)
    ensures r.Some? <==> TruthyNum(soldPrice) && buildingArea.Some? && buildingArea.value > 50.0
    ensures r.Some? ==> var psm := soldPrice.value / buildingArea.value;
      && (r.value == Luxury <==> psm >= 8000.0)
      && (r.value == Premium <==> 5500.0 <= psm < 8000.0)
      && (r.value == Standard <==> 3500.0 <= psm < 5500.0)
      && (r.value == Basic <==> psm < 3500.0)
  {
    if TruthyNum(soldPrice) && TruthyNum(buildingArea) && buildingArea.value > 50.0 then
      var psm := soldPrice.value / buildingArea.value;
      Some(if psm >= 8000.0 then Luxury else if psm >= 5500.0 then Premium else if psm >= 3500.0 then Standard else Basic)
    else None
  }

  /** The blend: the rounded (half to even) average of two tier indices. */
  function Blend(a: Tier, b: Tier): (t: Tier)
    ensures TierIndex(a) <= TierIndex(b) ==> TierIndex(a) <= TierIndex(t) <= TierIndex(b)
    ensures TierIndex(b) <= TierIndex(a) ==> TierIndex(b) <= TierIndex(t) <= TierIndex(a)
    ensures a == b ==> t == a
  {
    var avg := RoundHalfEven((TierIndex(a) + TierIndex(b)) as real / 2.0);
    if 0 <= avg <= 3 then TierAt(avg) else assert false; a
  }

  /** The decision of classify_finish_quality, from the scores in table order and the price tier. */
  function DecideQuality(scores: seq<nat>, priceQuality: Option<Tier>): Tier
    requires |scores| == |QualityKeywords|
  {
    var i := FirstMax(scores);
    var kwTier := QualityKeywords[i].0;
    if scores[i] >= 3 then kwTier
    else if scores[i] >= 1 && priceQuality.Some? then Blend(kwTier, priceQuality.value)
    else if priceQuality.Some? then priceQuality.value
    else if scores[i] >= 1 then kwTier
    else Standard
  }

  /** Python max over the score dict picks `i`: a largest score, and the first of them in table order. */
  predicate IsFirstMax(scores: seq<nat>, i: int)
  {
    && 0 <= i < |scores|
    && (forall j | 0 <= j < |scores| :: scores[j] <= scores[i])
    && (forall j | 0 <= j < i :: scores[j] < scores[i])
  }

  /**
   * With `i` the top-scoring tier (the first in table order on a tie):
   * three hits decide; one or two hits with a price tier give the rounded
   * (half to even) average of the two tier indices, and without one the
   * hit tier; no hit gives the price tier, and with neither the default is
   * Standard.
   */
  lemma QualityRules(scores: seq<nat>, priceQuality: Option<Tier>, i: int)
    requires |scores| == |QualityKeywords| && IsFirstMax(scores, i)
    ensures var d := DecideQuality(scores, priceQuality);
      var kw := QualityKeywords[i].0;
      && (scores[i] >= 3 ==> d == kw)
      && (1 <= scores[i] < 3 && priceQuality.Some? ==>
            TierIndex(d) as int == RoundHalfEven((TierIndex(kw) + TierIndex(priceQuality.value)) as real / 2.0))
      && (1 <= scores[i] < 3 && priceQuality.None? ==> d == kw)
      && (scores[i] == 0 ==> d == (if priceQuality.Some? then priceQuality.value else Standard))
  {
    assert i == FirstMax(scores);
  }

  /** One or two hits with a price tier land between the hit tier and the price tier. */
  lemma QualityBlendBetween(scores: seq<nat>, priceQuality: Tier, i: int)
    requires |scores| == |QualityKeywords| && IsFirstMax(scores, i) && 1 <= scores[i] < 3
    ensures var d := TierIndex(DecideQuality(scores, Some(priceQuality)));
      var k := TierIndex(QualityKeywords[i].0);
      var p := TierIndex(priceQuality);
      (k <= d <= p) || (p <= d <= k)
  {
    QualityRules(scores, Some(priceQuality), i);
  }

  /** The decision without a description: the price tier, else Standard. */
  function PriceOnlyQuality(soldPrice: Option<real>, buildingArea: Option<real>): (t: Tier)
    ensures t == DecideQuality([0, 0, 0, 0], PriceQuality(soldPrice, buildingArea))
  {
    QualityRules([0, 0, 0, 0], PriceQuality(soldPrice, buildingArea), 0);
    var pq := PriceQuality(soldPrice, buildingArea);
    if pq.Some? then pq.value else Standard
  }

  /** classify_finish_quality: keywords are matched against the lower-cased description, when there is one. */
  method ClassifyFinishQuality(description: Option<string>, soldPrice: Option<real>, buildingArea: Option<real>)
    returns (t: Tier)
    ensures t == DecideQuality(if Truthy(description) then ScoresOf(QualityKeywords, Lower(description.value))
                               else [0, 0, 0, 0], PriceQuality(soldPrice, buildingArea))
  {
    var scores: seq<nat> := [0, 0, 0, 0];
    if Truthy(description) {
      scores := ScoreKeywords(QualityKeywords, Lower(description.value));
    }
    t := DecideQuality(scores, PriceQuality(soldPrice, buildingArea));
  }

  // ---------------------------------------------------------------------
  // Depreciation by age.
  // ---------------------------------------------------------------------

  /** `re.search(r"\d{4}", s)`: the value of the leftmost run of four digits. */
  function FirstYear(s: string): (r: Option<nat>)
    ensures r.Some? ==> r.value <= 9999
    ensures |s| < 4 ==> r.None?
  {
    if |s| < 4 then None
    else if YearAt(s, 0) then Some(WindowValue(s, 0))
    else FirstYear(s[1..])
  }

  /** Four digits start at position k of s. */
  predicate YearAt(s: string, k: int)
  {
    0 <= k && k + 4 <= |s| && IsDigit(s[k]) && IsDigit(s[k + 1]) && IsDigit(s[k + 2]) && IsDigit(s[k + 3])
  }

  /** The four digits at position k read as a number. */
  function WindowValue(s: string, k: nat): nat
    requires YearAt(s, k)
  {
    DigitValue(s[k]) * 1000 + DigitValue(s[k + 1]) * 100 + DigitValue(s[k + 2]) * 10 + DigitValue(s[k + 3])
  }

  /** The search finds nothing exactly when no four digits stand together, and otherwise reads the leftmost four. */
  lemma {:induction false} FirstYearSpec(s: string)
    ensures FirstYear(s).None? <==> forall k | 0 <= k <= |s| - 4 :: !YearAt(s, k)
    ensures FirstYear(s).Some? ==>
      exists k | 0 <= k <= |s| - 4 :: YearAt(s, k) && FirstYear(s).value == WindowValue(s, k) &&
        forall j | 0 <= j < k :: !YearAt(s, j)
  {
    if |s| >= 4 && !YearAt(s, 0) {
      FirstYearSpec(s[1..]);
      forall k | 1 <= k <= |s| - 4
        ensures YearAt(s, k) == YearAt(s[1..], k - 1)
      {
      }
      if FirstYear(s).Some? {
        var k :| 0 <= k <= |s[1..]| - 4 && YearAt(s[1..], k) && FirstYear(s[1..]).value == WindowValue(s[1..], k) &&
          forall j | 0 <= j < k :: !YearAt(s[1..], j);
        assert WindowValue(s, k + 1) == WindowValue(s[1..], k);
        assert YearAt(s, k + 1);
      }
    }
  }

  /** The factor for a building of the given year, its age counted from 2026. */
  function AgeFactor(year: int): (f: real)
    ensures 0.3 <= f <= 1.0
  {
    var age := 2026 - year;
    if age <= 5 then 1.0 else if age <= 15 then 0.9 else if age <= 30 then 0.7 else if age <= 50 then 0.5 else 0.3
  }

  /** Newer buildings retain more value: a later year never gets a smaller factor. */
  lemma AgeFactorMonotone(older: int, newer: int)
    requires older <= newer
    ensures AgeFactor(older) <= AgeFactor(newer)
  {
  }

  const EraFactors: seq<(string, real)> := [
    ("Post-2010", 0.95), ("1990-2010", 0.75), ("1970-1990", 0.55),
    ("1950-1970", 0.40), ("1920-1950", 0.30), ("Pre-1920", 0.25)
  ]

  function LookupEra(table: seq<(string, real)>, era: string): (r: Option<real>)
    ensures r.Some? ==> exists i | 0 <= i < |table| :: table[i] == (era, r.value)
    ensures r.None? ==> forall i | 0 <= i < |table| :: table[i].0 != era
  {
    if table == [] then None
    else if table[0].0 == era then Some(table[0].1)
    else
      var r := LookupEra(table[1..], era);
      assert forall i | 1 <= i < |table| :: table[i] == table[1..][i - 1];
      r
  }

  /**
   * get_era_depreciation_factor as written: a four-digit run is read as a
   * year before the era table is consulted.
   */
  function DepreciationFactorAsWritten(yearOrEra: Option<string>): real
  {
    if !Truthy(yearOrEra) then 0.6
    else match FirstYear(yearOrEra.value)
      case Some(year) => AgeFactor(year)
      case None =>
        var era := LookupEra(EraFactors, yearOrEra.value);
        if era.Some? then era.value else 0.5
  }

  /**
   * Every era label holds a four-digit year, so the era table is never
   * consulted: the era "1970-1990", the label the era inference returns,
   * is read as a house built in 1970 and depreciated to 0.3, not to the
   * table's 0.55.
   */
  lemma EraTableUnreachable()
    ensures forall i | 0 <= i < |EraFactors| :: FirstYear(EraFactors[i].0).Some?
    ensures DepreciationFactorAsWritten(Some("1970-1990")) == 0.3
    ensures LookupEra(EraFactors, "1970-1990") == Some(0.55)
  {
    EraLabelsHaveYears();
    EraReadAsYear();
    EraTableEntry();
  }

  lemma EraReadAsYear()
    ensures DepreciationFactorAsWritten(Some("1970-1990")) == 0.3
  {
    assert FirstYear("1970-1990") == Some(1970);
  }

  lemma EraTableEntry()
    ensures LookupEra(EraFactors, "1970-1990") == Some(0.55)
  {
  }

  /** Each label of the era table holds a four-digit year somewhere in it. */
  lemma EraLabelsHaveYears()
    ensures forall i | 0 <= i < |EraFactors| :: FirstYear(EraFactors[i].0).Some?
  {
    forall i | 0 <= i < |EraFactors|
      ensures FirstYear(EraFactors[i].0).Some?
    {
      var era := EraFactors[i].0;
      if i == 0 {
        assert era == "Post-2010";
        YearWithin(era, 5);
      } else if i == 5 {
        assert era == "Pre-1920";
        YearWithin(era, 4);
      } else {
        assert era in {"1990-2010", "1970-1990", "1950-1970", "1920-1950"};
        YearWithin(era, 0);
      }
    }
  }

  /** Four digits at position k make some year readable. */
  lemma {:induction false} YearWithin(s: string, k: nat)
    requires k + 4 <= |s| && IsDigit(s[k]) && IsDigit(s[k + 1]) && IsDigit(s[k + 2]) && IsDigit(s[k + 3])
    ensures FirstYear(s).Some?
    decreases k
  {
    if k > 0 && !(IsDigit(s[0]) && IsDigit(s[1]) && IsDigit(s[2]) && IsDigit(s[3])) {
      YearWithin(s[1..], k - 1);
    }
  }

  /** The depreciation factor, with era labels looked up before years are read. */
  function DepreciationFactor(yearOrEra: Option<string>): (f: real)
    ensures 0.25 <= f <= 1.0
    ensures !Truthy(yearOrEra) ==> f == 0.6
    ensures Truthy(yearOrEra) && LookupEra(EraFactors, yearOrEra.value).Some? ==>
      f == LookupEra(EraFactors, yearOrEra.value).value
    ensures Truthy(yearOrEra) && LookupEra(EraFactors, yearOrEra.value).None? && FirstYear(yearOrEra.value).Some? ==>
      f == AgeFactor(FirstYear(yearOrEra.value).value)
    ensures Truthy(yearOrEra) && LookupEra(EraFactors, yearOrEra.value).None? && FirstYear(yearOrEra.value).None? ==>
      f == 0.5
  {
    if !Truthy(yearOrEra) then 0.6
    else
      var era := LookupEra(EraFactors, yearOrEra.value);
      if era.Some? then era.value
      else match FirstYear(yearOrEra.value)
        case Some(year) => AgeFactor(year)
        case None => 0.5
  }

  // ---------------------------------------------------------------------
  // Renovation status.
  // ---------------------------------------------------------------------

  datatype RenovationStatus = Renovated | Unrenovated | UnknownStatus

  const RenovatedWords: seq<string> := [
    "renovated", "updated", "refurbished", "restored", "extended", "modern extension", "new kitchen",
    "new bathroom", "recently upgraded", "transformed"
  ]
  const UnrenovatedWords: seq<string> := [
    "original", "unrenovated", "original condition", "as-is", "untouched", "retains", "period features intact",
    "genuine original"
  ]

  /** classify_renovation_status. */
  function ClassifyRenovationStatus(description: Option<string>): RenovationStatus
  {
    if !Truthy(description) then UnknownStatus
    else
      var d := Lower(description.value);
      var r := CountIn(RenovatedWords, d);
      var u := CountIn(UnrenovatedWords, d);
      if r > u then Renovated else if u > r then Unrenovated else UnknownStatus
  }

  /** The status is decided by a strict majority of keyword hits; a tie, or no description, is unknown. */
  lemma RenovationStatusIff(description: Option<string>)
    ensures var s := ClassifyRenovationStatus(description);
      && (s == Renovated <==>
            (Truthy(description) &&
             CountIn(RenovatedWords, Lower(description.value)) > CountIn(UnrenovatedWords, Lower(description.value))))
      && (s == Unrenovated <==>
            (Truthy(description) &&
             CountIn(UnrenovatedWords, Lower(description.value)) > CountIn(RenovatedWords, Lower(description.value))))
      && (s == UnknownStatus <==>
            (!Truthy(description) ||
             CountIn(RenovatedWords, Lower(description.value)) == CountIn(UnrenovatedWords, Lower(description.value))))
      && ((Truthy(description) && !ContainsAny(Lower(description.value), RenovatedWords) &&
           !ContainsAny(Lower(description.value), UnrenovatedWords)) ==> s == UnknownStatus)
  {
  }

  // ---------------------------------------------------------------------
  // Residual land value.
  // ---------------------------------------------------------------------

  /** Building cost per sqm of a quality tier; an unknown tier costs as Standard. */
  function ConstructionRate(quality: string): (r: real)
    ensures quality == "Luxury" ==> r == 5500.0
    ensures quality == "Premium" ==> r == 3800.0
    ensures quality == "Basic" ==> r == 2000.0
    ensures quality != "Luxury" && quality != "Premium" && quality != "Basic" ==> r == 2800.0
  {
    if quality == "Luxury" then 5500.0
    else if quality == "Premium" then 3800.0
    else if quality == "Basic" then 2000.0
    else 2800.0
  }

  /** estimate_improvement_value: depreciated replacement cost, 20% more when renovated, rounded. */
  function EstimateImprovementValue(buildingArea: Option<real>, quality: string, yearOrEra: Option<string>,
                                    isRenovated: bool): (r: Option<int>)
    ensures r.Some? <==> buildingArea.Some? && buildingArea.value >= 50.0
    ensures r.Some? ==> var cost := buildingArea.value * ConstructionRate(quality);
      cost * 0.25 - 0.5 <= r.value as real <= (if isRenovated then cost * 1.2 else cost) + 0.5
  {
    if !TruthyNum(buildingArea) || buildingArea.value < 50.0 then None
    else
      Some(DepreciatedValue(buildingArea.value, ConstructionRate(quality), DepreciationFactor(yearOrEra), isRenovated))
  }

  /**
   * The replacement cost depreciated by `f`, 20% more when renovated,
   * rounded: between a quarter of the cost and the cost (with the premium).
   */
  function DepreciatedValue(area: real, rate: real, f: real, isRenovated: bool): (r: int)
    requires area >= 50.0 && rate > 0.0 && 0.25 <= f <= 1.0
    ensures var cost := area * rate;
      cost * 0.25 - 0.5 <= r as real <= (if isRenovated then cost * 1.2 else cost) + 0.5
  {
    var cost := area * rate;
    assert cost > 0.0;
    assert cost * 0.25 <= cost * f by {
      assert cost * (f - 0.25) >= 0.0;
    }
    assert cost * f <= cost by {
      assert cost * (1.0 - f) >= 0.0;
    }
    var v := cost * f;
    RoundHalfEven(if isRenovated then v * 1.20 else v)
  }

  /**
   * The residual split of a sale: land is the price less the improvements,
   * but never under 30% of the price; improvements are cut back so that
   * land and improvements add up to the price.
   */
  function ResidualSplit(soldPrice: real, improvement: real): (r: (real, real))
    ensures r.0 >= soldPrice * 0.30
    ensures r.0 >= soldPrice - improvement
    ensures r.0 + r.1 == soldPrice
    ensures r.1 <= improvement
    ensures soldPrice - improvement >= soldPrice * 0.30 ==> r == (soldPrice - improvement, improvement)
    ensures soldPrice - improvement < soldPrice * 0.30 ==> r == (soldPrice * 0.30, soldPrice - soldPrice * 0.30)
  {
    var minLand := soldPrice * 0.30;
    var raw := soldPrice - improvement;
    var land := Max(raw, minLand);
    (land, if raw < minLand then soldPrice - land else improvement)
  }

  datatype LandValue = InsufficientData | Residual(landValue: int, improvementValue: int, landPctOfSale: real)

  /**
   * estimate_land_value.  A zero sale price with a known improvement value
   * divides by zero in the share of the sale, which is the error here.
   */
  function EstimateLandValue(soldPrice: real, buildingArea: Option<real>, quality: string, yearOrEra: Option<string>,
                             isRenovated: bool): (r: Result<LandValue>)
    ensures r.Err? <==> soldPrice == 0.0 && EstimateImprovementValue(buildingArea, quality, yearOrEra, isRenovated).Some?
    ensures r.Ok? && r.value.InsufficientData? <==> EstimateImprovementValue(buildingArea, quality, yearOrEra, isRenovated).None?
    ensures r.Ok? && r.value.Residual? ==>
      var split := ResidualSplit(soldPrice, EstimateImprovementValue(buildingArea, quality, yearOrEra, isRenovated).value as real);
      && r.value.landValue == RoundHalfEven(split.0)
      && r.value.improvementValue == RoundHalfEven(split.1)
  {
    match EstimateImprovementValue(buildingArea, quality, yearOrEra, isRenovated)
    case None => Ok(InsufficientData)
    case Some(imp) =>
      if soldPrice == 0.0 then Err("division by zero")
      else
        var (land, improvement) := ResidualSplit(soldPrice, imp as real);
        Ok(Residual(RoundHalfEven(land), RoundHalfEven(improvement), RoundHalfEven(land / soldPrice * 100.0 * 10.0) as real / 10.0))
  }
}
