/**
 * Market intelligence: adjusting a comparable sale to the subject site
 * (land size, property type, quality) and the adjusted-median purchase
 * price estimate with its search fallback and confidence.  The database
 * queries are parameters: the comparable lists each search returns.
 */
module Intel {
  import opened Wrappers
  import opened Numeric
  import opened Classifiers
  import opened Sorting

  /** A comparable sale as the market database stores it; the queries only return sales with a price. */
  datatype Comparable = Comparable(address: Option<string>, soldPrice: real, landArea: Option<real>,
                                   buildingArea: Option<real>, propertyType: Option<string>,
                                   finishQuality: Option<string>)

  // ---------------------------------------------------------------------
  // One comparable.
  // ---------------------------------------------------------------------

  function TypeName(t: PropertyType): string
  {
    match t
    case House => "House"
    case Townhouse => "Townhouse"
    case Acreage => "Acreage"
    case Unit => "Unit"
    case VacantLand => "Vacant Land"
    case Unknown => "Unknown"
  }

  function TierName(t: Tier): string
  {
    match t
    case Basic => "Basic"
    case Standard => "Standard"
    case Premium => "Premium"
    case Luxury => "Luxury"
  }

  /** The price multiplier of a (comparable type, subject type) pair; a pair the table lacks is 1. */
  function TypeFactor(compType: string, subjectType: string): real
  {
    if compType == "House" then
      (if subjectType == "Townhouse" then 0.85 else if subjectType == "Acreage" then 1.15 else 1.0)
    else if compType == "Townhouse" then
      (if subjectType == "House" then 1.15 else 1.0)
    else if compType == "Acreage" then
      (if subjectType == "House" then 0.90 else 1.0)
    else 1.0
  }

  /** The tier number of a quality name; an unknown name counts as Standard. */
  function QualityValue(q: string): (v: int)
    ensures 0 <= v <= 3
    ensures q !in ["Basic", "Standard", "Premium", "Luxury"] ==> v == 1
  {
    if q == "Basic" then 0 else if q == "Premium" then 2 else if q == "Luxury" then 3 else 1
  }

  /** The comparable's stored quality, or the one its price per sqm suggests (there is no description). */
  function CompQuality(comp: Comparable): string
  {
    if Truthy(comp.finishQuality) then comp.finishQuality.value
    else TierName(PriceOnlyQuality(Some(comp.soldPrice), comp.buildingArea))
  }

  function CompType(comp: Comparable): PropertyType
  {
    ClassifyPropertyType(comp.propertyType, comp.landArea, comp.address)
  }

  /** The land-size factor before the 2% test: the area ratio clamped to [0.7, 1.3]. */
  function LandFactor(subjectLand: real, compLand: real): (f: real)
    requires compLand > 0.0
    ensures 0.7 <= f <= 1.3
    ensures var ratio := subjectLand / compLand;
      && (0.7 <= ratio <= 1.3 ==> f == ratio)
      && (ratio < 0.7 ==> f == 0.7)
      && (ratio > 1.3 ==> f == 1.3)
  {
    Max(0.7, Min(1.3, subjectLand / compLand))
  }

  datatype AdjustmentKind = LandSize | PropertyTypeKind | Quality
  datatype Adjustment = Adjustment(kind: AdjustmentKind, factor: real)

  /** The land-size adjustment: the area ratio clamped to [0.7, 1.3], kept only when it moves the price more than 2%. */
  function LandAdjustment(compLand: Option<real>, subjectLand: real): seq<Adjustment>
  {
    if TruthyNum(compLand) && compLand.value > 0.0 then
      var adj := LandFactor(subjectLand, compLand.value);
      if adj - 1.0 > 0.02 || 1.0 - adj > 0.02 then [Adjustment(LandSize, adj)] else []
    else []
  }

  /** The property-type adjustment of a (comparable type, subject type) pair. */
  function TypeAdjustment(compType: string, subjectType: string): seq<Adjustment>
  {
    var adj := TypeFactor(compType, subjectType);
    if adj != 1.0 then [Adjustment(PropertyTypeKind, adj)] else []
  }

  /** The quality adjustment: 10% a tier of difference. */
  function QualityAdjustment(compQuality: string, subjectQuality: string): seq<Adjustment>
  {
    var diff := QualityValue(subjectQuality) - QualityValue(compQuality);
    if diff != 0 then [Adjustment(Quality, 1.0 + diff as real * 0.10)] else []
  }

  /** The adjustments, in order: land size, property type, quality. */
  function AdjustmentsFor(compLand: Option<real>, subjectLand: real, compType: string, subjectType: string,
                          compQuality: string, subjectQuality: string): seq<Adjustment>
  {
    LandAdjustment(compLand, subjectLand) + TypeAdjustment(compType, subjectType) +
      QualityAdjustment(compQuality, subjectQuality)
  }

  /** The adjustments applied to a comparable, its type and quality classified first. */
  function Adjustments(comp: Comparable, subjectLand: real, subjectType: string, subjectQuality: string): seq<Adjustment>
  {
    AdjustmentsFor(comp.landArea, subjectLand, TypeName(CompType(comp)), subjectType, CompQuality(comp), subjectQuality)
  }

  function Product(adjs: seq<Adjustment>): real
  {
    if adjs == [] then 1.0 else Product(adjs[..|adjs| - 1]) * adjs[|adjs| - 1].factor
  }

  lemma ProductSnoc(s: seq<Adjustment>, a: Adjustment, m: real)
    requires m == Product(s)
    ensures Product(s + [a]) == m * a.factor
  {
    assert (s + [a])[..|s|] == s;
  }

  /** A land factor lies in [0.7, 1.3] and is recorded only when it moves the price by more than 2%. */
  lemma LandAdjustmentRule(compLand: Option<real>, subjectLand: real)
    ensures |LandAdjustment(compLand, subjectLand)| <= 1
    ensures forall a | a in LandAdjustment(compLand, subjectLand) ::
      a.kind == LandSize && 0.7 <= a.factor <= 1.3 && (a.factor > 1.02 || a.factor < 0.98)
    ensures TruthyNum(compLand) && compLand.value > 0.0 &&
            (subjectLand / compLand.value > 1.02 || subjectLand / compLand.value < 0.98) ==>
      LandAdjustment(compLand, subjectLand) == [Adjustment(LandSize, LandFactor(subjectLand, compLand.value))]
    ensures !(TruthyNum(compLand) && compLand.value > 0.0) ==> LandAdjustment(compLand, subjectLand) == []
  {
  }

  /**
   * Only a house, townhouse or acreage comparable, against a subject of
   * another of those types, is adjusted: a house comparable is worth 15%
   * less as a townhouse and 15% more as acreage, a townhouse comparable
   * 15% more as a house, an acreage comparable 10% less as a house; every
   * other pair, the same type included, records nothing.
   */
  lemma TypeAdjustmentRule(compType: string, subjectType: string)
    ensures TypeAdjustment(compType, subjectType) != [] <==>
      (compType, subjectType) in {("House", "Townhouse"), ("House", "Acreage"), ("Townhouse", "House"), ("Acreage", "House")}
    ensures TypeAdjustment("House", "Townhouse") == [Adjustment(PropertyTypeKind, 0.85)]
    ensures TypeAdjustment("House", "Acreage") == [Adjustment(PropertyTypeKind, 1.15)]
    ensures TypeAdjustment("Townhouse", "House") == [Adjustment(PropertyTypeKind, 1.15)]
    ensures TypeAdjustment("Acreage", "House") == [Adjustment(PropertyTypeKind, 0.90)]
    ensures compType == subjectType ==> TypeAdjustment(compType, subjectType) == []
  {
  }

  /** Equal quality tiers record nothing; otherwise each tier of difference is 10%. */
  lemma QualityAdjustmentRule(compQuality: string, subjectQuality: string)
    ensures QualityValue(subjectQuality) == QualityValue(compQuality) <==> QualityAdjustment(compQuality, subjectQuality) == []
    ensures forall a | a in QualityAdjustment(compQuality, subjectQuality) ::
      && a.kind == Quality
      && a.factor == 1.0 + (QualityValue(subjectQuality) - QualityValue(compQuality)) as real * 0.10
      && 0.7 <= a.factor <= 1.3 && a.factor != 1.0
  {
  }

  datatype AdjustedPrice = AdjustedPrice(originalPrice: real, adjustedPrice: int, multiplier: real,
                                         adjustments: seq<Adjustment>)

  /** `adjustments.append(a); multiplier *= a.factor`, keeping the multiplier the product of the adjustments. */
  method Apply(adjustments: seq<Adjustment>, multiplier: real, a: Adjustment)
    returns (adjustments': seq<Adjustment>, multiplier': real)
    requires multiplier == Product(adjustments)
    ensures adjustments' == adjustments + [a]
    ensures multiplier' == Product(adjustments')
  {
    ProductSnoc(adjustments, a, multiplier);
    adjustments' := adjustments + [a];
    multiplier' := multiplier * a.factor;
  }

  /** The land-size step of calculate_adjusted_price. */
  method AdjustForLand(adjustments: seq<Adjustment>, multiplier: real, compLand: Option<real>, subjectLand: real)
    returns (adjustments': seq<Adjustment>, multiplier': real)
    requires multiplier == Product(adjustments)
    ensures adjustments' == adjustments + LandAdjustment(compLand, subjectLand)
    ensures multiplier' == Product(adjustments')
  {
    adjustments', multiplier' := adjustments, multiplier;
    if TruthyNum(compLand) && compLand.value > 0.0 {
      var landAdj := LandFactor(subjectLand, compLand.value);
      if landAdj - 1.0 > 0.02 || 1.0 - landAdj > 0.02 {
        adjustments', multiplier' := Apply(adjustments, multiplier, Adjustment(LandSize, landAdj));
      }
    }
  }

  /** The property-type step of calculate_adjusted_price. */
  method AdjustForType(adjustments: seq<Adjustment>, multiplier: real, compType: string, subjectType: string)
    returns (adjustments': seq<Adjustment>, multiplier': real)
    requires multiplier == Product(adjustments)
    ensures adjustments' == adjustments + TypeAdjustment(compType, subjectType)
    ensures multiplier' == Product(adjustments')
  {
    adjustments', multiplier' := adjustments, multiplier;
    var typeAdj := TypeFactor(compType, subjectType);
    if typeAdj != 1.0 {
      adjustments', multiplier' := Apply(adjustments, multiplier, Adjustment(PropertyTypeKind, typeAdj));
    }
  }

  /** The quality step of calculate_adjusted_price. */
  method AdjustForQuality(adjustments: seq<Adjustment>, multiplier: real, compQuality: string, subjectQuality: string)
    returns (adjustments': seq<Adjustment>, multiplier': real)
    requires multiplier == Product(adjustments)
    ensures adjustments' == adjustments + QualityAdjustment(compQuality, subjectQuality)
    ensures multiplier' == Product(adjustments')
  {
    adjustments', multiplier' := adjustments, multiplier;
    var diff := QualityValue(subjectQuality) - QualityValue(compQuality);
    if diff != 0 {
      adjustments', multiplier' := Apply(adjustments, multiplier, Adjustment(Quality, 1.0 + diff as real * 0.10));
    }
  }

  /** The price of a comparable under a multiplier, rounded to whole dollars (half to even). */
  function AdjustedValue(soldPrice: real, multiplier: real): int
  {
    RoundHalfEven(soldPrice * multiplier)
  }

  /** The body of calculate_adjusted_price once the comparable's type and quality are known. */
  method AdjustPrice(soldPrice: real, compLand: Option<real>, subjectLand: real, compType: string, subjectType: string,
                     compQuality: string, subjectQuality: string) returns (r: AdjustedPrice)
    ensures r.adjustments == AdjustmentsFor(compLand, subjectLand, compType, subjectType, compQuality, subjectQuality)
    ensures r.multiplier == Product(r.adjustments)
    ensures r.originalPrice == soldPrice
    ensures r.adjustedPrice == AdjustedValue(soldPrice, r.multiplier)
  {
    var adjustments: seq<Adjustment> := [];
    var multiplier := 1.0;
    adjustments, multiplier := AdjustForLand(adjustments, multiplier, compLand, subjectLand);
    adjustments, multiplier := AdjustForType(adjustments, multiplier, compType, subjectType);
    adjustments, multiplier := AdjustForQuality(adjustments, multiplier, compQuality, subjectQuality);
    r := AdjustedPrice(soldPrice, AdjustedValue(soldPrice, multiplier), multiplier, adjustments);
  }

  /** calculate_adjusted_price: the comparable's type and quality are classified, then the multiplier built up. */
  method CalculateAdjustedPrice(comp: Comparable, subjectLand: real, subjectType: string, subjectQuality: string)
    returns (r: AdjustedPrice)
    ensures r.adjustments == Adjustments(comp, subjectLand, subjectType, subjectQuality)
    ensures r.multiplier == Product(r.adjustments)
    ensures r.originalPrice == comp.soldPrice
    ensures r.adjustedPrice == AdjustedValue(comp.soldPrice, r.multiplier)
  {
    r := AdjustPrice(comp.soldPrice, comp.landArea, subjectLand, TypeName(CompType(comp)), subjectType,
                     CompQuality(comp), subjectQuality);
  }

  // ---------------------------------------------------------------------
  // The purchase price estimate.
  // ---------------------------------------------------------------------

  datatype SearchMethod = LandSizeMatched | PropertyTypeOnly | SuburbOnly | NoData

  /**
   * The search fallback: comparables within 30% of the land area, else of
   * the property type, else anywhere in the suburb.
   */
  function SelectComps(landMatched: seq<Comparable>, typeOnly: seq<Comparable>, suburbOnly: seq<Comparable>)
    : (r: (seq<Comparable>, SearchMethod))
    ensures r.1 == LandSizeMatched <==> landMatched != []
    ensures r.1 == PropertyTypeOnly <==> landMatched == [] && typeOnly != []
    ensures r.1 == SuburbOnly <==> landMatched == [] && typeOnly == [] && suburbOnly != []
    ensures r.1 == NoData <==> r.0 == []
    ensures r.0 == [] || r.0 == landMatched || r.0 == typeOnly || r.0 == suburbOnly
  {
    if landMatched != [] then (landMatched, LandSizeMatched)
    else if typeOnly != [] then (typeOnly, PropertyTypeOnly)
    else if suburbOnly != [] then (suburbOnly, SuburbOnly)
    else ([], NoData)
  }

  datatype Confidence = High | Medium | Low | NoConfidence

  function ConfidenceOf(m: SearchMethod, n: nat): (c: Confidence)
    ensures c == High <==> m == LandSizeMatched && n >= 8
    ensures c == Medium <==> (m == LandSizeMatched && 4 <= n < 8) || (m != LandSizeMatched && n >= 10)
    ensures c != NoConfidence
  {
    if m == LandSizeMatched && n >= 8 then High
    else if m == LandSizeMatched && n >= 4 then Medium
    else if n >= 10 then Medium
    else Low
  }

  function IntKey(x: int): real { x as real }

  lemma IntKeyOrder(x: int, y: int)
    requires IntKey(x) <= IntKey(y)
    ensures x <= y
  {
  }
  function RealKey(x: real): real { x }

  /** The adjusted price of each comparable, in order. */
  function AdjustedPrices(comps: seq<Comparable>, subjectLand: real, subjectType: string, subjectQuality: string)
    : (r: seq<int>)
    ensures |r| == |comps|
  {
    if comps == [] then []
    else
      var c := comps[|comps| - 1];
      AdjustedPrices(comps[..|comps| - 1], subjectLand, subjectType, subjectQuality) +
        [AdjustedValue(c.soldPrice, Product(Adjustments(c, subjectLand, subjectType, subjectQuality)))]
  }

  function SoldPrices(comps: seq<Comparable>): (r: seq<real>)
    ensures |r| == |comps|
  {
    if comps == [] then [] else SoldPrices(comps[..|comps| - 1]) + [comps[|comps| - 1].soldPrice]
  }

  datatype PriceRange = PriceRange(min: int, p25: int, median: int, p75: int, max: int)

  /** The range of ascending prices: p25 and p75 fall back to the ends when there are fewer than 4. */
  function RangeOf(sorted: seq<int>): PriceRange
    requires sorted != []
  {
    var n := |sorted|;
    PriceRange(sorted[0], if n >= 4 then sorted[n / 4] else sorted[0], sorted[n / 2],
               if n >= 4 then sorted[(3 * n) / 4] else sorted[n - 1], sorted[n - 1])
  }

  datatype PriceEstimate =
    | NoEstimate
    | Estimate(estimate: int, estimateRaw: real, confidence: Confidence, compsCount: nat, searchMethod: SearchMethod,
               range: PriceRange)

  lemma AdjustedPricesStep(comps: seq<Comparable>, i: nat, subjectLand: real, subjectType: string, subjectQuality: string)
    requires i < |comps|
    ensures AdjustedPrices(comps[..i + 1], subjectLand, subjectType, subjectQuality) ==
      AdjustedPrices(comps[..i], subjectLand, subjectType, subjectQuality) +
      [AdjustedValue(comps[i].soldPrice, Product(Adjustments(comps[i], subjectLand, subjectType, subjectQuality)))]
  {
    assert comps[..i + 1][..i] == comps[..i];
  }

  /** The adjusted-price loop of estimate_purchase_price_advanced. */
  method AdjustAll(comps: seq<Comparable>, subjectLand: real, subjectType: string, subjectQuality: string)
    returns (prices: seq<int>)
    ensures prices == AdjustedPrices(comps, subjectLand, subjectType, subjectQuality)
  {
    prices := [];
    var i := 0;
    while i < |comps|
      invariant 0 <= i <= |comps|
      invariant prices == AdjustedPrices(comps[..i], subjectLand, subjectType, subjectQuality)
    {
      var adj := CalculateAdjustedPrice(comps[i], subjectLand, subjectType, subjectQuality);
      AdjustedPricesStep(comps, i, subjectLand, subjectType, subjectQuality);
      prices := prices + [adj.adjustedPrice];
      i := i + 1;
    }
    assert comps[..i] == comps;
  }

  /**
   * estimate_purchase_price_advanced: no estimate when every search comes
   * back empty; otherwise the element at n // 2 of the ascending adjusted
   * prices, the same of the raw prices, the confidence of the search and
   * its size, and the price range.
   */
  method EstimatePurchasePriceAdvanced(landMatched: seq<Comparable>, typeOnly: seq<Comparable>,
                                       suburbOnly: seq<Comparable>, subjectLand: real, subjectType: string,
                                       subjectQuality: string) returns (e: PriceEstimate)
    ensures e.NoEstimate? <==> landMatched == [] && typeOnly == [] && suburbOnly == []
    ensures e.Estimate? ==>
      var (comps, m) := SelectComps(landMatched, typeOnly, suburbOnly);
      var sorted := SortBy(AdjustedPrices(comps, subjectLand, subjectType, subjectQuality), IntKey);
      && e.compsCount == |comps| && e.searchMethod == m
      && e.confidence == ConfidenceOf(m, |comps|)
      && |sorted| == |comps|
      && e.estimate == sorted[|comps| / 2]
      && e.estimateRaw == SortBy(SoldPrices(comps), RealKey)[|comps| / 2]
      && e.range == RangeOf(sorted)
  {
    var (comps, m) := SelectComps(landMatched, typeOnly, suburbOnly);
    if comps == [] {
      return NoEstimate;
    }
    var prices := AdjustAll(comps, subjectLand, subjectType, subjectQuality);
    var sorted := SortBy(prices, IntKey);
    var raw := SortBy(SoldPrices(comps), RealKey);
    e := Estimate(sorted[|sorted| / 2], raw[|raw| / 2], ConfidenceOf(m, |comps|), |comps|, m, RangeOf(sorted));
  }

  /** n // 4 <= n // 2 <= (3n) // 4 < n, the order of the quartile positions. */
  lemma QuartileIndices(n: nat)
    requires n >= 1
    ensures n / 4 <= n / 2 <= (3 * n) / 4 < n || n < 4
    ensures n / 2 < n
  {
    var q, h, t := n / 4, n / 2, (3 * n) / 4;
    assert 4 * q <= n < 4 * q + 4;
    assert 2 * h <= n < 2 * h + 2;
    assert 4 * t <= 3 * n < 4 * t + 4;
  }

  /** Ascending in the plain integer order. */
  lemma SortedInts(prices: seq<int>, s: seq<int>)
    requires s == SortBy(prices, IntKey)
    ensures forall i, j | 0 <= i <= j < |s| :: s[i] <= s[j]
  {
    SortBySorted(prices, IntKey);
    forall i, j | 0 <= i <= j < |s| ensures s[i] <= s[j] {
      if i < j {
        assert IntKey(s[i]) <= IntKey(s[j]);
        IntKeyOrder(s[i], s[j]);
      }
    }
  }

  /**
   * The estimate is an order statistic of the adjusted prices: every
   * adjusted price lies between the range's ends, and
   * min <= p25 <= median <= p75 <= max; with fewer than four prices the
   * quartiles fall back to the ends.
   */
  lemma RangeOrdered(prices: seq<int>)
    requires prices != []
    ensures var sorted := SortBy(prices, IntKey);
      var r := RangeOf(sorted);
      && r.min <= r.p25 <= r.median <= r.p75 <= r.max
      && (forall p | p in prices :: r.min <= p <= r.max)
      && r.median in prices
      && r.median == sorted[|prices| / 2]
      && (|prices| < 4 ==> r.p25 == r.min && r.p75 == r.max)
      && (|prices| >= 4 ==> r.p25 == sorted[|prices| / 4] && r.p75 == sorted[(3 * |prices|) / 4])
  {
    var sorted := SortBy(prices, IntKey);
    var n := |sorted|;
    SortedInts(prices, sorted);
    QuartileIndices(n);
    forall p | p in prices
      ensures sorted[0] <= p <= sorted[n - 1]
    {
      assert p in multiset(sorted);
      var j :| 0 <= j < n && sorted[j] == p;
      assert sorted[0] <= sorted[j] <= sorted[n - 1];
    }
    assert sorted[n / 2] in multiset(prices);
  }
}
