/**
 * Land-only LDRZ subdivision feasibility: Victorian progressive stamp duty,
 * the per-lot sale value and the cost, revenue and profit arithmetic.
 */
module LdrzStrategy {
  import opened Wrappers
  import opened Text
  import opened Numeric

  // ---------------------------------------------------------------------
  // Stamp duty.
  // ---------------------------------------------------------------------

  /** A duty bracket: its upper threshold (None for the unbounded top bracket) and its marginal rate. */
  datatype Bracket = Bracket(upper: Option<real>, rate: real)

  const StampDutyRates: seq<Bracket> := [
    Bracket(Some(25000.0), 0.014),
    Bracket(Some(130000.0), 0.024),
    Bracket(Some(960000.0), 0.05),
    Bracket(Some(2000000.0), 0.055),
    Bracket(None, 0.065)
  ]

  /** Thresholds rise strictly above `lower`, only the last bracket is unbounded, and rates are non-negative. */
  ghost predicate Ascending(lower: real, bs: seq<Bracket>)
    decreases bs
  {
    bs != [] ==>
      && bs[0].rate >= 0.0
      && (bs[0].upper.None? ==> |bs| == 1)
      && (bs[0].upper.Some? ==> bs[0].upper.value > lower && Ascending(bs[0].upper.value, bs[1..]))
  }

  /** The part of `price` that falls between `lower` and `upper`. */
  function Slice(price: real, lower: real, upper: Option<real>): (t: real)
    ensures t >= 0.0
    ensures upper.Some? && upper.value >= lower ==> t <= upper.value - lower
  {
    if price <= lower then 0.0
    else if upper.None? then price - lower
    else Max(0.0, Min(price, upper.value) - lower)
  }

  /** Each bracket's rate applied to its own slice of the price, summed over the brackets. */
  function DutyOver(price: real, lower: real, bs: seq<Bracket>): real
    decreases bs
  {
    if bs == [] then 0.0
    else
      var next := if bs[0].upper.Some? then bs[0].upper.value else lower;
      bs[0].rate * Slice(price, lower, bs[0].upper) + DutyOver(price, next, bs[1..])
  }

  function StampDuty(price: real): real
  {
    DutyOver(price, 0.0, StampDutyRates)
  }

  lemma StampDutyRatesAscending()
    ensures Ascending(0.0, StampDutyRates)
  {
    var b := StampDutyRates;
    assert b[1..][1..][1..][1..] == [Bracket(None, 0.065)];
  }

  /** No price at or below the lower bound owes anything in the brackets above it. */
  lemma {:induction false} DutyOverZero(price: real, lower: real, bs: seq<Bracket>)
    requires Ascending(lower, bs) && price <= lower
    ensures DutyOver(price, lower, bs) == 0.0
    decreases bs
  {
    if bs != [] {
      if bs[0].upper.Some? {
        DutyOverZero(price, bs[0].upper.value, bs[1..]);
      } else {
        assert bs[1..] == [];
      }
    }
  }

  /** A dearer purchase never owes less duty: each slice grows with the price and every rate is non-negative. */
  lemma {:induction false} DutyOverMonotone(p1: real, p2: real, lower: real, bs: seq<Bracket>)
    requires Ascending(lower, bs) && p1 <= p2
    ensures 0.0 <= DutyOver(p1, lower, bs) <= DutyOver(p2, lower, bs)
    decreases bs
  {
    if bs != [] {
      var next := if bs[0].upper.Some? then bs[0].upper.value else lower;
      if bs[0].upper.None? {
        assert bs[1..] == [];
      } else {
        DutyOverMonotone(p1, p2, next, bs[1..]);
      }
      SliceMonotone(p1, p2, lower, bs[0].upper);
      AddSliceMonotone(bs[0].rate, Slice(p1, lower, bs[0].upper), Slice(p2, lower, bs[0].upper),
        DutyOver(p1, next, bs[1..]), DutyOver(p2, next, bs[1..]));
    }
  }

  lemma AddSliceMonotone(r: real, s1: real, s2: real, d1: real, d2: real)
    requires r >= 0.0 && 0.0 <= s1 <= s2 && 0.0 <= d1 <= d2
    ensures 0.0 <= r * s1 + d1 <= r * s2 + d2
  {
    MulLe(r, s1, s2);
  }

  lemma SliceMonotone(p1: real, p2: real, lower: real, upper: Option<real>)
    requires p1 <= p2
    ensures Slice(p1, lower, upper) <= Slice(p2, lower, upper)
  {
  }

  lemma MulLe(r: real, a: real, b: real)
    requires r >= 0.0 && 0.0 <= a <= b
    ensures 0.0 <= r * a <= r * b
  {
  }

  /** Duty is zero at a zero price and never decreases as the price rises. */
  lemma StampDutyMonotone(p1: real, p2: real)
    requires p1 <= p2
    ensures StampDuty(0.0) == 0.0
    ensures 0.0 <= StampDuty(p1) <= StampDuty(p2)
  {
    StampDutyRatesAscending();
    DutyOverZero(0.0, 0.0, StampDutyRates);
    DutyOverMonotone(p1, p2, 0.0, StampDutyRates);
  }

  /** Inside the 5% bracket the duty is the two lower brackets in full plus 5% of the excess over 130,000. */
  lemma StampDutyMiddleBracket(price: real)
    requires 130000.0 < price <= 960000.0
    ensures StampDuty(price) == 350.0 + 2520.0 + 0.05 * (price - 130000.0)
  {
    var t0 := StampDutyRates;
    var t1 := t0[1..];
    var t2 := t1[1..];
    var t3 := t2[1..];
    var t4 := t3[1..];
    assert t4[1..] == [];
    assert DutyOver(price, 2000000.0, t4) == 0.0;
    assert DutyOver(price, 960000.0, t3) == 0.0;
    assert DutyOver(price, 130000.0, t2) == 0.05 * (price - 130000.0);
    assert DutyOver(price, 25000.0, t1) == 0.024 * 105000.0 + 0.05 * (price - 130000.0);
  }

  /** calculate_stamp_duty. */
  method CalculateStampDuty(purchasePrice: real) returns (duty: real)
    ensures duty == StampDuty(purchasePrice)
  {
    StampDutyRatesAscending();
    duty := DutyLoop(purchasePrice, StampDutyRates);
  }

  /**
   * The loop of calculate_stamp_duty over a bracket table: take each
   * bracket's slice from the remaining price until nothing remains.
   */
  method DutyLoop(purchasePrice: real, rates: seq<Bracket>) returns (duty: real)
    requires Ascending(0.0, rates)
    ensures duty == DutyOver(purchasePrice, 0.0, rates)
  {
    duty := 0.0;
    var remaining := purchasePrice;
    var prev := 0.0;
    var i := 0;
    while i < |rates|
      invariant 0 <= i <= |rates|
      invariant i < |rates| ==> Ascending(prev, rates[i..])
      invariant duty + DutyOver(purchasePrice, prev, rates[i..]) == DutyOver(purchasePrice, 0.0, rates)
      invariant i < |rates| ==> remaining == if purchasePrice > prev || i == 0 then purchasePrice - prev else 0.0
      invariant i == 0 ==> prev == 0.0
      invariant prev >= 0.0
    {
      if remaining <= 0.0 {
        DutyOverZero(purchasePrice, prev, rates[i..]);
        break;
      }
      var b := rates[i];
      var taxable := if b.upper.None? then remaining else Min(remaining, b.upper.value - prev);
      var next := if b.upper.Some? then b.upper.value else prev;
      DutyStep(purchasePrice, prev, rates[i..], remaining, taxable, next);
      assert rates[i..][1..] == rates[i + 1..];
      ghost var later := DutyOver(purchasePrice, next, rates[i + 1..]);
      assert DutyOver(purchasePrice, prev, rates[i..]) == taxable * b.rate + later;
      duty := duty + taxable * b.rate;
      remaining := remaining - taxable;
      prev := next;
      i := i + 1;
    }
    if i == |rates| {
      assert rates[i..] == [];
    }
  }

  /** One turn of the stamp-duty loop takes exactly the first bracket's slice. */
  lemma DutyStep(price: real, prev: real, bs: seq<Bracket>, remaining: real, taxable: real, next: real)
    requires bs != [] && Ascending(prev, bs) && prev >= 0.0
    requires remaining > 0.0 && remaining == price - prev
    requires taxable == if bs[0].upper.None? then remaining else Min(remaining, bs[0].upper.value - prev)
    requires next == if bs[0].upper.Some? then bs[0].upper.value else prev
    ensures taxable == Slice(price, prev, bs[0].upper)
    ensures DutyOver(price, prev, bs) == taxable * bs[0].rate + DutyOver(price, next, bs[1..])
    ensures bs[0].upper.Some? ==> next > 0.0 && Ascending(next, bs[1..])
    ensures bs[0].upper.Some? ==> remaining - taxable == if price > next then price - next else 0.0
    ensures bs[0].upper.None? ==> bs[1..] == []
  {
  }

  // ---------------------------------------------------------------------
  // Lot value.
  // ---------------------------------------------------------------------

  const SuburbRates: seq<(string, real)> := [
    ("donvale", 600.0), ("templestowe", 700.0), ("park orchards", 550.0), ("warrandyte", 500.0),
    ("wonga park", 450.0), ("eltham", 500.0), ("eltham north", 450.0), ("research", 400.0),
    ("chirnside park", 500.0), ("montrose", 400.0), ("mount evelyn", 350.0)
  ]

  function LookupRate(key: string, table: seq<(string, real)>): (r: Option<real>)
    ensures r.Some? ==> exists i | 0 <= i < |table| :: table[i] == (key, r.value)
    ensures r.None? ==> forall i | 0 <= i < |table| :: table[i].0 != key
  {
    if table == [] then None
    else if table[0].0 == key then Some(table[0].1)
    else LookupRate(key, table[1..])
  }

  /** The table key: the suburb lower-cased and stripped, or "" when it is missing or empty. */
  function SuburbKey(suburb: Option<string>): string
  {
    if suburb.Some? && suburb.value != "" then Strip(Lower(suburb.value)) else ""
  }

  /** The rate per sqm: the suburb's rate first, then the original rate marked up 25% when non-zero, else 500. */
  function LotRate(key: string, originalLandRate: Option<real>): real
  {
    var known := LookupRate(key, SuburbRates);
    if known.Some? then known.value
    else if originalLandRate.Some? && originalLandRate.value != 0.0 then originalLandRate.value * 1.25
    else 500.0
  }

  /** estimate_lot_value. */
  function EstimateLotValue(suburb: Option<string>, lotSizeSqm: real, originalLandRate: Option<real>): real
  {
    lotSizeSqm * LotRate(SuburbKey(suburb), originalLandRate)
  }

  /**
   * The suburb table takes precedence: for a listed suburb the rate is its
   * table rate whatever the original rate; otherwise a non-zero original
   * rate is marked up 25%, and without one the rate is 500 per sqm.
   */
  lemma LotRatePrecedence(key: string, originalLandRate: Option<real>)
    ensures forall i | 0 <= i < |SuburbRates| && SuburbRates[i].0 == key :: LotRate(key, originalLandRate) == SuburbRates[i].1
    ensures (forall i | 0 <= i < |SuburbRates| :: SuburbRates[i].0 != key) ==>
      LotRate(key, originalLandRate) ==
        if originalLandRate.Some? && originalLandRate.value != 0.0 then originalLandRate.value * 1.25 else 500.0
  {
    forall i | 0 <= i < |SuburbRates| && SuburbRates[i].0 == key
      ensures LotRate(key, originalLandRate) == SuburbRates[i].1
    {
      LookupFirst(key, SuburbRates, i);
    }
  }

  /** Looking up a key that sits at index i, with no earlier copy, finds the rate at i. */
  lemma {:induction false} LookupFirst(key: string, table: seq<(string, real)>, i: int)
    requires 0 <= i < |table| && table[i].0 == key
    requires forall j, k | 0 <= j < k < |table| :: table[j].0 != table[k].0
    ensures LookupRate(key, table) == Some(table[i].1)
    decreases i
  {
    if i > 0 {
      LookupFirst(key, table[1..], i - 1);
    }
  }

  // ---------------------------------------------------------------------
  // Feasibility.
  // ---------------------------------------------------------------------

  const Legals: real := 5000.0
  /** Town planner, surveyor, council fees, plan certification and titles office. */
  const BaseSubdivision: real := 5000.0 + 8000.0 + 3000.0 + 2000.0 + 1500.0
  const CrossoverPerLot: real := 8000.0
  /** 80 per metre over about 100 m of new boundary. */
  const Fencing: real := 80.0 * 100.0
  const AgentCommission: real := 0.015
  const MarketingPerLot: real := 3000.0

  datatype Note = CannotSubdivide | MarginBelowTarget(marginPercent: real) | ProfitBelowTarget(netProfit: real)
                | Subdivision(numLots: int, lotSizeSqm: real, pricePerLot: real)

  datatype LdrzFeasibility = LdrzFeasibility(
    purchasePrice: real, landSizeSqm: real, numLots: int, minLotSize: int,
    stampDuty: real, legals: real, subdivisionCosts: real, financeCost: real, sellingCosts: real, totalCosts: real,
    pricePerLot: real, gdv: real, gst: real,
    grossProfit: real, netProfit: real, marginPercent: real,
    cashRequired: real, totalRoe: real, holdingMonths: int, isViable: bool, notes: seq<Note>)

  /** The number of lots: floor(land / minimum lot), reset to 1 when under 2. */
  function NumLots(landSizeSqm: real, minLot: int): (n: int)
    requires minLot > 0
    ensures n >= 1
    ensures n >= 2 <==> landSizeSqm >= 2.0 * minLot as real
    ensures n >= 2 ==> n as real * minLot as real <= landSizeSqm < (n as real + 1.0) * minLot as real
  {
    var lots := (landSizeSqm / minLot as real).Floor;
    FloorBounds(landSizeSqm, minLot as real, lots);
    if lots < 2 then 1 else lots
  }

  lemma FloorBounds(land: real, m: real, lots: int)
    requires m > 0.0 && lots == (land / m).Floor
    ensures lots >= 2 <==> land >= 2.0 * m
    ensures lots as real * m <= land
    ensures land < (lots as real + 1.0) * m
  {
    var q := land / m;
    assert q * m == land;
    assert lots as real <= q < lots as real + 1.0;
    if land >= 2.0 * m {
      if q < 2.0 { MulLt(q, 2.0, m); }
    } else {
      if q >= 2.0 { MulLeft(2.0, q, m); }
    }
    MulLeft(lots as real, q, m);
    var c := lots as real + 1.0;
    MulLt(q, c, m);
    assert q * m == land;
    assert land < c * m;
  }

  lemma MulLeft(a: real, b: real, m: real)
    requires a <= b && m > 0.0
    ensures a * m <= b * m
  {
  }

  lemma MulLt(a: real, b: real, m: real)
    requires a < b && m > 0.0
    ensures a * m < b * m
  {
  }

  /** The notes for a non-viable result, as written: a profit of exactly 100,000 gets no note. */
  function ViabilityNotesAsWritten(marginPercent: real, netProfit: real): seq<Note>
  {
    if marginPercent >= 15.0 && netProfit > 100000.0 then []
    else
      (if marginPercent < 15.0 then [MarginBelowTarget(marginPercent)] else [])
      + (if netProfit < 100000.0 then [ProfitBelowTarget(netProfit)] else [])
  }

  /** A result that is not viable yet carries no note saying why. */
  lemma ViabilityNotesAsWrittenSilent()
    ensures !(20.0 >= 15.0 && 100000.0 > 100000.0)
    ensures ViabilityNotesAsWritten(20.0, 100000.0) == []
  {
  }

  /** The notes for a non-viable result, with the profit test the viability rule uses. */
  function ViabilityNotes(marginPercent: real, netProfit: real): (r: seq<Note>)
    ensures r == [] <==> marginPercent >= 15.0 && netProfit > 100000.0
    ensures MarginBelowTarget(marginPercent) in r <==> marginPercent < 15.0
    ensures ProfitBelowTarget(netProfit) in r <==> netProfit <= 100000.0
  {
    if marginPercent >= 15.0 && netProfit > 100000.0 then []
    else
      (if marginPercent < 15.0 then [MarginBelowTarget(marginPercent)] else [])
      + (if netProfit <= 100000.0 then [ProfitBelowTarget(netProfit)] else [])
  }

  /**
   * The revenue, GST, profit, return and viability stages of
   * calculate_ldrz_feasibility, once the lot count, lot value, duty and
   * development costs are known.
   */
  function Assemble(purchasePrice: real, landSizeSqm: real, numLots: int, minLot: int, actualLotSize: real,
                    pricePerLot: real, stampDuty: real, subdivisionCosts: real, financeCost: real,
                    holdingMonths: int, lvr: real, notes1: seq<Note>): LdrzFeasibility
  {
    var gdv := pricePerLot * numLots as real;
    var sellingCosts := gdv * AgentCommission + MarketingPerLot * numLots as real;
    var gst := Max(0.0, gdv - purchasePrice) / 11.0;
    var totalCosts := purchasePrice + stampDuty + Legals + subdivisionCosts + financeCost + sellingCosts + gst;
    var grossProfit := gdv - purchasePrice - stampDuty - Legals - subdivisionCosts - financeCost - sellingCosts;
    var netProfit := grossProfit - gst;
    var marginPercent := if totalCosts > 0.0 then netProfit / totalCosts * 100.0 else 0.0;
    var cashRequired := purchasePrice * (1.0 - lvr) + stampDuty + Legals + subdivisionCosts;
    var totalRoe := if cashRequired > 0.0 then netProfit / cashRequired * 100.0 else 0.0;
    var isViable := marginPercent >= 15.0 && netProfit > 100000.0;
    var notes2 := notes1 + ViabilityNotes(marginPercent, netProfit);
    var notes3 := if numLots >= 2 then notes2 + [Subdivision(numLots, actualLotSize, pricePerLot)] else notes2;
    LdrzFeasibility(purchasePrice, landSizeSqm, numLots, minLot, stampDuty, Legals, subdivisionCosts, financeCost,
                    sellingCosts, totalCosts, pricePerLot, gdv, gst, grossProfit, netProfit, marginPercent,
                    cashRequired, totalRoe, holdingMonths, isViable, notes3)
  }

  /**
   * calculate_ldrz_feasibility.  Err when the land size is zero, where the
   * original land rate divides by it, and when the holding period is zero
   * months, where the annualised return divides 12 by it.  The annualised
   * return itself is left out.
   */
  function CalculateLdrzFeasibility(purchasePrice: real, landSizeSqm: real, hasSewerage: bool, suburb: Option<string>,
                                    holdingMonths: int, interestRate: real, lvr: real): Result<LdrzFeasibility>
  {
    var minLot := if hasSewerage then 2000 else 4000;
    var numLots := NumLots(landSizeSqm, minLot);
    var notes1 := if numLots < 2 then [CannotSubdivide] else [];
    var actualLotSize := landSizeSqm / numLots as real;
    var subdivisionCosts := SubdivisionCosts(numLots);
    if landSizeSqm == 0.0 || holdingMonths == 0 then Err("division by zero")
    else
      var pricePerLot := EstimateLotValue(suburb, actualLotSize, Some(purchasePrice / landSizeSqm));
      Ok(Assemble(purchasePrice, landSizeSqm, numLots, minLot, actualLotSize, pricePerLot, StampDuty(purchasePrice),
                  subdivisionCosts, FinanceCost(purchasePrice, subdivisionCosts, lvr, interestRate, holdingMonths),
                  holdingMonths, lvr, notes1))
  }

  /** The fixed subdivision costs, a crossover for each new lot, and the fencing. */
  function SubdivisionCosts(numLots: int): real
  {
    BaseSubdivision + CrossoverPerLot * (numLots - 1) as real + Fencing
  }

  /** Interest on the loan against the price and half the subdivision costs over the holding period. */
  function FinanceCost(purchasePrice: real, subdivisionCosts: real, lvr: real, interestRate: real, holdingMonths: int): real
  {
    var loanAmount := (purchasePrice + subdivisionCosts * 0.5) * lvr;
    loanAmount * interestRate * (holdingMonths as real / 12.0)
  }

  /**
   * The money identities: GST is a non-negative eleventh of the GDV's excess
   * over the price, zero when the GDV does not exceed it; net profit is the
   * GDV less every cost including GST; the margin is net profit as a
   * percentage of total costs; viability is margin >= 15 and profit over
   * 100,000, and a non-viable result always says why.
   */
  lemma AssembleFacts(purchasePrice: real, landSizeSqm: real, numLots: int, minLot: int, actualLotSize: real,
                      pricePerLot: real, stampDuty: real, subdivisionCosts: real, financeCost: real,
                      holdingMonths: int, lvr: real, notes1: seq<Note>)
    ensures var f := Assemble(purchasePrice, landSizeSqm, numLots, minLot, actualLotSize, pricePerLot, stampDuty,
                              subdivisionCosts, financeCost, holdingMonths, lvr, notes1);
      && f.gst >= 0.0
      && (f.gst == 0.0 <==> f.gdv <= purchasePrice)
      && f.gdv == pricePerLot * numLots as real
      && f.netProfit == f.gdv - f.totalCosts
      && (f.totalCosts > 0.0 ==> f.marginPercent * f.totalCosts == f.netProfit * 100.0)
      && (f.isViable <==> f.marginPercent >= 15.0 && f.netProfit > 100000.0)
      && (!f.isViable ==> exists n | n in f.notes :: n.MarginBelowTarget? || n.ProfitBelowTarget?)
      && f.notes[..|notes1|] == notes1
      && (CannotSubdivide !in notes1 ==> CannotSubdivide !in f.notes)
      && f.numLots == numLots && f.minLotSize == minLot && f.stampDuty == stampDuty
  {
    AssembleMoney(purchasePrice, landSizeSqm, numLots, minLot, actualLotSize, pricePerLot, stampDuty,
                      subdivisionCosts, financeCost, holdingMonths, lvr, notes1);
    AssembleNotes(purchasePrice, landSizeSqm, numLots, minLot, actualLotSize, pricePerLot, stampDuty,
                      subdivisionCosts, financeCost, holdingMonths, lvr, notes1);
  }

  lemma AssembleMoney(purchasePrice: real, landSizeSqm: real, numLots: int, minLot: int, actualLotSize: real,
                      pricePerLot: real, stampDuty: real, subdivisionCosts: real, financeCost: real,
                      holdingMonths: int, lvr: real, notes1: seq<Note>)
    ensures var f := Assemble(purchasePrice, landSizeSqm, numLots, minLot, actualLotSize, pricePerLot, stampDuty,
                              subdivisionCosts, financeCost, holdingMonths, lvr, notes1);
      && f.gst >= 0.0
      && (f.gst == 0.0 <==> f.gdv <= purchasePrice)
      && f.gdv == pricePerLot * numLots as real
      && f.netProfit == f.gdv - f.totalCosts
      && (f.totalCosts > 0.0 ==> f.marginPercent * f.totalCosts == f.netProfit * 100.0)
      && f.numLots == numLots && f.minLotSize == minLot && f.stampDuty == stampDuty
  {
    var f := Assemble(purchasePrice, landSizeSqm, numLots, minLot, actualLotSize, pricePerLot, stampDuty,
                      subdivisionCosts, financeCost, holdingMonths, lvr, notes1);
    if f.totalCosts > 0.0 {
      PercentTimesBase(f.netProfit, f.totalCosts);
    }
  }

  lemma AssembleNotes(purchasePrice: real, landSizeSqm: real, numLots: int, minLot: int, actualLotSize: real,
                      pricePerLot: real, stampDuty: real, subdivisionCosts: real, financeCost: real,
                      holdingMonths: int, lvr: real, notes1: seq<Note>)
    ensures var f := Assemble(purchasePrice, landSizeSqm, numLots, minLot, actualLotSize, pricePerLot, stampDuty,
                              subdivisionCosts, financeCost, holdingMonths, lvr, notes1);
      && (f.isViable <==> f.marginPercent >= 15.0 && f.netProfit > 100000.0)
      && (!f.isViable ==> exists n | n in f.notes :: n.MarginBelowTarget? || n.ProfitBelowTarget?)
      && f.notes[..|notes1|] == notes1
      && (CannotSubdivide !in notes1 ==> CannotSubdivide !in f.notes)
  {
    var f := Assemble(purchasePrice, landSizeSqm, numLots, minLot, actualLotSize, pricePerLot, stampDuty,
                      subdivisionCosts, financeCost, holdingMonths, lvr, notes1);
    var vn := ViabilityNotes(f.marginPercent, f.netProfit);
    assert (notes1 + vn)[..|notes1|] == notes1;
    if !f.isViable {
      if f.marginPercent < 15.0 {
        assert MarginBelowTarget(f.marginPercent) in vn;
        assert MarginBelowTarget(f.marginPercent) in f.notes;
      } else {
        assert ProfitBelowTarget(f.netProfit) in vn;
        assert ProfitBelowTarget(f.netProfit) in f.notes;
      }
    }
  }

  /**
   * The lot count and its note: zero land and a zero holding period are the
   * only errors; the minimum
   * lot is 2000 with sewerage and 4000 without; the lot count is NumLots
   * (floor(land / minimum lot) when that is at least 2), and a single lot
   * always carries the "cannot subdivide" note; the duty is the
   * progressive stamp duty.
   */
  lemma LdrzFeasibilityLots(purchasePrice: real, landSizeSqm: real, hasSewerage: bool, suburb: Option<string>,
                            holdingMonths: int, interestRate: real, lvr: real)
    ensures var r := CalculateLdrzFeasibility(purchasePrice, landSizeSqm, hasSewerage, suburb, holdingMonths, interestRate, lvr);
      && (r.Err? <==> landSizeSqm == 0.0 || holdingMonths == 0)
      && (r.Ok? ==>
            var f := r.value;
            && f.minLotSize == (if hasSewerage then 2000 else 4000)
            && f.numLots >= 1
            && (f.numLots >= 2 <==> landSizeSqm >= 2.0 * f.minLotSize as real)
            && f.numLots == NumLots(landSizeSqm, f.minLotSize)
            && (CannotSubdivide in f.notes <==> f.numLots == 1)
            && f.stampDuty == StampDuty(purchasePrice))
  {
    var minLot := if hasSewerage then 2000 else 4000;
    var numLots := NumLots(landSizeSqm, minLot);
    var notes1 := if numLots < 2 then [CannotSubdivide] else [];
    var actualLotSize := landSizeSqm / numLots as real;
    var subdivisionCosts := SubdivisionCosts(numLots);
    if landSizeSqm != 0.0 && holdingMonths != 0 {
      var pricePerLot := EstimateLotValue(suburb, actualLotSize, Some(purchasePrice / landSizeSqm));
      AssembleFacts(purchasePrice, landSizeSqm, numLots, minLot, actualLotSize, pricePerLot, StampDuty(purchasePrice),
                    subdivisionCosts, FinanceCost(purchasePrice, subdivisionCosts, lvr, interestRate, holdingMonths),
                    holdingMonths, lvr, notes1);
    }
  }
}
