/** Residential estimate: from a monthly electricity bill and tariff to a
    recommended system size, its cost, generation, savings and payback. */
module Residential {
  import opened Assumptions
  import opened Sizing
  import opened RealFacts

  /** Guard added to the payback denominator so that zero savings do not divide by zero. */
  const PaybackEpsilon: real := 0.000001

  datatype Estimate = Estimate(
    monthlyUnits: real,
    systemKw: real,
    monthlyGeneration: real,
    totalCost: real,
    monthlySavings: real,
    paybackYears: real)

  /** Python raises ZeroDivisionError; nothing else can go wrong. */
  datatype Error = ZeroDivision

  datatype Result = Ok(value: Estimate) | Err(error: Error)

  function CostPerKw(battery: bool): (c: int)
    ensures c > 0
  {
    if battery then CostPerKwWithBattery else CostPerKwNoBattery
  }

  /** Yearly savings plus the guard; the divisor of the payback period. */
  function PaybackDenominator(monthlySavings: real): (d: real)
    ensures monthlySavings >= 0.0 ==> d > 0.0
  {
    monthlySavings * 12.0 + PaybackEpsilon
  }

  /** How the fields of an estimate follow from its monthly units: the size is
      the half-kW rounding of units / 120; cost, generation and savings scale
      with the size; the payback times its guarded divisor is the cost. */
  predicate Sized(e: Estimate, tariff: real, battery: bool)
  {
    && e.systemKw == RecommendedKw(e.monthlyUnits / KwhPerKwPerMonth)
    && IsHalfKwStep(e.systemKw)
    && e.totalCost == e.systemKw * CostPerKw(battery) as real
    && e.monthlyGeneration == e.systemKw * KwhPerKwPerMonth
    && e.monthlySavings == e.monthlyGeneration * tariff
    && e.paybackYears * PaybackDenominator(e.monthlySavings) == e.totalCost
  }

  /** The payback divisor is zero for the size this bill and tariff round to. */
  predicate DivisorVanishes(bill: real, tariff: real)
    requires tariff != 0.0
  {
    DivisorVanishesForUnits(bill / tariff, tariff)
  }

  /** The payback divisor is zero for the size a monthly consumption rounds to. */
  predicate DivisorVanishesForUnits(units: real, tariff: real)
  {
    PaybackDenominator(RecommendedKw(units / KwhPerKwPerMonth) * KwhPerKwPerMonth * tariff) == 0.0
  }

  /** Everything after `bill / tariff`: sizing, cost, generation, savings and payback
      for a given monthly consumption. */
  function FromUnits(units: real, tariff: real, battery: bool): (r: Result)
    ensures r.Err? <==> DivisorVanishesForUnits(units, tariff)
    ensures r.Ok? ==>
              && r.value.monthlyUnits == units
              && Sized(r.value, tariff, battery)
  {
    if DivisorVanishesForUnits(units, tariff) then Err(ZeroDivision)
    else
      PricedIsSized(units, tariff, battery);
      Ok(Priced(units, RecommendedKw(units / KwhPerKwPerMonth), tariff, battery))
  }

  /** The estimate's fields once the size is known and the divisor is not zero. */
  function Priced(units: real, kw: real, tariff: real, battery: bool): Estimate
    requires PaybackDenominator(kw * KwhPerKwPerMonth * tariff) != 0.0
  {
    var cost := kw * CostPerKw(battery) as real;
    var generation := kw * KwhPerKwPerMonth;
    var savings := generation * tariff;
    Estimate(units, kw, generation, cost, savings, cost / PaybackDenominator(savings))
  }

  lemma PricedIsSized(units: real, tariff: real, battery: bool)
    requires PaybackDenominator(RecommendedKw(units / KwhPerKwPerMonth) * KwhPerKwPerMonth * tariff) != 0.0
    ensures Sized(Priced(units, RecommendedKw(units / KwhPerKwPerMonth), tariff, battery), tariff, battery)
  {
    var kw := RecommendedKw(units / KwhPerKwPerMonth);
    var e := Priced(units, kw, tariff, battery);
    QuotientTimesDivisor(e.totalCost, PaybackDenominator(e.monthlySavings));
  }

  /** The estimate for a bill, a tariff and whether a battery is included. */
  function FromBill(bill: real, tariff: real, battery: bool): (r: Result)
    ensures tariff == 0.0 ==> r == Err(ZeroDivision)
    ensures tariff > 0.0 ==> r.Ok?
    ensures tariff != 0.0 ==> (r.Err? <==> DivisorVanishes(bill, tariff))
    ensures r.Ok? ==>
              && r.value.monthlyUnits * tariff == bill
              && Sized(r.value, tariff, battery)
  {
    if tariff == 0.0 then Err(ZeroDivision)
    else
      var units := bill / tariff;
      QuotientTimesDivisor(bill, tariff);
      if tariff > 0.0 then
        PositiveTariffSucceeds(units, tariff, battery);
        FromUnits(units, tariff, battery)
      else
        FromUnits(units, tariff, battery)
  }

  /** A positive tariff gives positive savings, so the divisor is never zero. */
  lemma PositiveTariffSucceeds(units: real, tariff: real, battery: bool)
    requires tariff > 0.0
    ensures FromUnits(units, tariff, battery).Ok?
  {
    var kw := RecommendedKw(units / KwhPerKwPerMonth);
    PositiveProduct(kw * KwhPerKwPerMonth, tariff);
  }

  /** With a non-negative tariff the estimate fails exactly when the tariff is
      zero; otherwise the payback divisor is positive and the payback is a
      defined, positive number of years. */
  lemma PaybackDefined(bill: real, tariff: real, battery: bool)
    requires tariff >= 0.0
    ensures FromBill(bill, tariff, battery).Ok? <==> tariff > 0.0
    ensures tariff > 0.0 ==>
              && PaybackDenominator(FromBill(bill, tariff, battery).value.monthlySavings) > 0.0
              && FromBill(bill, tariff, battery).value.paybackYears > 0.0
  {
    if tariff > 0.0 {
      SizedPaybackPositive(FromBill(bill, tariff, battery).value, tariff, battery);
    }
  }

  /** A sized estimate at a positive tariff has positive savings, hence a
      positive divisor and a positive payback. */
  lemma SizedPaybackPositive(e: Estimate, tariff: real, battery: bool)
    requires tariff > 0.0 && Sized(e, tariff, battery)
    ensures PaybackDenominator(e.monthlySavings) > 0.0
    ensures e.paybackYears > 0.0
  {
    PositiveProduct(e.systemKw, KwhPerKwPerMonth);
    PositiveProduct(e.monthlyGeneration, tariff);
    PositiveProduct(e.systemKw, CostPerKw(battery) as real);
    QuotientPositive(e.paybackYears, PaybackDenominator(e.monthlySavings), e.totalCost);
  }

  /** A negative tariff can make the guarded divisor exactly zero:
      0.5 kW * 120 kWh * 12 months * (-1/720000000) + 1e-6 == 0. */
  lemma NegativeTariffCanZeroTheDivisor()
    ensures FromBill(0.0, -1.0 / 720000000.0, false) == Err(ZeroDivision)
  {
    assert RecommendedKw(0.0) == MinSystemKw;
  }

  /** The system is held at the 0.5 kW floor exactly when the bill buys fewer
      than 90 units (0.75 kW of monthly generation). */
  lemma MinimumSizeIff(bill: real, tariff: real, battery: bool)
    requires tariff > 0.0
    ensures FromBill(bill, tariff, battery).value.systemKw == MinSystemKw <==> bill < 90.0 * tariff
  {
    var units := bill / tariff;
    assert units / KwhPerKwPerMonth < 0.75 <==> units < 90.0;
    assert units < 90.0 <==> bill < 90.0 * tariff by {
      assert units * tariff == bill;
    }
  }

  /** For a fixed positive tariff, a larger bill never gives a smaller system. */
  lemma BillMonotone(bill1: real, bill2: real, tariff: real, battery: bool)
    requires tariff > 0.0
    requires bill1 <= bill2
    ensures FromBill(bill1, tariff, battery).value.systemKw <= FromBill(bill2, tariff, battery).value.systemKw
  {
    var u1, u2 := bill1 / tariff, bill2 / tariff;
    assert u1 <= u2 by {
      assert u1 * tariff == bill1 && u2 * tariff == bill2;
    }
    RecommendedKwMonotone(u1 / KwhPerKwPerMonth, u2 / KwhPerKwPerMonth);
  }

  /** The battery flag changes only the cost, and the battery option costs
      20000 more per installed kW. */
  lemma BatteryCostsMore(bill: real, tariff: real)
    ensures FromBill(bill, tariff, true).Ok? <==> FromBill(bill, tariff, false).Ok?
    ensures FromBill(bill, tariff, true).Ok? ==>
              var w, n := FromBill(bill, tariff, true).value, FromBill(bill, tariff, false).value;
              && w.systemKw == n.systemKw
              && w.monthlySavings == n.monthlySavings
              && w.totalCost - n.totalCost == 20000.0 * w.systemKw
              && w.totalCost > n.totalCost
  {
  }

  /** A 2000-rupee bill at 8 rupees per unit: 250 units, 2.0 kW, 80000 rupees,
      240 kWh and 1920 rupees a month. */
  lemma BillOf2000()
    ensures FromBill(2000.0, DefaultTariff, false)
         == Ok(Estimate(250.0, 2.0, 240.0, 80000.0, 1920.0, 80000.0 / (23040.0 + PaybackEpsilon)))
  {
    RecommendedKwIsNearestStep(250.0 / 120.0, 4);
  }

  /** 150 units is 2.5 half steps, which rounds to 2: 1.0 kW, not 1.5 kW. */
  lemma TieGoesToEvenStep()
    ensures FromBill(1200.0, DefaultTariff, false).value.systemKw == 1.0
  {
    RecommendedKwIsNearestStep(1.25, 2);
  }
}
