/** Agricultural estimate: from a pump's horsepower and daily run hours to
    the pump's power and energy, a recommended system size, its cost and
    its monthly generation. */
module Agriculture {
  import opened Assumptions
  import opened Sizing
  import opened RealFacts

  datatype Estimate = Estimate(
    pumpKw: real,
    hoursPerDay: real,
    systemKw: real,
    monthlyGeneration: real,
    totalCost: real,
    dailyEnergy: real)

  function CostPerKw(battery: bool): (c: int)
    ensures c > 0
  {
    if battery then AgrCostPerKwWithBattery else AgrCostPerKwNoBattery
  }

  /** The estimate for a pump; defined for every input. */
  function FromPump(pumpHp: real, hoursPerDay: real, battery: bool): (r: Estimate)
    ensures r.pumpKw == KwPerHp * pumpHp
    ensures r.hoursPerDay == hoursPerDay
    ensures r.dailyEnergy == KwPerHp * pumpHp * hoursPerDay
    ensures r.systemKw == RecommendedKw(r.dailyEnergy / SolarHoursPerDay)
    ensures IsHalfKwStep(r.systemKw)
    ensures r.totalCost == r.systemKw * CostPerKw(battery) as real
    ensures r.monthlyGeneration == KwhPerKwPerMonth * r.systemKw
  {
    var pumpKw := pumpHp * KwPerHp;
    var dailyEnergy := pumpKw * hoursPerDay;
    var kw := RecommendedKw(dailyEnergy / SolarHoursPerDay);
    var cost := kw * CostPerKw(battery) as real;
    var generation := kw * KwhPerKwPerMonth;
    Estimate(pumpKw, hoursPerDay, kw, generation, cost, dailyEnergy)
  }

  /** The system is held at the 0.5 kW floor exactly when the pump draws
      less than 3.75 kWh a day (0.75 kW over five sun-hours). */
  lemma MinimumSizeIff(pumpHp: real, hoursPerDay: real, battery: bool)
    ensures FromPump(pumpHp, hoursPerDay, battery).systemKw == MinSystemKw
            <==> KwPerHp * pumpHp * hoursPerDay < 3.75
  {
  }

  /** More run hours never give a smaller system, for any pump that draws power. */
  lemma HoursMonotone(pumpHp: real, hours1: real, hours2: real, battery: bool)
    requires pumpHp >= 0.0
    requires hours1 <= hours2
    ensures FromPump(pumpHp, hours1, battery).systemKw <= FromPump(pumpHp, hours2, battery).systemKw
  {
    EnergyMonotone(pumpHp, hours1, hours2);
    RecommendedKwMonotone(KwPerHp * pumpHp * hours1 / SolarHoursPerDay, KwPerHp * pumpHp * hours2 / SolarHoursPerDay);
  }

  lemma EnergyMonotone(pumpHp: real, hours1: real, hours2: real)
    requires pumpHp >= 0.0
    requires hours1 <= hours2
    ensures KwPerHp * pumpHp * hours1 <= KwPerHp * pumpHp * hours2
  {
    ScaleMonotone(KwPerHp * pumpHp, hours1, hours2);
  }

  /** A bigger pump never gives a smaller system, for non-negative run hours. */
  lemma HorsepowerMonotone(hp1: real, hp2: real, hoursPerDay: real, battery: bool)
    requires hoursPerDay >= 0.0
    requires hp1 <= hp2
    ensures FromPump(hp1, hoursPerDay, battery).systemKw <= FromPump(hp2, hoursPerDay, battery).systemKw
  {
    var e1, e2 := KwPerHp * hp1 * hoursPerDay, KwPerHp * hp2 * hoursPerDay;
    assert e1 <= e2 by {
      assert e2 - e1 == KwPerHp * ((hp2 - hp1) * hoursPerDay);
      NonNegativeProduct(hp2 - hp1, hoursPerDay);
    }
    RecommendedKwMonotone(e1 / SolarHoursPerDay, e2 / SolarHoursPerDay);
  }

  /** The battery flag changes only the cost: 20000 more per installed kW. */
  lemma BatteryCostsMore(pumpHp: real, hoursPerDay: real)
    ensures var w, n := FromPump(pumpHp, hoursPerDay, true), FromPump(pumpHp, hoursPerDay, false);
            && w.systemKw == n.systemKw
            && w.monthlyGeneration == n.monthlyGeneration
            && w.totalCost - n.totalCost == 20000.0 * w.systemKw
            && w.totalCost > n.totalCost
  {
  }

  /** A 2 HP pump run 5 hours a day: 1.492 kW, 7.46 kWh, rounded to 1.5 kW,
      costing 52500 rupees without a battery. */
  lemma TwoHorsepowerPump()
    ensures FromPump(2.0, 5.0, false) == Estimate(1.492, 5.0, 1.5, 180.0, 52500.0, 7.46)
  {
    RecommendedKwIsNearestStep(7.46 / 5.0, 3);
  }
}
