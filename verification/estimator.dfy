/** How the page uses the core: run one estimator, then derive the parts
    list from the recommended size. */
module Estimator {
  import Residential
  import Agriculture
  import Materials

  /** The residential parts list, when the estimate succeeds. */
  function ResidentialMaterials(bill: real, tariff: real, battery: bool): (r: Materials.Option<seq<Materials.MaterialLine>>)
    ensures r.Some? <==> Residential.FromBill(bill, tariff, battery).Ok?
    ensures r.Some? ==> |r.value| == 6 && r.value[0].qty >= 2.0 && r.value[2].qty >= 1.0
    ensures r.Some? ==>
              var kw := Residential.FromBill(bill, tariff, battery).value.systemKw;
              && r.value[0].qty == Materials.PanelCount(kw) as real
              && r.value[2].qty == Materials.BatteryCount(kw) as real
              && r.value[3].qty == kw && r.value[5].qty == kw
  {
    match Residential.FromBill(bill, tariff, battery)
    case Ok(e) =>
      Materials.RecommendedSizeHasParts(e.systemKw);
      Materials.Some(Materials.ForSystem(e.systemKw))
    case Err(_) => Materials.None
  }

  /** The agricultural parts list. */
  function AgricultureMaterials(pumpHp: real, hoursPerDay: real, battery: bool): (r: seq<Materials.MaterialLine>)
    ensures |r| == 6 && r[0].qty >= 2.0 && r[2].qty >= 1.0
    ensures var kw := Agriculture.FromPump(pumpHp, hoursPerDay, battery).systemKw;
            && r[0].qty == Materials.PanelCount(kw) as real
            && r[2].qty == Materials.BatteryCount(kw) as real
            && r[3].qty == kw && r[5].qty == kw
  {
    var e := Agriculture.FromPump(pumpHp, hoursPerDay, battery);
    Materials.RecommendedSizeHasParts(e.systemKw);
    Materials.ForSystem(e.systemKw)
  }

  /** The parts list, battery line included, does not depend on the battery
      option, although the cost does. */
  lemma MaterialsIgnoreBatteryFlag(bill: real, tariff: real, pumpHp: real, hoursPerDay: real)
    ensures ResidentialMaterials(bill, tariff, true) == ResidentialMaterials(bill, tariff, false)
    ensures AgricultureMaterials(pumpHp, hoursPerDay, true) == AgricultureMaterials(pumpHp, hoursPerDay, false)
  {
    Residential.BatteryCostsMore(bill, tariff);
    Agriculture.BatteryCostsMore(pumpHp, hoursPerDay);
  }
}
