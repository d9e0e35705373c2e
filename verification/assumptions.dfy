/** The fixed planning assumptions and the materials catalogue the
    estimator works from. Nothing here changes at run time. */
module Assumptions {

  /** Default electricity tariff, rupees per unit (kWh). */
  const DefaultTariff: real := 8.0

  /** Approximate monthly generation of one installed kW, in kWh. */
  const KwhPerKwPerMonth: real := 120.0

  /** Equivalent full-sun hours per day used for pump sizing. */
  const SolarHoursPerDay: real := 5.0

  /** Installed cost per kW, in rupees, residential and agricultural. */
  const CostPerKwNoBattery: int := 40000
  const CostPerKwWithBattery: int := 60000
  const AgrCostPerKwNoBattery: int := 35000
  const AgrCostPerKwWithBattery: int := 55000

  /** Mechanical horsepower to kilowatts. */
  const KwPerHp: real := 0.746

  datatype Category = Panel | Inverter | Battery | Structure | Protection | Cables

  /** Panels carry a wattage; every other item a free-text specification. */
  datatype Rating = Watts(watts: int) | Spec(text: string)

  datatype Component = Component(category: Category, name: string, rating: Rating, price: int)

  /** The materials catalogue, in catalogue order. */
  const Catalogue: seq<Component> := [
    Component(Panel, "Monocrystalline 450W", Watts(450), 12000),
    Component(Panel, "Polycrystalline 350W", Watts(350), 8000),
    Component(Inverter, "Hybrid Inverter 5kW", Spec("5kW"), 55000),
    Component(Battery, "Li-ion 5kWh", Spec("5kWh"), 70000),
    Component(Structure, "Roof Mounting Kit", Spec("per kW"), 4000),
    Component(Protection, "ACDB/MCB/Protection", Spec("per system"), 8000),
    Component(Cables, "PV Cables & Accessories", Spec("per kW"), 2000)
  ]
}
