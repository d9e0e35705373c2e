/** The bill of materials for a system size: six priced lines drawn from
    the catalogue, in the order panel, inverter, battery, structure,
    protection, cables. */
module Materials {
  import opened Assumptions
  import opened Rounding

  datatype Option<T> = None | Some(value: T)

  /** One row of the parts list; `qty` is fractional for the per-kW items. */
  datatype MaterialLine = MaterialLine(item: string, qty: real, unitPrice: int, total: real)

  /** The category of each line of a bill of materials, in order. */
  const LineOrder: seq<Category> := [Panel, Inverter, Battery, Structure, Protection, Cables]

  /** The catalogue position the deriver reads for each line. */
  const LineSource: seq<nat> := [0, 2, 3, 4, 5, 6]

  /** The line names and prices the given catalogue entry. */
  predicate PricedFrom(line: MaterialLine, c: Component)
  {
    line.item == c.name && line.unitPrice == c.price
  }

  /** The position of the first catalogue entry of a category, if any. */
  function FirstOfCategory(cat: Category, items: seq<Component>): (r: Option<nat>)
    ensures r.Some? ==> r.value < |items| && items[r.value].category == cat
    ensures r.Some? ==> forall j :: 0 <= j < r.value ==> items[j].category != cat
    ensures r.None? ==> forall j :: 0 <= j < |items| ==> items[j].category != cat
  {
    if |items| == 0 then None
    else if items[0].category == cat then Some(0)
    else match FirstOfCategory(cat, items[1..])
      case None => None
      case Some(k) => Some(k + 1)
  }

  /** The line prices the catalogue entry the deriver picks for a category:
      the first entry of that category. */
  predicate PricesFirstOfCategory(line: MaterialLine, cat: Category)
  {
    var k := FirstOfCategory(cat, Catalogue);
    k.Some? && line.item == Catalogue[k.value].name && line.unitPrice == Catalogue[k.value].price
  }

  /** A position holding the category, with no earlier one that does, is
      the position the lookup finds. */
  lemma FirstOfCategoryIs(cat: Category, items: seq<Component>, k: nat)
    requires k < |items| && items[k].category == cat
    requires forall j :: 0 <= j < k ==> items[j].category != cat
    ensures FirstOfCategory(cat, items) == Some(k)
  {
  }

  /** The fixed positions the deriver reads are the first catalogue entries
      of the line categories, in line order. */
  lemma FirstEntries()
    ensures forall i :: 0 <= i < |LineOrder| ==> FirstOfCategory(LineOrder[i], Catalogue) == Some(LineSource[i])
  {
    forall i | 0 <= i < |LineOrder|
      ensures FirstOfCategory(LineOrder[i], Catalogue) == Some(LineSource[i])
    {
      FirstOfCategoryIs(LineOrder[i], Catalogue, LineSource[i]);
    }
  }

  /** The panel the estimator fits: the first catalogue entry, 450 W. */
  function PanelWatts(): int
  {
    Catalogue[0].rating.watts
  }

  /** `ceil(kw / (watt / 1000))`: the fewest panels whose rating covers the system. */
  function PanelCount(kw: real): (n: int)
    ensures n as real * 450.0 >= kw * 1000.0
    ensures (n - 1) as real * 450.0 < kw * 1000.0
  {
    Ceil(kw / (PanelWatts() as real / 1000.0))
  }

  /** `max(1, int(kw / 3))`: one battery per whole 3 kW, at least one. */
  function BatteryCount(kw: real): (n: int)
    ensures n >= 1
    ensures n == 1 <==> kw < 6.0
    ensures kw >= 3.0 ==> 3.0 * n as real <= kw < 3.0 * (n + 1) as real
  {
    var perThree := Trunc(kw / 3.0);
    if 1 >= perThree then 1 else perThree
  }

  /** A line's total is its quantity times its unit price. */
  predicate IsPricedLine(line: MaterialLine)
  {
    line.total == line.qty * line.unitPrice as real
  }

  function Line(c: Component, qty: real): MaterialLine
  {
    MaterialLine(c.name, qty, c.price, qty * c.price as real)
  }

  /** The bill of materials for a system of `kw` kilowatts. The battery line
      is present whatever battery option was chosen for the cost. */
  function ForSystem(kw: real): (r: seq<MaterialLine>)
    ensures |r| == |LineOrder| == 6
    ensures forall i :: 0 <= i < |r| ==> PricedFrom(r[i], Catalogue[LineSource[i]])
    ensures forall i :: 0 <= i < |r| ==> Catalogue[LineSource[i]].category == LineOrder[i]
    ensures forall i :: 0 <= i < |r| ==> IsPricedLine(r[i])
    ensures r[0].qty == PanelCount(kw) as real
    ensures r[1].qty == 1.0 && r[4].qty == 1.0
    ensures r[2].qty == BatteryCount(kw) as real
    ensures r[3].qty == kw && r[5].qty == kw
  {
    var lines := [
      Line(Catalogue[0], PanelCount(kw) as real),
      Line(Catalogue[2], 1.0),
      Line(Catalogue[3], BatteryCount(kw) as real),
      Line(Catalogue[4], kw),
      Line(Catalogue[5], 1.0),
      Line(Catalogue[6], kw)
    ];
    lines
  }

  /** Each line prices the first catalogue entry of its category, so the
      unused second panel model never appears. */
  lemma LinesUseFirstOfCategory(kw: real)
    ensures forall i :: 0 <= i < |ForSystem(kw)| ==> PricesFirstOfCategory(ForSystem(kw)[i], LineOrder[i])
  {
    FirstEntries();
  }

  /** For a whole number of half-kW steps `h`, the panel count is the integer
      ceiling of 500 h / 450, i.e. (10 h + 8) div 9. */
  lemma PanelCountOfHalfSteps(h: int)
    ensures PanelCount(h as real / 2.0) == (10 * h + 8) / 9
  {
    var n := PanelCount(h as real / 2.0);
    var m := (10 * h + 8) / 9;
    assert 9 * m <= 10 * h + 8 < 9 * m + 9;
    assert n as real * 9.0 >= h as real * 10.0;
    assert (n - 1) as real * 9.0 < h as real * 10.0;
    assert 9 * n >= 10 * h && 9 * (n - 1) < 10 * h;
  }

  /** Every size an estimator recommends (at least 0.5 kW) needs two panels
      or more, so no discrete line is ever empty. */
  lemma RecommendedSizeHasParts(kw: real)
    requires kw >= 0.5
    ensures PanelCount(kw) >= 2
    ensures forall i :: 0 <= i < |ForSystem(kw)| ==> ForSystem(kw)[i].qty > 0.0
  {
    var r := ForSystem(kw);
    assert r[0].qty >= 2.0;
  }

  /** A 2.0 kW system: 5 panels, one inverter, one battery, 2 kW of structure
      and cable, one protection unit. */
  lemma TwoKwSystem()
    ensures var r := ForSystem(2.0);
            && r[0].qty == 5.0 && r[0].total == 60000.0
            && r[1].qty == 1.0 && r[1].total == 55000.0
            && r[2].qty == 1.0 && r[2].total == 70000.0
            && r[3].qty == 2.0 && r[3].total == 8000.0
            && r[4].qty == 1.0 && r[4].total == 8000.0
            && r[5].qty == 2.0 && r[5].total == 4000.0
  {
    PanelCountOfHalfSteps(4);
  }
}
