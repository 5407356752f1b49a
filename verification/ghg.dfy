/** `compute_row_ghg`: one grid row, the region's parameters and the soil amortisation
    period give the row's emission reduction in tCO2e, rounded to two decimals. */
module Ghg {
  import opened Wrappers
  import opened RawValues
  import opened Parameters
  import opened Rounding
  import opened Region

  /** One row of an agriculture grid: the eleven columns, each as the raw cell value. */
  datatype Row = Row(
    cropSystem: Raw,
    area: Raw,
    tillage: Raw,
    inputs: Raw,
    residue: Raw,
    localAgb: Raw,
    localBgb: Raw,
    localSoil: Raw,
    localTillageFactor: Raw,
    localInputFactor: Raw,
    localResidueFactor: Raw)

  /** The row after its cleaning step: the four name cells through `safe_get`, the seven
      numeric cells through `safe_float`. */
  datatype Cells = Cells(
    crop: Raw,
    tillage: Raw,
    inputs: Raw,
    residue: Raw,
    area: real,
    localAgb: real,
    localBgb: real,
    localSoil: real,
    localTillageFactor: real,
    localInputFactor: real,
    localResidueFactor: real)

  function Clean(row: Row): (c: Cells)
    ensures c.crop.RList? <==> NestedList(row.cropSystem)
    ensures c.tillage.RList? <==> NestedList(row.tillage)
    ensures c.inputs.RList? <==> NestedList(row.inputs)
    ensures c.residue.RList? <==> NestedList(row.residue)
  {
    Cells(
      SafeGet(row.cropSystem), SafeGet(row.tillage), SafeGet(row.inputs), SafeGet(row.residue),
      SafeFloat(row.area), SafeFloat(row.localAgb), SafeFloat(row.localBgb), SafeFloat(row.localSoil),
      SafeFloat(row.localTillageFactor), SafeFloat(row.localInputFactor), SafeFloat(row.localResidueFactor))
  }

  /** Using a list as a dictionary key raises TypeError ("unhashable type"). This is the
      only way a row can fail: `safe_get` removes just one level of list wrapping. */
  datatype RowError = UnhashableKey

  /** Carbon to carbon dioxide: the CO2-to-carbon mass ratio, 44.01/12.011, to three decimals. */
  const CarbonToCO2: real := 3.664

  /** The quantities the formula reads, after overrides and table lookups. */
  datatype Quantities = Quantities(
    area: real, agb: real, bgb: real, soil: real,
    tillage: real, input: real, residue: real)

  /** `table.get(key, default)`: the table entry for a known name, `default` for any other
      hashable key, and a TypeError for a list. */
  function Lookup<V>(table: map<string, V>, key: Raw, default: V): (r: Result<V, RowError>)
    ensures r.Failure? <==> key.RList?
    ensures key.RStr? && key.str in table ==> r == Success(table[key.str])
    ensures !key.RList? && !(key.RStr? && key.str in table) ==> r == Success(default)
  {
    match key
    case RList(_) => Failure(UnhashableKey)
    case RStr(name) => Success(if name in table then table[name] else default)
    case _ => Success(default)
  }

  /** The override rule: a strictly positive local value wins, otherwise the default. */
  function Override(local: real, default: real): (r: real)
    ensures local > 0.0 ==> r == local
    ensures local <= 0.0 ==> r == default
  {
    if local > 0.0 then local else default
  }

  /** A removal factor: the local factor when positive; otherwise the option's table value,
      0 for an unknown option. The table is consulted only when the local factor is not
      positive, so only then can a list-valued option fail. */
  function Factor(local: real, table: map<string, real>, option: Raw): (r: Result<real, RowError>)
    ensures r.Failure? <==> local <= 0.0 && option.RList?
    ensures local > 0.0 ==> r == Success(local)
    ensures local <= 0.0 ==> r == Lookup(table, option, 0.0)
  {
    if local > 0.0 then Success(local) else Lookup(table, option, 0.0)
  }

  /** The crop system's default stocks in the bundle, (0, 0, 0) for an unknown crop. */
  function DefaultStock(p: ParamBundle, c: Cells): (s: Result<Stock, RowError>)
    ensures s.Failure? <==> c.crop.RList?
    ensures s.Success? ==>
              s.value == if c.crop.RStr? && c.crop.str in p.agbBgbSoil then p.agbBgbSoil[c.crop.str] else Stock(0.0, 0.0, 0.0)
  {
    Lookup(p.agbBgbSoil, c.crop, Stock(0.0, 0.0, 0.0))
  }

  /** When a cleaned row raises: its crop is still a list, or an option is still a list
      while the matching local factor is not positive. */
  predicate Raises(c: Cells)
    ensures Raises(c) ==> c.crop.RList? || c.tillage.RList? || c.inputs.RList? || c.residue.RList?
    ensures c.localTillageFactor > 0.0 && c.localInputFactor > 0.0 && c.localResidueFactor > 0.0 ==>
              (Raises(c) <==> c.crop.RList?)
  {
    || c.crop.RList?
    || (c.localTillageFactor <= 0.0 && c.tillage.RList?)
    || (c.localInputFactor <= 0.0 && c.inputs.RList?)
    || (c.localResidueFactor <= 0.0 && c.residue.RList?)
  }

  /** Applies the override rule to all six overridable quantities. */
  function Resolve(c: Cells, p: ParamBundle): (r: Result<Quantities, RowError>)
    ensures r.Failure? <==> Raises(c)
    ensures r.Success? ==> r.value.area == c.area
    ensures r.Success? && c.localAgb > 0.0 ==> r.value.agb == c.localAgb
    ensures r.Success? && c.localAgb <= 0.0 ==> r.value.agb == DefaultStock(p, c).value.agb
    ensures r.Success? && c.localBgb > 0.0 ==> r.value.bgb == c.localBgb
    ensures r.Success? && c.localBgb <= 0.0 ==> r.value.bgb == DefaultStock(p, c).value.bgb
    ensures r.Success? && c.localSoil > 0.0 ==> r.value.soil == c.localSoil
    ensures r.Success? && c.localSoil <= 0.0 ==> r.value.soil == DefaultStock(p, c).value.soil
    ensures r.Success? && c.localTillageFactor > 0.0 ==> r.value.tillage == c.localTillageFactor
    ensures r.Success? && c.localTillageFactor <= 0.0 ==> r.value.tillage == Lookup(p.removalFactors.tillage, c.tillage, 0.0).value
    ensures r.Success? && c.localInputFactor > 0.0 ==> r.value.input == c.localInputFactor
    ensures r.Success? && c.localInputFactor <= 0.0 ==> r.value.input == Lookup(p.removalFactors.input, c.inputs, 0.0).value
    ensures r.Success? && c.localResidueFactor > 0.0 ==> r.value.residue == c.localResidueFactor
    ensures r.Success? && c.localResidueFactor <= 0.0 ==> r.value.residue == Lookup(p.removalFactors.residue, c.residue, 0.0).value
  {
    var stock :- DefaultStock(p, c);
    var tillage :- Factor(c.localTillageFactor, p.removalFactors.tillage, c.tillage);
    var input :- Factor(c.localInputFactor, p.removalFactors.input, c.inputs);
    var residue :- Factor(c.localResidueFactor, p.removalFactors.residue, c.residue);
    Success(Quantities(
      c.area,
      Override(c.localAgb, stock.agb),
      Override(c.localBgb, stock.bgb),
      Override(c.localSoil, stock.soil),
      tillage, input, residue))
  }

  /** `carbon_biomass`: above- and below-ground biomass carbon over the area, in CO2. */
  function BiomassTerm(q: Quantities): (r: real)
    ensures q.area == 0.0 ==> r == 0.0
    ensures q.area >= 0.0 && q.agb + q.bgb >= 0.0 ==> r >= 0.0
    ensures q.area > 0.0 && q.agb + q.bgb > 0.0 ==> r > 0.0
    ensures q.area > 0.0 && q.agb + q.bgb < 0.0 ==> r < 0.0
    ensures q.agb + q.bgb == 0.0 ==> r == 0.0
  {
    assert q.agb * CarbonToCO2 + q.bgb * CarbonToCO2 == (q.agb + q.bgb) * CarbonToCO2;
    (q.agb * CarbonToCO2 + q.bgb * CarbonToCO2) * q.area
  }

  /** `soil_term`: soil carbon amortised over `soilDivisor` years, scaled by the tillage
      and input factors. */
  function SoilTerm(q: Quantities, soilDivisor: real): (r: real)
    requires soilDivisor > 0.0
    ensures q.soil == 0.0 || q.tillage == 0.0 || q.input == 0.0 ==> r == 0.0
    ensures q.soil >= 0.0 && q.tillage >= 0.0 && q.input >= 0.0 ==> r >= 0.0
    ensures q.soil > 0.0 && q.tillage > 0.0 && q.input > 0.0 ==> r > 0.0
  {
    (q.soil / soilDivisor) * q.tillage * q.input
  }

  /** `residue_term`: the residue factor times the region's multiplier, in CO2. */
  function ResidueTerm(q: Quantities, residueMultiplier: real): (r: real)
    ensures q.residue == 0.0 || residueMultiplier == 0.0 ==> r == 0.0
    ensures q.residue > 0.0 && residueMultiplier > 0.0 ==> r > 0.0
  {
    q.residue * residueMultiplier * CarbonToCO2
  }

  /** The unrounded value: biomass plus soil, minus residue. With non-negative quantities
      the residue term is the only deduction, and without stocks it is all that is left. */
  function Formula(q: Quantities, residueMultiplier: real, soilDivisor: real): (r: real)
    requires soilDivisor > 0.0
    ensures q.area >= 0.0 && q.agb >= 0.0 && q.bgb >= 0.0 && q.soil >= 0.0 && q.tillage >= 0.0 && q.input >= 0.0 ==>
              r >= -ResidueTerm(q, residueMultiplier)
    ensures q.agb == 0.0 && q.bgb == 0.0 && q.soil == 0.0 ==> r == -ResidueTerm(q, residueMultiplier)
  {
    BiomassTerm(q) + SoilTerm(q, soilDivisor) - ResidueTerm(q, residueMultiplier)
  }

  /** The cleaned row's value: fails only as `Raises` says; otherwise the formula rounded
      to hundredths, within half a hundredth of the exact value. */
  function CellsGhg(c: Cells, p: ParamBundle, soilDivisor: real): (r: Result<real, RowError>)
    requires soilDivisor > 0.0
    ensures r.Failure? <==> Raises(c)
    ensures r.Success? ==> IsCents(r.value)
    ensures r.Success? ==>
              var exact := Formula(Resolve(c, p).value, p.residueMultiplier, soilDivisor);
              exact - 0.005 < r.value <= exact + 0.005
  {
    var q :- Resolve(c, p);
    Success(Round2(Formula(q, p.residueMultiplier, soilDivisor)))
  }

  /** `compute_row_ghg`: cleans the row, then computes its value. */
  function ComputeRowGhg(row: Row, p: ParamBundle, soilDivisor: real): (r: Result<real, RowError>)
    requires soilDivisor > 0.0
    ensures r.Failure? <==> Raises(Clean(row))
    ensures r.Success? ==> IsCents(r.value)
    ensures r.Success? ==>
              var exact := Formula(Resolve(Clean(row), p).value, p.residueMultiplier, soilDivisor);
              exact - 0.005 < r.value <= exact + 0.005
  {
    CellsGhg(Clean(row), p, soilDivisor)
  }
}
