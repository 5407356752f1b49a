/** Laws of `compute_row_ghg`: the override rule, zero degradation for unknown names,
    the shape of the formula, and the worked example. */
module GhgProperties {
  import opened Wrappers
  import opened RawValues
  import opened Parameters
  import opened Rounding
  import opened Region
  import opened Ghg

  /** The row with every non-positive override replaced by an empty cell. */
  function ClearNonPositive(row: Row): (c: Row)
    ensures c.cropSystem == row.cropSystem && c.area == row.area
    ensures c.tillage == row.tillage && c.inputs == row.inputs && c.residue == row.residue
  {
    row.(
      localAgb := Cleared(row.localAgb),
      localBgb := Cleared(row.localBgb),
      localSoil := Cleared(row.localSoil),
      localTillageFactor := Cleared(row.localTillageFactor),
      localInputFactor := Cleared(row.localInputFactor),
      localResidueFactor := Cleared(row.localResidueFactor))
  }

  function Cleared(v: Raw): (c: Raw)
    ensures SafeFloat(v) > 0.0 ==> SafeFloat(c) == SafeFloat(v)
    ensures SafeFloat(v) <= 0.0 ==> SafeFloat(c) == 0.0
  {
    if SafeFloat(v) > 0.0 then v else RNone
  }

  /** An override of zero or below behaves exactly like an absent one. */
  lemma NonPositiveOverrideIsAbsent(row: Row, p: ParamBundle, soilDivisor: real)
    requires soilDivisor > 0.0
    ensures ComputeRowGhg(ClearNonPositive(row), p, soilDivisor) == ComputeRowGhg(row, p, soilDivisor)
  {
    var a, b := Clean(ClearNonPositive(row)), Clean(row);
    assert Raises(a) <==> Raises(b);
    if !Raises(b) {
      assert Resolve(a, p).value == Resolve(b, p).value;
    }
  }

  /** When all six overrides are positive the crop table and the removal-factor tables play
      no part: any two bundles with the same residue multiplier give the same value. The
      residue multiplier is read unconditionally, so it still matters. The crop lookup still runs, so a
      crop that is still a list raises regardless. */
  lemma PositiveOverridesIgnoreTables(c: Cells, p1: ParamBundle, p2: ParamBundle, soilDivisor: real)
    requires soilDivisor > 0.0
    requires p1.residueMultiplier == p2.residueMultiplier
    requires !c.crop.RList?
    requires c.localAgb > 0.0 && c.localBgb > 0.0 && c.localSoil > 0.0
    requires c.localTillageFactor > 0.0 && c.localInputFactor > 0.0 && c.localResidueFactor > 0.0
    ensures CellsGhg(c, p1, soilDivisor).Success?
    ensures CellsGhg(c, p1, soilDivisor) == CellsGhg(c, p2, soilDivisor)
  {
    assert Resolve(c, p1).value == Resolve(c, p2).value;
  }

  /** A row whose four name cells are plain values, or singly wrapped plain values, never raises. */
  lemma ScalarNamesNeverFail(row: Row, p: ParamBundle, soilDivisor: real)
    requires soilDivisor > 0.0
    requires !SafeGet(row.cropSystem).RList? && !SafeGet(row.tillage).RList?
    requires !SafeGet(row.inputs).RList? && !SafeGet(row.residue).RList?
    ensures ComputeRowGhg(row, p, soilDivisor).Success?
  {
    assert !Raises(Clean(row));
  }

  /** A row raises exactly when its crop cell is a nested list, or an option cell is a nested
      list while its local factor, as `safe_float` reads it, is not positive. */
  lemma RowRaisesIff(row: Row)
    ensures Raises(Clean(row)) <==>
              || NestedList(row.cropSystem)
              || (SafeFloat(row.localTillageFactor) <= 0.0 && NestedList(row.tillage))
              || (SafeFloat(row.localInputFactor) <= 0.0 && NestedList(row.inputs))
              || (SafeFloat(row.localResidueFactor) <= 0.0 && NestedList(row.residue))
  {
  }

  /** No cell of the row is a list. */
  predicate BareCells(row: Row) {
    && !row.cropSystem.RList? && !row.area.RList? && !row.tillage.RList? && !row.inputs.RList?
    && !row.residue.RList? && !row.localAgb.RList? && !row.localBgb.RList? && !row.localSoil.RList?
    && !row.localTillageFactor.RList? && !row.localInputFactor.RList? && !row.localResidueFactor.RList?
  }

  /** The row as the data editor sometimes returns it: every cell wrapped in a one-element list. */
  function Wrapped(row: Row): Row {
    Row(RList([row.cropSystem]), RList([row.area]), RList([row.tillage]), RList([row.inputs]),
        RList([row.residue]), RList([row.localAgb]), RList([row.localBgb]), RList([row.localSoil]),
        RList([row.localTillageFactor]), RList([row.localInputFactor]), RList([row.localResidueFactor]))
  }

  /** The cleaning step undoes the editor's wrapping: a row of bare cells and its wrapped
      form clean to the same cells, so they get the same value. */
  lemma EditorWrappingIgnored(row: Row, p: ParamBundle, soilDivisor: real)
    requires soilDivisor > 0.0
    requires BareCells(row)
    ensures Clean(Wrapped(row)) == Clean(row)
    ensures ComputeRowGhg(Wrapped(row), p, soilDivisor) == ComputeRowGhg(row, p, soilDivisor)
  {
  }

  /** Unknown crop (not a key of the bundle's crop table): with no positive overrides the
      stocks are (0, 0, 0), so only the residue term remains. */
  lemma UnknownCropZeroStocks(c: Cells, p: ParamBundle, soilDivisor: real)
    requires soilDivisor > 0.0
    requires !Raises(c)
    requires !(c.crop.RStr? && c.crop.str in p.agbBgbSoil)
    requires c.localAgb <= 0.0 && c.localBgb <= 0.0 && c.localSoil <= 0.0
    ensures var q := Resolve(c, p).value;
      && q.agb == 0.0 && q.bgb == 0.0 && q.soil == 0.0
      && CellsGhg(c, p, soilDivisor) == Success(Round2(-ResidueTerm(q, p.residueMultiplier)))
  {
    assert DefaultStock(p, c).value == Stock(0.0, 0.0, 0.0);
    var q := Resolve(c, p).value;
    assert q.agb == 0.0 && q.bgb == 0.0 && q.soil == 0.0;
    assert SoilTerm(q, soilDivisor) == 0.0;
  }

  /** Unknown tillage or input option (with no positive local factor): the factor is 0 and
      the soil term vanishes, whatever the soil stock. */
  lemma UnknownOptionZeroFactor(c: Cells, p: ParamBundle, soilDivisor: real)
    requires soilDivisor > 0.0
    requires !Raises(c)
    requires || (c.localTillageFactor <= 0.0 && !(c.tillage.RStr? && c.tillage.str in p.removalFactors.tillage))
             || (c.localInputFactor <= 0.0 && !(c.inputs.RStr? && c.inputs.str in p.removalFactors.input))
    ensures var q := Resolve(c, p).value;
      && SoilTerm(q, soilDivisor) == 0.0
      && Formula(q, p.residueMultiplier, soilDivisor) == BiomassTerm(q) - ResidueTerm(q, p.residueMultiplier)
  {
    var q := Resolve(c, p).value;
    if c.localTillageFactor <= 0.0 && !(c.tillage.RStr? && c.tillage.str in p.removalFactors.tillage) {
      assert q.tillage == 0.0;
    } else {
      assert q.input == 0.0;
    }
  }

  /** An unknown residue option (with no positive local factor) removes the residue term. */
  lemma UnknownResidueNoDeduction(c: Cells, p: ParamBundle, soilDivisor: real)
    requires soilDivisor > 0.0
    requires !Raises(c)
    requires c.localResidueFactor <= 0.0
    requires !(c.residue.RStr? && c.residue.str in p.removalFactors.residue)
    ensures var q := Resolve(c, p).value;
      && ResidueTerm(q, p.residueMultiplier) == 0.0
      && Formula(q, p.residueMultiplier, soilDivisor) == BiomassTerm(q) + SoilTerm(q, soilDivisor)
  {
    assert Resolve(c, p).value.residue == 0.0;
  }

  /** The value is affine in the area: each extra hectare adds (agb + bgb) * 3.664. */
  lemma FormulaAffineInArea(q: Quantities, m: real, soilDivisor: real, extra: real)
    requires soilDivisor > 0.0
    ensures Formula(q.(area := q.area + extra), m, soilDivisor)
            == Formula(q, m, soilDivisor) + (q.agb + q.bgb) * CarbonToCO2 * extra
  {
    var q2 := q.(area := q.area + extra);
    assert SoilTerm(q2, soilDivisor) == SoilTerm(q, soilDivisor);
    assert ResidueTerm(q2, m) == ResidueTerm(q, m);
  }

  /** The soil divisor touches only the soil term, and scales it inversely: doubling the
      amortisation period halves the soil term. */
  lemma DivisorScalesOnlySoil(q: Quantities, m: real, d: real, k: real)
    requires d > 0.0 && k > 0.0
    ensures Formula(q, m, d * k) - SoilTerm(q, d * k) == Formula(q, m, d) - SoilTerm(q, d)
    ensures SoilTerm(q, d * k) * k == SoilTerm(q, d)
  {
    assert q.soil / (d * k) * k == q.soil / d;
  }

  /** The residue term is subtracted whatever the area and divisor: with no area and no
      soil stock the value is exactly minus the residue term. */
  lemma ResidueTermUnconditional(q: Quantities, m: real, soilDivisor: real)
    requires soilDivisor > 0.0
    ensures Formula(q.(area := 0.0, soil := 0.0), m, soilDivisor) == -ResidueTerm(q, m)
  {
    var q0 := q.(area := 0.0, soil := 0.0);
    assert SoilTerm(q0, soilDivisor) == 0.0;
    assert ResidueTerm(q0, m) == ResidueTerm(q, m);
  }

  /** A recognised crop on a positive area has a positive biomass term, overridden or not,
      because every table default is positive. */
  lemma RecognisedCropPositiveBiomass(c: Cells, country: string)
    requires !Raises(c)
    requires c.crop.RStr? && c.crop.str in CropSystems
    requires c.area > 0.0
    ensures BiomassTerm(Resolve(c, GetRegionParams(country)).value) > 0.0
  {
    CropTableShape(ResolveRegion(country), c.crop.str);
    var q := Resolve(c, GetRegionParams(country)).value;
    assert q.agb > 0.0 && q.bgb > 0.0;
    assert q.agb * CarbonToCO2 + q.bgb * CarbonToCO2 > 0.0;
  }

  /** A recognised crop with recognised tillage and input options has a positive soil term. */
  lemma RecognisedOptionsPositiveSoilTerm(c: Cells, country: string, soilDivisor: real)
    requires soilDivisor > 0.0
    requires !Raises(c)
    requires c.crop.RStr? && c.crop.str in CropSystems
    requires c.tillage.RStr? && c.tillage.str in TillageFactors
    requires c.inputs.RStr? && c.inputs.str in InputFactors
    ensures SoilTerm(Resolve(c, GetRegionParams(country)).value, soilDivisor) > 0.0
  {
    var region := ResolveRegion(country);
    CropTableShape(region, c.crop.str);
    RemovalFactorsShape(region, c.tillage.str);
    RemovalFactorsShape(region, c.inputs.str);
    var q := Resolve(c, GetRegionParams(country)).value;
    assert q.soil > 0.0 && q.tillage > 0.0 && q.input > 0.0;
    assert q.soil / soilDivisor > 0.0;
    assert q.soil / soilDivisor * q.tillage > 0.0;
  }

  /** Every residue option carries the same factor, so which recognised option a row picks
      does not change its value. */
  lemma ResidueChoiceIrrelevant(c: Cells, country: string, soilDivisor: real, option: string)
    requires soilDivisor > 0.0
    requires c.residue.RStr? && c.residue.str in ResidueFactors
    requires option in ResidueFactors
    ensures CellsGhg(c.(residue := RStr(option)), GetRegionParams(country), soilDivisor)
            == CellsGhg(c, GetRegionParams(country), soilDivisor)
  {
    var p := GetRegionParams(country);
    var region := ResolveRegion(country);
    RemovalFactorsShape(region, option);
    RemovalFactorsShape(region, c.residue.str);
    var other := c.(residue := RStr(option));
    assert Raises(other) <==> Raises(c);
    if !Raises(c) {
      assert Resolve(other, p).value == Resolve(c, p).value;
    }
  }

  /** The grid row of the worked example: Hedgerow on 10 ha, full tillage, medium input,
      residues retained, no overrides. */
  function ExampleRow(localAgb: real): Row {
    Row(RStr("Hedgerow"), RNum(10.0), RStr("Full tillage"), RStr("Medium C input"), RStr("Retained"),
        RNum(localAgb), RNum(0.0), RNum(0.0), RNum(0.0), RNum(0.0), RNum(0.0))
  }

  /** Indonesia, soil divisor 20: 21.2512 + 1.365 - 3.8919008 = 18.7242992. */
  lemma WorkedExampleExact()
    ensures Formula(Resolve(Clean(ExampleRow(0.0)), GetRegionParams("Indonesia")).value, 0.47, 20.0) == 18.7242992
  {
    var p := GetRegionParams("Indonesia");
    assert p.agbBgbSoil["Hedgerow"] == Stock(0.47, 0.11, 27.3);
    assert Resolve(Clean(ExampleRow(0.0)), p).value == Quantities(10.0, 0.47, 0.11, 27.3, 1.0, 1.0, 2.26);
  }

  /** The same row's value: 18.7242992 rounds to 18.72. The bundle and the row are
      parameters pinned by the precondition because, given as literals, they would let the
      solver evaluate the whole computation by unfolding, which is far slower than this proof. */
  lemma WorkedExample(p: ParamBundle, row: Row)
    requires p == GetRegionParams("Indonesia") && row == ExampleRow(0.0)
    ensures ComputeRowGhg(row, p, 20.0) == Success(18.72)
  {
    WorkedExampleExact();
    Round2Unique(18.7242992, 18.72);
  }

  /** The same row with a local AGB of 5: (5 + 0.11) * 3.664 * 10 + 1.365 - 3.8919008 = 184.7034992. */
  lemma WorkedExampleWithOverride()
    ensures ComputeRowGhg(ExampleRow(5.0), GetRegionParams("Indonesia"), 20.0) == Success(184.70)
  {
    var p := GetRegionParams("Indonesia");
    var q := Resolve(Clean(ExampleRow(5.0)), p).value;
    assert p.agbBgbSoil["Hedgerow"] == Stock(0.47, 0.11, 27.3);
    assert q == Quantities(10.0, 5.0, 0.11, 27.3, 1.0, 1.0, 2.26);
    assert Formula(q, 0.47, 20.0) == 184.7034992;
    Round2Unique(184.7034992, 184.70);
  }
}
