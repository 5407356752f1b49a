/** The static agriculture reference tables, one entry per region key. Every region
    currently carries identical values. */
module Parameters {

  /** Default carbon stocks of one crop system: above-ground biomass, below-ground biomass, soil. */
  datatype Stock = Stock(agb: real, bgb: real, soil: real)

  /** Removal factors by option name for the three management choices. */
  datatype RemovalFactors = RemovalFactors(
    tillage: map<string, real>,
    input: map<string, real>,
    residue: map<string, real>)

  const RegionKeys: set<string> := {"Central Africa", "Indonesia", "Brazil"}

  const CropSystems: set<string> := {
    "Alley cropping", "Hedgerow", "Multistrata", "Parkland",
    "Perennial fallow", "Shaded perennial", "Silvopasture", "Silvoarable"}

  const ResidueMultiplierByRegion: map<string, real> :=
    map["Central Africa" := 0.47, "Indonesia" := 0.47, "Brazil" := 0.47]

  const CropDefaults: map<string, Stock> := map[
    "Alley cropping" := Stock(2.75, 0.59, 27.3),
    "Hedgerow" := Stock(0.47, 0.11, 27.3),
    "Multistrata" := Stock(2.98, 0.72, 27.3),
    "Parkland" := Stock(0.59, 0.21, 27.3),
    "Perennial fallow" := Stock(5.3, 1.27, 27.3),
    "Shaded perennial" := Stock(1.82, 0.44, 27.3),
    "Silvopasture" := Stock(2.91, 0.79, 27.3),
    "Silvoarable" := Stock(5.09, 1.22, 27.3)]

  const DefaultAgbBgbSoilByRegion: map<string, map<string, Stock>> :=
    map region | region in RegionKeys :: CropDefaults

  const TillageFactors: map<string, real> :=
    map["Full tillage" := 1.0, "Reduced tillage" := 1.04, "No tillage" := 1.1]

  const InputFactors: map<string, real> := map[
    "Low C input" := 0.92,
    "Medium C input" := 1.0,
    "High C input, no manure" := 1.11,
    "High C input, with manure" := 1.44]

  const ResidueFactors: map<string, real> :=
    map["Burned" := 2.26, "Retained" := 2.26, "Exported" := 2.26]

  const RemovalFactorsByRegion: map<string, RemovalFactors> :=
    map region | region in RegionKeys :: RemovalFactors(TillageFactors, InputFactors, ResidueFactors)

  /** The three tables are keyed by exactly the three region names. */
  lemma TablesKeyedByRegions()
    ensures ResidueMultiplierByRegion.Keys == RegionKeys
    ensures DefaultAgbBgbSoilByRegion.Keys == RegionKeys
    ensures RemovalFactorsByRegion.Keys == RegionKeys
  {
  }

  /** Every region lists the same eight crop systems, each with soil default 27.3 and
      strictly positive biomass defaults. */
  lemma CropTableShape(region: string, crop: string)
    requires region in RegionKeys
    ensures DefaultAgbBgbSoilByRegion[region].Keys == CropSystems
    ensures crop in CropSystems ==> DefaultAgbBgbSoilByRegion[region][crop].soil == 27.3
    ensures crop in CropSystems ==> DefaultAgbBgbSoilByRegion[region][crop].agb > 0.0
    ensures crop in CropSystems ==> DefaultAgbBgbSoilByRegion[region][crop].bgb > 0.0
  {
  }

  /** The residue multiplier is 0.47 in every region. */
  lemma ResidueMultiplierUniform(region: string)
    requires region in RegionKeys
    ensures ResidueMultiplierByRegion[region] == 0.47
  {
  }

  /** Removal-factor options and values: tillage 1, 1.04, 1.1; input 0.92, 1, 1.11, 1.44;
      every residue option 2.26. All are strictly positive. */
  lemma RemovalFactorsShape(region: string, option: string)
    requires region in RegionKeys
    ensures RemovalFactorsByRegion[region].tillage ==
              map["Full tillage" := 1.0, "Reduced tillage" := 1.04, "No tillage" := 1.1]
    ensures RemovalFactorsByRegion[region].input.Keys ==
              {"Low C input", "Medium C input", "High C input, no manure", "High C input, with manure"}
    ensures RemovalFactorsByRegion[region].input["Low C input"] == 0.92
    ensures RemovalFactorsByRegion[region].input["Medium C input"] == 1.0
    ensures RemovalFactorsByRegion[region].input["High C input, no manure"] == 1.11
    ensures RemovalFactorsByRegion[region].input["High C input, with manure"] == 1.44
    ensures RemovalFactorsByRegion[region].residue.Keys == {"Burned", "Retained", "Exported"}
    ensures option in RemovalFactorsByRegion[region].residue ==>
              RemovalFactorsByRegion[region].residue[option] == 2.26
    ensures option in RemovalFactorsByRegion[region].tillage ==>
              RemovalFactorsByRegion[region].tillage[option] > 0.0
    ensures option in RemovalFactorsByRegion[region].input ==>
              RemovalFactorsByRegion[region].input[option] > 0.0
  {
  }
}
