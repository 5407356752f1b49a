/** Country to region key, and region key to the parameter bundle the formula reads. */
module Region {
  import opened Parameters

  const CentralAfricaCountries: seq<string> := [
    "Cameroon",
    "Central African Republic",
    "Republic of Congo",
    "Democratic Republic of the Congo",
    "Equatorial Guinea",
    "Gabon"]

  /** The parameters of one region: crop defaults, removal factors and residue multiplier. */
  datatype ParamBundle = ParamBundle(
    agbBgbSoil: map<string, Stock>,
    removalFactors: RemovalFactors,
    residueMultiplier: real)

  /** `resolve_region`: Indonesia and Brazil are their own region; everything else, listed
      Central-Africa country or not, falls back to "Central Africa". */
  function ResolveRegion(country: string): (r: string)
    ensures r in RegionKeys
    ensures r == country <==> country in RegionKeys
    ensures r != "Central Africa" ==> r == country
  {
    if country == "Indonesia" || country == "Brazil" then country
    else if country in CentralAfricaCountries then "Central Africa"
    else "Central Africa"
  }

  /** `get_region_params`: the three table lookups, which always succeed because every
      resolved region is a key of all three tables. */
  function GetRegionParams(country: string): (p: ParamBundle)
    ensures p.agbBgbSoil.Keys == CropSystems
    ensures p.agbBgbSoil == CropDefaults
    ensures p.residueMultiplier == 0.47
    ensures p.removalFactors == RemovalFactors(TillageFactors, InputFactors, ResidueFactors)
  {
    var region := ResolveRegion(country);
    ParamBundle(
      DefaultAgbBgbSoilByRegion[region],
      RemovalFactorsByRegion[region],
      ResidueMultiplierByRegion[region])
  }

  /** Every listed Central-Africa country resolves to "Central Africa". */
  lemma CentralAfricaCountriesResolve(i: nat)
    requires i < |CentralAfricaCountries|
    ensures ResolveRegion(CentralAfricaCountries[i]) == "Central Africa"
  {
  }

  /** Resolution is idempotent: a resolved region resolves to itself. */
  lemma ResolveRegionIdempotent(country: string)
    ensures ResolveRegion(ResolveRegion(country)) == ResolveRegion(country)
  {
  }

  /** Because every region carries the same tables, the bundle does not depend on the country. */
  lemma GetRegionParamsCountryIndependent(c1: string, c2: string)
    ensures GetRegionParams(c1) == GetRegionParams(c2)
  {
  }

  /** Concrete cases: Brazil stays Brazil, Gabon and an unknown name fall back. */
  lemma ResolveRegionExamples()
    ensures ResolveRegion("Brazil") == "Brazil"
    ensures ResolveRegion("Indonesia") == "Indonesia"
    ensures ResolveRegion("Gabon") == "Central Africa"
    ensures ResolveRegion("Mars") == "Central Africa"
  {
  }
}
