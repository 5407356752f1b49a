# Agriculture emissions engine: a Dafny model

This project models the calculation core of the CAFI mitigation tool's agriculture module.
The core estimates the greenhouse-gas emission reduction, in tCO2e, of agricultural activity
rows grouped into three sections: 3.1 Outgrower, 3.2 Agro-industrial and 3.3 Intensification.
It is built from five pieces:

- **Parameter tables** (`Parameters`). These are the three static tables of `parameters.py`, stored as
  string-keyed maps built over the region keys "Central Africa", "Indonesia" and "Brazil".
- **Region resolver** (`Region`). `ResolveRegion` maps a country to a region key.
  `GetRegionParams` turns that key into a `ParamBundle`.
- **Row normaliser** (`RawValues`, `NumParse`). A grid cell is a `Raw` value: a number, a string,
  `None` or a list. `SafeGet` removes one level of list wrapping. `SafeFloat` coerces a cell
  to a number and falls back to 0.0. Python's `float()` on a string is modelled by
  `NumParse.ParseNum`, a character-by-character scanner for decimal literals (optional blanks,
  sign, digits, point, exponent).
- **Per-row formula** (`Ghg`, with laws in `GhgProperties`). `Ghg.Clean` turns a row into its
  cleaned `Cells`: four unwrapped name cells and seven coerced numbers. `Ghg.Resolve` applies the
  rule "a positive local value wins, otherwise the table default, otherwise 0" to six
  quantities. The formula is the biomass term plus the soil term minus the residue term
  (`BiomassTerm`, `SoilTerm`, `ResidueTerm`). `CellsGhg` rounds its value to hundredths
  (`Rounding.Round2`), and `ComputeRowGhg` is `CellsGhg` of the cleaned row.
- **Aggregation** (`Aggregation`). A section total sums the row values over the rows whose
  unwrapped crop cell is truthy. The grand total is the sum of the three section totals.
  The section laws are proved for any row valuation (`Valuation`, a function from rows to
  results). `RowGhg` is the valuation `compute_row_ghg` gives.

Numbers are Dafny `real`s. The calculation takes the parameter bundle (which the interface
obtains once as `get_region_params(country)`, agri.py:120), the soil divisor and the three row
sequences as arguments, so it needs no global state.

Unknown names degrade to zero so that partially filled rows still compute, but
`compute_row_ghg` is not total. In the code, a `dict.get` with a list key raises
`TypeError`, and `safe_get` removes only one level of wrapping. So a row raises when its crop
cell is a nested list, because the crop lookup always runs. A row also raises when a tillage,
input or residue cell is a nested list and the matching local factor is not positive, because
the table is consulted only in that case. The model returns a `Result`, and `Ghg.Raises`
names exactly these rows. A raising active row makes its section, and the whole calculation,
fail.

## Model

| member | source | states |
|---|---|---|
| `NumParse.ParseNum` | agri.py:60-63 | `float` of a string: only a string holding at least one digit can give a number |
| `NumParse.ParseShowNat` | agri.py:61 | `float` of the decimal digits of n is n |
| `NumParse.ParseShowNegative` | agri.py:61 | `float` of "-" followed by the digits of n is -n |
| `NumParse.ParseIgnoresSurroundingBlanks` | agri.py:61 | any runs of ASCII whitespace (space, tab, line feed, vertical tab, form feed, carriage return) before and after a literal, of any lengths, do not change what it parses to |
| `NumParse.NoDigitNoNumber` | agri.py:60-63 | a string with no digit, including the empty string, does not parse (ValueError) |
| `NumParse.DecimalExamples` | agri.py:61 | "2.26", ".5" and "5." read as 2.26, 0.5 and 5 |
| `NumParse.SignedExponentLiteral` | agri.py:61 | "-1.5e2" reads as -150 |
| `NumParse.SignedExponentExample` | agri.py:61 | " -1.5e2 " reads as -150 |
| `NumParse.NegativeExponentExample` | agri.py:61 | "1e-2" reads as 0.01 |
| `NumParse.RejectedExamples` | agri.py:60-63 | ".", "1e", "1.2.3", "abc", "" and "- 1" do not parse (ValueError) |
| `RawValues.SafeGet` | agri.py:45-52 | a non-empty list gives its first element, an empty list gives None, anything else is unchanged; the result is still a list exactly when the cell is a list whose first item is a list |
| `RawValues.SafeGetUndoesWrap` | agri.py:50-51 | wrapping a value in a list, as the editor does, is undone by `safe_get` |
| `RawValues.SafeGetStripsOneLevel` | agri.py:50-52 | only one level is removed: a doubly wrapped value is still a list after one `safe_get` |
| `RawValues.SafeGetIdempotent` | agri.py:50-52 | `safe_get` is idempotent unless its result is itself a list |
| `RawValues.Coerce` | agri.py:61-63 | `float(v)`: a number gives itself; a string gives what the decimal parser reads, nothing on ValueError; None and lists raise TypeError |
| `RawValues.FalsyCells` | agri.py:172 | a cell is falsy exactly when it is 0, the empty string, None or the empty list |
| `RawValues.SafeFloat` | agri.py:54-63 | total: the coerced value of the unwrapped cell, or 0.0 when `float` raises |
| `RawValues.SafeFloatSeesThroughOneWrap` | agri.py:59-63 | a singly wrapped cell coerces like the bare cell; a nested list, an empty list and None give 0.0 |
| `RawValues.SafeFloatOfNumeral` | agri.py:59-61 | a numeral string, wrapped or not, coerces to its number |
| `RawValues.SafeFloatOfNonNumeric` | agri.py:59-63 | a string without digits coerces to 0.0 |
| `Parameters.TablesKeyedByRegions` | parameters.py:5-37 | all three tables are keyed by exactly the three region names |
| `Parameters.CropTableShape` | parameters.py:11-23 | every region lists the same eight crop systems, each with soil 27.3 and positive AGB and BGB |
| `Parameters.ResidueMultiplierUniform` | parameters.py:5-9 | the residue multiplier is 0.47 in every region |
| `Parameters.RemovalFactorsShape` | parameters.py:25-37 | tillage factors are 1, 1.04 and 1.1; input factors are 0.92, 1, 1.11 and 1.44; every residue option is 2.26; all are positive |
| `Region.ResolveRegion` | agri.py:25-35 | the result is always a region key; it equals the country exactly when the country is a region key, and otherwise it is "Central Africa" |
| `Region.CentralAfricaCountriesResolve` | agri.py:16-33 | every listed Central-Africa country resolves to "Central Africa" |
| `Region.ResolveRegionIdempotent` | agri.py:29-35 | resolving a resolved region changes nothing |
| `Region.ResolveRegionExamples` | agri.py:29-35 | Brazil and Indonesia map to themselves; Gabon and an unknown name map to "Central Africa" |
| `Region.GetRegionParams` | agri.py:37-43 | the three lookups succeed for every country and give the crop table of parameters.py with its eight crops and their stocks, multiplier 0.47 and the shared factor tables |
| `Region.GetRegionParamsCountryIndependent` | agri.py:37-43 | with the current tables, every country gets the same bundle |
| `Rounding.Round2` | agri.py:104 | the result is a whole number of hundredths within (x - 0.005, x + 0.005] |
| `Rounding.Round2Unique` | agri.py:104 | that window holds only one whole number of hundredths, so the contract determines the rounding |
| `Rounding.Round2Idempotent` | agri.py:104 | rounding twice is the same as rounding once |
| `Rounding.CentsAdd` | agri.py:172-187 | a sum of whole hundredths is whole hundredths, so section and grand totals are |
| `Ghg.Clean` | agri.py:72-84 | a cleaned name cell is still a list exactly when the raw cell is a list whose first item is a list |
| `Ghg.Lookup` | agri.py:87 | `dict.get`: the entry for a known name, the default for any other hashable key, TypeError for a list |
| `Ghg.DefaultStock` | agri.py:87 | the crop lookup fails exactly when the unwrapped crop cell is still a list; otherwise it gives the crop's table entry, or (0, 0, 0) for an unknown crop |
| `Ghg.Override` | agri.py:90-92 | a local value above 0 wins; otherwise the default |
| `Ghg.Factor` | agri.py:95-97 | a positive local factor wins without consulting the table; otherwise the table value (0 when the option is unknown), failing only for a list option |
| `Ghg.Raises` | agri.py:87-97 | only a name cell that is still a list can raise; when all three local factors are positive, only the crop can |
| `Ghg.Resolve` | agri.py:71-97 | the six quantities follow the override rule; the row fails exactly when `Raises` holds |
| `Ghg.BiomassTerm` | agri.py:100 | `carbon_biomass` is 0 on no area or when agb + bgb is 0, and on a positive area has the sign of agb + bgb (positive, zero or negative) |
| `Ghg.SoilTerm` | agri.py:101 | `soil_term` is 0 when the soil stock or either factor is 0, non-negative for non-negative inputs, positive for positive ones |
| `Ghg.ResidueTerm` | agri.py:102 | `residue_term` is 0 when the residue factor or the multiplier is 0, positive when both are |
| `Ghg.Formula` | agri.py:100-104 | with non-negative quantities the residue term is the only deduction; with no stocks the value is minus the residue term |
| `Ghg.CellsGhg` | agri.py:86-104 | fails exactly when `Raises` holds; otherwise whole hundredths within half a hundredth of biomass plus soil minus residue |
| `Ghg.ComputeRowGhg` | agri.py:65-104 | fails exactly when the cleaned row raises; otherwise whole hundredths within half a hundredth of the formula's exact value for the cleaned row |
| `GhgProperties.NonPositiveOverrideIsAbsent` | agri.py:89-97 | clearing every override of 0 or below leaves the value unchanged |
| `GhgProperties.PositiveOverridesIgnoreTables` | agri.py:86-97 | with six positive overrides, the crop table and the removal-factor tables do not affect the value; the residue multiplier still does, and the crop lookup still runs |
| `GhgProperties.ScalarNamesNeverFail` | agri.py:72-97 | a row whose name cells are not nested lists never fails |
| `GhgProperties.RowRaisesIff` | agri.py:72-97 | a row raises exactly when its crop cell is a nested list, or an option cell is a nested list while its local factor reads as 0 or below |
| `GhgProperties.EditorWrappingIgnored` | agri.py:72-84 | wrapping every cell of a row of plain values in a one-element list, as the editor may, changes neither the cleaned cells nor the value |
| `GhgProperties.UnknownCropZeroStocks` | agri.py:87-92 | an unknown crop with no positive stock overrides gets stocks (0, 0, 0), so the value is minus the residue term, rounded |
| `GhgProperties.UnknownOptionZeroFactor` | agri.py:95-101 | an unknown tillage or input option with no positive local factor gets factor 0, so the soil term vanishes |
| `GhgProperties.UnknownResidueNoDeduction` | agri.py:97-102 | an unknown residue option with no positive local factor removes the residue term |
| `GhgProperties.FormulaAffineInArea` | agri.py:100-104 | each extra hectare adds (agb + bgb) * 3.664 to the value |
| `GhgProperties.DivisorScalesOnlySoil` | agri.py:101 | the soil divisor affects only the soil term, which scales inversely with it |
| `GhgProperties.ResidueTermUnconditional` | agri.py:102-104 | the residue term is subtracted whatever the area and the divisor |
| `GhgProperties.RecognisedCropPositiveBiomass` | agri.py:100 | a recognised crop on a positive area has a positive biomass term, overridden or not |
| `GhgProperties.RecognisedOptionsPositiveSoilTerm` | agri.py:101 | a recognised crop with recognised tillage and input options has a positive soil term |
| `GhgProperties.ResidueChoiceIrrelevant` | parameters.py:34 | switching between recognised residue options never changes a row's value |
| `GhgProperties.WorkedExampleExact` | agri.py:100-102 | Indonesia, divisor 20, Hedgerow on 10 ha, defaults only: the unrounded value is exactly 18.7242992 |
| `GhgProperties.WorkedExample` | agri.py:65-104 | the same row's value is 18.72 |
| `GhgProperties.WorkedExampleWithOverride` | agri.py:90-104 | the same row with local AGB 5 gives 184.70 |
| `Aggregation.ActiveCropCells` | agri.py:171-172 | a crop name makes its row count exactly when it is non-empty, bare or wrapped once; an empty cell or empty list never does |
| `Aggregation.ActiveRows` | agri.py:172 | the generator's filter keeps only active rows, keeps every active row, and keeps the whole section only when every row is active |
| `Aggregation.ActiveRowsCounts` | agri.py:172 | each active row is kept as often as it occurs in the section, and no inert row is kept |
| `Aggregation.ActiveRowsAppend` | agri.py:172 | the filter keeps the order: the active rows of two blocks are those of the first, then those of the second |
| `Aggregation.AddResults` | agri.py:172 | adding two partial sums succeeds exactly when both do, and the value is their sum |
| `Aggregation.AddResultsAssociative` | agri.py:172 | grouping partial sums differently gives the same result, failure included |
| `Aggregation.SectionTotal` | agri.py:172-174 | a section total of whole-hundredth row values is whole hundredths |
| `Aggregation.RowValues` | agri.py:172 | the values of all rows, failing exactly when one row's value fails |
| `Aggregation.SectionTotalIsSumOverActiveRows` | agri.py:172 | a section total is the plain sum of the values of exactly the rows whose unwrapped crop cell is truthy |
| `Aggregation.SectionTotalFailsIff` | agri.py:172-174 | a section fails exactly when the value of one of its active rows fails |
| `Aggregation.SectionTotalAppend` | agri.py:172 | section totals are additive over concatenated rows |
| `Aggregation.InertRowIgnored` | agri.py:171-172 | an inert row contributes nothing, wherever it sits |
| `Aggregation.SectionTotalSwap` | agri.py:172 | reordering two blocks of rows does not change the total |
| `Aggregation.AllInertZero` | agri.py:171-172 | a section with no active row totals 0 |
| `Aggregation.RowGhgCents` | agri.py:104 | every value `compute_row_ghg` returns is whole hundredths |
| `Aggregation.RowGhgFailsIff` | agri.py:172 | under `compute_row_ghg`, an active row fails exactly when it raises |
| `Aggregation.SumSection` | agri.py:172-174 | the row-by-row generator sum, stopping at the first raising row, equals `SectionTotal` |
| `Aggregation.Calculate` | agri.py:172-187 | succeeds exactly when all three sections do; each field is its own section's total; the grand total is their sum and already whole hundredths, so rounding it again changes nothing |
| `Aggregation.GrandTotalOverAllRows` | agri.py:172-187 | the grand total is the total of all active rows of the three sections together; the calculation fails exactly when one of them raises |
| `Aggregation.NoActiveRowsAllZero` | agri.py:172-187 | with no active row anywhere, every total is 0 |
| `Aggregation.CalculateFromSections` | agri.py:172-187 | known section totals t1, t2, t3 give the totals (t1, t2, t3, t1 + t2 + t3) |
| `Aggregation.RepeatedRowTotals` | agri.py:171-187 | one active row of value t in each section, with an empty row after it in the first, gives (t, t, t, 3t) |
| `Aggregation.ThreeSectionsExample` | agri.py:172-187 | with Indonesia's parameters and divisor 20, three sections that each hold the worked-example row (with an empty row in the first) give 18.72 each and 56.16 in all |

## Left out

- The Streamlit interface is not modelled: `render_agri_module` apart from the sum
  expressions, plus `general_info.py` and `app.py`. It consists of widgets, tabs, layout and
  the bar charts.
- The session store in `shared_state.py` is not modelled. The parameter bundle, soil divisor and the three
  row sequences are arguments. The totals are returned rather than stored. The display at
  agri.py:184-187 adds whatever totals are stored, which is 0.0 before the first calculation.
  The model adds the totals it has just computed.
- The per-activity breakdown table and `agri_grand_total`, read at app.py:49-50, are not
  modelled. No code in the module writes them.
- The number formatting for display (`f"{t:,.2f}"`) is not modelled.
- A soil divisor of 0 or below is excluded by the `requires soilDivisor > 0.0` clauses. The
  interface enforces a minimum of 1, and Python's ZeroDivisionError is not modelled.
- Rounding.Round2: rounds halves upward on exact reals. Python's `round(x, 2)` rounds the
  binary double and breaks ties to even, so values that sit on or near a tie can differ by
  0.01.
- NumParse.ParseNum: accepts ASCII whitespace, a sign, digits with an optional point and an
  optional exponent. Python's `float()` also accepts `inf`, `nan`, `infinity`, digit-group
  underscores, non-ASCII digits and non-ASCII whitespace. The model rejects all of these, so
  such strings coerce to 0.0.
- RawValues.Truthy: an empty numeric pandas cell is NaN, and NaN is truthy in Python. The
  model has no NaN, so such a row would be active in Python and is inert here. Cell types
  other than numbers, strings, None and lists are not modelled. A boolean is a number in
  Python and can be written as `RNum`.
- IEEE-754 behaviour (overflow to infinity, NaN arithmetic, binary representation error) is
  not modelled, because all arithmetic is on exact reals.
