/** The three section totals of the agriculture module and their grand total. Rows whose
    unwrapped crop cell is empty are inert and skipped. A section is summed with any row
    valuation; the calculation uses `compute_row_ghg` with the region's bundle and the
    soil divisor. */
module Aggregation {
  import opened Wrappers
  import opened RawValues
  import opened Rounding
  import opened Region
  import opened Ghg
  import GhgProperties

  /** How a section values one row. */
  type Valuation = Row -> Result<real, RowError>

  /** `compute_row_ghg(r, params, soil_divisor)` as a function of the row alone. */
  function RowGhg(p: ParamBundle, soilDivisor: real): Valuation
    requires soilDivisor > 0.0
  {
    row => ComputeRowGhg(row, p, soilDivisor)
  }

  /** The empty-row skip rule: a row takes part only when its unwrapped crop cell is truthy. */
  predicate Active(row: Row) {
    Truthy(SafeGet(row.cropSystem))
  }

  /** A crop name makes its row count exactly when it is non-empty, bare or wrapped once;
      an empty cell or an empty list never does. */
  lemma ActiveCropCells(row: Row)
    ensures row.cropSystem.RStr? ==> (Active(row) <==> row.cropSystem.str != "")
    ensures row.cropSystem.RList? && row.cropSystem.items != [] ==>
              (Active(row) <==> Truthy(row.cropSystem.items[0]))
    ensures row.cropSystem == RNone || row.cropSystem == RList([]) ==> !Active(row)
  {
  }

  /** Some active row of `rows` fails under `value`. */
  predicate AnyActiveFails(rows: seq<Row>, value: Valuation) {
    exists i | 0 <= i < |rows| :: Active(rows[i]) && value(rows[i]).Failure?
  }

  /** Some active row of `rows` raises in `compute_row_ghg`. */
  predicate AnyActiveRaises(rows: seq<Row>) {
    exists i | 0 <= i < |rows| :: Active(rows[i]) && Raises(Clean(rows[i]))
  }

  /** Every value the valuation produces is a whole number of hundredths. */
  ghost predicate CentsValued(value: Valuation) {
    forall row :: value(row).Success? ==> IsCents(value(row).value)
  }

  /** Adds two partial sums, the left one first: a failure on the left wins, then one on
      the right. Sums of whole hundredths are whole hundredths. */
  function AddResults(a: Result<real, RowError>, b: Result<real, RowError>): (r: Result<real, RowError>)
    ensures r.Success? <==> a.Success? && b.Success?
    ensures r.Success? ==> r.value == a.value + b.value
    ensures r.Success? && IsCents(a.value) && IsCents(b.value) ==> IsCents(r.value)
  {
    if a.Failure? then a
    else if b.Failure? then b
    else CentsAdd(a.value, b.value); Success(a.value + b.value)
  }

  lemma AddResultsAssociative(a: Result<real, RowError>, b: Result<real, RowError>, c: Result<real, RowError>)
    ensures AddResults(AddResults(a, b), c) == AddResults(a, AddResults(b, c))
  {
  }

  /** What one row adds to its section: nothing when it is inert, otherwise its value. */
  function Contribution(row: Row, value: Valuation): Result<real, RowError> {
    if Active(row) then value(row) else Success(0.0)
  }

  /** One section total, `sum(value(r) for r in rows if r[crop])`: the sum over the active
      rows, failing when one of them fails. Summing whole hundredths gives whole hundredths. */
  function SectionTotal(rows: seq<Row>, value: Valuation): (r: Result<real, RowError>)
    ensures CentsValued(value) && r.Success? ==> IsCents(r.value)
    decreases |rows|
  {
    if rows == [] then Success(0.0)
    else AddResults(Contribution(rows[0], value), SectionTotal(rows[1..], value))
  }

  /** The active rows, in order. */
  function ActiveRows(rows: seq<Row>): (a: seq<Row>)
    ensures |a| <= |rows|
    ensures |a| == |rows| ==> a == rows
    ensures forall i | 0 <= i < |a| :: Active(a[i]) && a[i] in rows
    ensures forall i | 0 <= i < |rows| :: Active(rows[i]) ==> rows[i] in a
  {
    if rows == [] then []
    else
      var rest := ActiveRows(rows[1..]);
      assert rows == [rows[0]] + rows[1..];
      if Active(rows[0]) then [rows[0]] + rest else rest
  }

  /** Each active row is kept as often as it occurs, and no inert row is kept. */
  lemma {:induction false} ActiveRowsCounts(rows: seq<Row>)
    ensures forall r :: multiset(ActiveRows(rows))[r] == if Active(r) then multiset(rows)[r] else 0
  {
    if rows != [] {
      ActiveRowsCounts(rows[1..]);
      var rest := ActiveRows(rows[1..]);
      assert rows == [rows[0]] + rows[1..];
      assert multiset(rows) == multiset([rows[0]]) + multiset(rows[1..]);
      if Active(rows[0]) {
        assert multiset([rows[0]] + rest) == multiset([rows[0]]) + multiset(rest);
      }
    }
  }

  /** Filtering keeps the order: the active rows of two blocks are those of the first,
      then those of the second. */
  lemma {:induction false} ActiveRowsAppend(x: seq<Row>, y: seq<Row>)
    ensures ActiveRows(x + y) == ActiveRows(x) + ActiveRows(y)
    decreases |x|
  {
    if x == [] {
      assert x + y == y;
    } else {
      assert (x + y)[0] == x[0];
      assert (x + y)[1..] == x[1..] + y;
      ActiveRowsAppend(x[1..], y);
    }
  }

  /** The values of every row given, or the failure of the first that fails. */
  function RowValues(rows: seq<Row>, value: Valuation): (r: Result<seq<real>, RowError>)
    ensures r.Failure? <==> exists i | 0 <= i < |rows| :: value(rows[i]).Failure?
    ensures r.Success? ==> |r.value| == |rows|
    ensures r.Success? ==> forall i | 0 <= i < |rows| :: value(rows[i]) == Success(r.value[i])
  {
    if rows == [] then Success([])
    else
      var v :- value(rows[0]);
      var rest :- RowValues(rows[1..], value);
      assert forall i | 1 <= i < |rows| :: rows[i] == rows[1..][i - 1];
      Success([v] + rest)
  }

  function Sum(xs: seq<real>): real {
    if xs == [] then 0.0 else xs[0] + Sum(xs[1..])
  }

  /** A section total is the plain sum of the values of exactly the active rows. */
  lemma {:induction false} SectionTotalIsSumOverActiveRows(rows: seq<Row>, value: Valuation)
    ensures RowValues(ActiveRows(rows), value).Success? <==> SectionTotal(rows, value).Success?
    ensures RowValues(ActiveRows(rows), value).Success? ==>
              SectionTotal(rows, value).value == Sum(RowValues(ActiveRows(rows), value).value)
  {
    if rows != [] {
      SectionTotalIsSumOverActiveRows(rows[1..], value);
      if Active(rows[0]) {
        var tail := ActiveRows(rows[1..]);
        assert ActiveRows(rows) == [rows[0]] + tail;
        assert ([rows[0]] + tail)[1..] == tail;
      }
    }
  }

  /** A section fails exactly when one of its active rows fails. */
  lemma {:induction false} SectionTotalFailsIff(rows: seq<Row>, value: Valuation)
    ensures SectionTotal(rows, value).Failure? <==> AnyActiveFails(rows, value)
  {
    if rows != [] {
      SectionTotalFailsIff(rows[1..], value);
      if AnyActiveFails(rows[1..], value) {
        var i :| 0 <= i < |rows[1..]| && Active(rows[1..][i]) && value(rows[1..][i]).Failure?;
        assert rows[i + 1] == rows[1..][i];
      }
      if AnyActiveFails(rows, value) {
        var i :| 0 <= i < |rows| && Active(rows[i]) && value(rows[i]).Failure?;
        if i > 0 {
          assert rows[1..][i - 1] == rows[i];
        }
      }
    }
  }

  /** Section totals are additive over concatenation. */
  lemma {:induction false} SectionTotalAppend(a: seq<Row>, b: seq<Row>, value: Valuation)
    ensures SectionTotal(a + b, value) == AddResults(SectionTotal(a, value), SectionTotal(b, value))
    decreases |a|
  {
    if a == [] {
      assert a + b == b;
    } else {
      assert (a + b)[0] == a[0] && (a + b)[1..] == a[1..] + b;
      SectionTotalAppend(a[1..], b, value);
      AddResultsAssociative(Contribution(a[0], value), SectionTotal(a[1..], value), SectionTotal(b, value));
    }
  }

  /** An inert row contributes nothing, wherever it sits. */
  lemma InertRowIgnored(a: seq<Row>, row: Row, b: seq<Row>, value: Valuation)
    requires !Active(row)
    ensures SectionTotal(a + [row] + b, value) == SectionTotal(a + b, value)
  {
    SectionTotalAppend(a + [row], b, value);
    SectionTotalAppend(a, [row], value);
    SectionTotalAppend(a, b, value);
    assert SectionTotal([row], value) == Success(0.0);
  }

  /** The order of two blocks of rows does not change the total. */
  lemma SectionTotalSwap(a: seq<Row>, b: seq<Row>, value: Valuation)
    ensures SectionTotal(a + b, value) == SectionTotal(b + a, value)
  {
    SectionTotalAppend(a, b, value);
    SectionTotalAppend(b, a, value);
    var x, y := SectionTotal(a, value), SectionTotal(b, value);
    if x.Failure? && y.Failure? {
      assert x.error == y.error;
    }
  }

  /** With no active row the total is 0, whatever the valuation. */
  lemma {:induction false} AllInertZero(rows: seq<Row>, value: Valuation)
    requires forall i | 0 <= i < |rows| :: !Active(rows[i])
    ensures SectionTotal(rows, value) == Success(0.0)
  {
    if rows != [] {
      assert forall i | 0 <= i < |rows[1..]| :: rows[1..][i] == rows[i + 1];
      AllInertZero(rows[1..], value);
    }
  }

  /** `compute_row_ghg` only ever returns whole hundredths. */
  lemma RowGhgCents(p: ParamBundle, soilDivisor: real)
    requires soilDivisor > 0.0
    ensures CentsValued(RowGhg(p, soilDivisor))
  {
  }

  /** Under `compute_row_ghg`, a row fails exactly when it raises. */
  lemma RowGhgFailsIff(rows: seq<Row>, p: ParamBundle, soilDivisor: real)
    requires soilDivisor > 0.0
    ensures AnyActiveFails(rows, RowGhg(p, soilDivisor)) <==> AnyActiveRaises(rows)
  {
  }

  /** The generator sum of one section, row by row as Python evaluates it; the first active
      row that fails ends the computation. */
  method SumSection(rows: seq<Row>, value: Valuation) returns (r: Result<real, RowError>)
    ensures r == SectionTotal(rows, value)
  {
    var total := 0.0;
    var i := 0;
    while i < |rows|
      invariant 0 <= i <= |rows|
      invariant SectionTotal(rows[..i], value) == Success(total)
    {
      SectionTotalAppend(rows[..i], [rows[i]], value);
      assert rows[..i + 1] == rows[..i] + [rows[i]];
      if Active(rows[i]) {
        var v := value(rows[i]);
        if v.Failure? {
          SectionTotalAppend(rows[..i + 1], rows[i + 1..], value);
          assert rows == rows[..i + 1] + rows[i + 1..];
          return Failure(v.error);
        }
        total := total + v.value;
      }
      i := i + 1;
    }
    assert rows[..|rows|] == rows;
    r := Success(total);
  }

  /** The totals shown for the three sections and their sum. */
  datatype Totals = Totals(outgrower: real, agroIndustrial: real, intensification: real, grand: real)

  /** The calculation: with the parameters of the chosen country, as `get_region_params`
      gives them, total the three sections and add the section totals into the grand total.
      A raising row in any section fails it all. */
  function Calculate(p: ParamBundle, soilDivisor: real, outgrower: seq<Row>, agroIndustrial: seq<Row>,
                     intensification: seq<Row>): (r: Result<Totals, RowError>)
    requires soilDivisor > 0.0
    ensures var value := RowGhg(p, soilDivisor);
              r.Success? <==>
                SectionTotal(outgrower, value).Success? && SectionTotal(agroIndustrial, value).Success?
                && SectionTotal(intensification, value).Success?
    ensures var value := RowGhg(p, soilDivisor);
              r.Success? ==>
                && SectionTotal(outgrower, value) == Success(r.value.outgrower)
                && SectionTotal(agroIndustrial, value) == Success(r.value.agroIndustrial)
                && SectionTotal(intensification, value) == Success(r.value.intensification)
    ensures r.Success? ==> r.value.grand == r.value.outgrower + r.value.agroIndustrial + r.value.intensification
    ensures r.Success? ==> IsCents(r.value.grand) && Round2(r.value.grand) == r.value.grand
  {
    var value := RowGhg(p, soilDivisor);
    RowGhgCents(p, soilDivisor);
    var t1 :- SectionTotal(outgrower, value);
    var t2 :- SectionTotal(agroIndustrial, value);
    var t3 :- SectionTotal(intensification, value);
    CentsAdd(t1, t2);
    CentsAdd(t1 + t2, t3);
    Round2OfCents(t1 + t2 + t3);
    Success(Totals(t1, t2, t3, t1 + t2 + t3))
  }

  /** The grand total is the total of all active rows of the three sections taken together,
      and the calculation fails exactly when one of those rows raises. */
  lemma GrandTotalOverAllRows(p: ParamBundle, soilDivisor: real, s1: seq<Row>, s2: seq<Row>, s3: seq<Row>)
    requires soilDivisor > 0.0
    ensures Calculate(p, soilDivisor, s1, s2, s3).Failure? <==> AnyActiveRaises(s1 + s2 + s3)
    ensures Calculate(p, soilDivisor, s1, s2, s3).Success? ==>
              && SectionTotal(s1 + s2 + s3, RowGhg(p, soilDivisor)).Success?
              && Calculate(p, soilDivisor, s1, s2, s3).value.grand
                 == SectionTotal(s1 + s2 + s3, RowGhg(p, soilDivisor)).value
  {
    var value := RowGhg(p, soilDivisor);
    SectionTotalAppend(s1, s2, value);
    SectionTotalAppend(s1 + s2, s3, value);
    SectionTotalFailsIff(s1 + s2 + s3, value);
    RowGhgFailsIff(s1 + s2 + s3, p, soilDivisor);
  }

  /** With no active row anywhere every total, and the grand total, is 0. */
  lemma NoActiveRowsAllZero(p: ParamBundle, soilDivisor: real, s1: seq<Row>, s2: seq<Row>, s3: seq<Row>)
    requires soilDivisor > 0.0
    requires forall i | 0 <= i < |s1| :: !Active(s1[i])
    requires forall i | 0 <= i < |s2| :: !Active(s2[i])
    requires forall i | 0 <= i < |s3| :: !Active(s3[i])
    ensures Calculate(p, soilDivisor, s1, s2, s3) == Success(Totals(0.0, 0.0, 0.0, 0.0))
  {
    var value := RowGhg(p, soilDivisor);
    AllInertZero(s1, value);
    AllInertZero(s2, value);
    AllInertZero(s3, value);
  }

  /** Three sections each holding the worked-example row, plus an empty row in the first:
      the grand total is 3 * 18.72 = 56.16, the sum of the rounded row values. As in
      `WorkedExample`, the bundle and the row are parameters pinned by the precondition,
      so that the solver does not evaluate the whole computation from literals. */
  lemma ThreeSectionsExample(p: ParamBundle, row: Row)
    requires p == GetRegionParams("Indonesia") && row == GhgProperties.ExampleRow(0.0)
    ensures Calculate(p, 20.0, [row, EmptyRow()], [row], [row]) == Success(Totals(18.72, 18.72, 18.72, 56.16))
  {
    GhgProperties.WorkedExample(p, row);
    assert Active(row);
    RepeatedRowTotals(p, 20.0, row, 18.72);
  }

  /** One active row in each section, with an empty row after it in the first. */
  lemma RepeatedRowTotals(p: ParamBundle, soilDivisor: real, row: Row, t: real)
    requires soilDivisor > 0.0
    requires Active(row) && ComputeRowGhg(row, p, soilDivisor) == Success(t)
    ensures Calculate(p, soilDivisor, [row, EmptyRow()], [row], [row]) == Success(Totals(t, t, t, t + t + t))
  {
    var value := RowGhg(p, soilDivisor);
    assert value(row) == Success(t);
    ExampleSectionTotals(value, row, t);
    CalculateFromSections(p, soilDivisor, [row, EmptyRow()], [row], [row], t, t, t);
  }

  /** Known section totals determine the calculation. */
  lemma CalculateFromSections(p: ParamBundle, soilDivisor: real, s1: seq<Row>, s2: seq<Row>, s3: seq<Row>,
                              t1: real, t2: real, t3: real)
    requires soilDivisor > 0.0
    requires SectionTotal(s1, RowGhg(p, soilDivisor)) == Success(t1)
    requires SectionTotal(s2, RowGhg(p, soilDivisor)) == Success(t2)
    requires SectionTotal(s3, RowGhg(p, soilDivisor)) == Success(t3)
    ensures Calculate(p, soilDivisor, s1, s2, s3) == Success(Totals(t1, t2, t3, t1 + t2 + t3))
  {
    var r := Calculate(p, soilDivisor, s1, s2, s3);
    assert r.Success?;
    assert r.value == Totals(t1, t2, t3, t1 + t2 + t3);
  }

  /** A section of one active row, alone or followed by an empty row, totals that row's value. */
  lemma ExampleSectionTotals(value: Valuation, row: Row, t: real)
    requires Active(row) && value(row) == Success(t)
    ensures SectionTotal([row, EmptyRow()], value) == Success(t)
    ensures SectionTotal([row], value) == Success(t)
  {
    assert !Active(EmptyRow());
    assert SectionTotal([EmptyRow()], value) == Success(0.0);
    assert [row, EmptyRow()][1..] == [EmptyRow()];
  }

  /** A freshly added grid row: every cell empty. */
  function EmptyRow(): Row {
    Row(RNone, RNone, RNone, RNone, RNone, RNone, RNone, RNone, RNone, RNone, RNone)
  }
}
