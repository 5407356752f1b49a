/** Cell values as the data editor hands them over, and the two normalisers
    `safe_get` and `safe_float` that clean them before the formula runs. */
module RawValues {
  import opened Wrappers
  import NumParse

  /** A grid cell: a number, a string, an empty cell (`None`), or a list, which the
      editor sometimes produces instead of the bare value. */
  datatype Raw = RNum(num: real) | RStr(str: string) | RNone | RList(items: seq<Raw>)

  /** `safe_get`: removes one level of list wrapping; an empty list becomes `None`. */
  function SafeGet(v: Raw): (r: Raw)
    ensures v.RList? && v.items != [] ==> r == v.items[0]
    ensures v.RList? && v.items == [] ==> r == RNone
    ensures !v.RList? ==> r == v
    ensures r.RList? <==> NestedList(v)
  {
    match v
    case RList(items) => if |items| > 0 then items[0] else RNone
    case _ => v
  }

  /** A list whose first item is itself a list: the cells that stay lists after `safe_get`. */
  predicate NestedList(v: Raw) {
    v.RList? && v.items != [] && v.items[0].RList?
  }

  /** Python truthiness of a cell value. */
  predicate Truthy(v: Raw) {
    match v
    case RNum(x) => x != 0.0
    case RStr(s) => s != []
    case RNone => false
    case RList(items) => items != []
  }

  /** The falsy cells are exactly 0, the empty string, `None` and the empty list. */
  lemma FalsyCells(v: Raw)
    ensures !Truthy(v) <==> v == RNum(0.0) || v == RStr("") || v == RNone || v == RList([])
  {
  }

  /** `float(v)`: `None` where Python raises TypeError (for `None` and lists) or ValueError
      (for a string that is not a decimal literal). */
  function Coerce(v: Raw): (r: Option<real>)
    ensures v.RNum? ==> r == Some(v.num)
    ensures v.RStr? ==> r == NumParse.ParseNum(v.str)
    ensures v.RNone? || v.RList? ==> r.None?
  {
    match v
    case RNum(x) => Some(x)
    case RStr(s) => NumParse.ParseNum(s)
    case RNone => None
    case RList(_) => None
  }

  /** `safe_float`: total; the coerced value of the unwrapped cell, or 0.0 when it does not coerce. */
  function SafeFloat(v: Raw): (r: real)
    ensures Coerce(SafeGet(v)).Some? ==> r == Coerce(SafeGet(v)).value
    ensures Coerce(SafeGet(v)).None? ==> r == 0.0
  {
    Coerce(SafeGet(v)).GetOr(0.0)
  }

  /** Wrapping a value in a one-element list, as the editor does, is undone by `safe_get`. */
  lemma SafeGetUndoesWrap(x: Raw, rest: seq<Raw>)
    ensures SafeGet(RList([x] + rest)) == x
  {
  }

  /** `safe_get` strips exactly one level: a doubly wrapped value stays a list. */
  lemma SafeGetStripsOneLevel(x: Raw)
    ensures SafeGet(RList([RList([x])])) == RList([x])
    ensures SafeGet(SafeGet(RList([RList([x])]))) == x
  {
  }

  /** `safe_get` is idempotent on everything that is not a list of lists. */
  lemma SafeGetIdempotent(v: Raw)
    requires !(SafeGet(v).RList?)
    ensures SafeGet(SafeGet(v)) == SafeGet(v)
  {
  }

  /** A singly wrapped cell coerces like the bare cell; a nested list gives 0.0. */
  lemma SafeFloatSeesThroughOneWrap(x: Raw)
    ensures !x.RList? ==> SafeFloat(RList([x])) == SafeFloat(x)
    ensures NestedList(x) ==> SafeFloat(x) == 0.0
    ensures SafeFloat(RList([RList([x])])) == 0.0
    ensures SafeFloat(RList([])) == 0.0 && SafeFloat(RNone) == 0.0
  {
  }

  /** A numeric string coerces to the number it spells, wrapped or not. */
  lemma SafeFloatOfNumeral(n: nat)
    ensures SafeFloat(RStr(NumParse.ShowNat(n))) == n as real
    ensures SafeFloat(RList([RStr(NumParse.ShowNat(n))])) == n as real
  {
    NumParse.ParseShowNat(n);
  }

  /** A string without digits, such as the empty cell text, coerces to 0.0. */
  lemma SafeFloatOfNonNumeric(s: string)
    requires forall i | 0 <= i < |s| :: !NumParse.IsDigit(s[i])
    ensures SafeFloat(RStr(s)) == 0.0
  {
    NumParse.NoDigitNoNumber(s);
  }
}
