/** Python's `float(str)` for the decimal literals a grid cell can hold, read one
    character at a time: optional surrounding ASCII whitespace, an optional sign, digits
    with at most one decimal point (at least one digit in all), and an optional exponent
    `e`/`E` with an optional sign and at least one digit. Anything else is a `ValueError`,
    modelled as `None`. */
module NumParse {
  import opened Wrappers

  predicate IsDigit(c: char) {
    '0' <= c <= '9'
  }

  /** Space and the control characters tab, line feed, vertical tab, form feed and carriage return. */
  predicate IsSpace(c: char) {
    c == ' ' || ('\t' <= c <= '\r')
  }

  predicate AllDigits(s: string) {
    forall i | 0 <= i < |s| :: IsDigit(s[i])
  }

  function DigitValue(c: char): (d: nat)
    requires IsDigit(c)
    ensures d < 10
  {
    c as int - '0' as int
  }

  function DigitChar(d: nat): (c: char)
    requires d < 10
    ensures IsDigit(c) && DigitValue(c) == d
  {
    ('0' as int + d) as char
  }

  /** m * 10^e for a whole exponent of either sign, one power of ten at a time. */
  function Scale(m: real, e: int): (r: real)
    ensures m >= 0.0 ==> r >= 0.0
    ensures e == 0 ==> r == m
    decreases if e >= 0 then e else -e
  {
    if e == 0 then m
    else if e > 0 then Scale(m * 10.0, e - 1)
    else Scale(m / 10.0, e + 1)
  }

  /** Where the scanner is in the literal. */
  datatype Phase =
    | Leading    // only blanks so far
    | Signed     // after the sign
    | Whole      // in the digits before the point
    | Fraction   // after the point
    | ExpMark    // just after `e` or `E`
    | ExpSign    // after the exponent's sign
    | ExpDigits  // in the exponent's digits
    | Trailing   // in the blanks after a complete literal

  /** Scanner state. All mantissa digits, before and after the point, accumulate into
      `mantissa`; `fracDigits` counts those after the point. */
  datatype Scan = Scan(
    phase: Phase,
    negative: bool,
    sawDigit: bool,
    mantissa: nat,
    fracDigits: nat,
    expNegative: bool,
    exponent: nat)

  const Start: Scan := Scan(Leading, false, false, 0, 0, false, 0)

  /** The value the characters read so far spell. */
  function Value(st: Scan): real {
    var e := (if st.expNegative then -(st.exponent as int) else st.exponent as int) - st.fracDigits;
    var m := Scale(st.mantissa as real, e);
    if st.negative then -m else m
  }

  /** Whether the input may end in this state: after at least one mantissa digit and not
      between an `e` and its first exponent digit. */
  predicate Accepting(st: Scan) {
    || st.phase == Whole || st.phase == ExpDigits || st.phase == Trailing
    || (st.phase == Fraction && st.sawDigit)
  }

  /** Reads one character, or rejects it. */
  function Step(st: Scan, c: char): (r: Option<Scan>)
    ensures r.Some? && !IsDigit(c) ==> r.value.sawDigit == st.sawDigit
  {
    match st.phase
    case Leading =>
      if IsSpace(c) then Some(st)
      else if c == '+' then Some(st.(phase := Signed))
      else if c == '-' then Some(st.(phase := Signed, negative := true))
      else if IsDigit(c) then Some(st.(phase := Whole, sawDigit := true, mantissa := DigitValue(c)))
      else if c == '.' then Some(st.(phase := Fraction))
      else None
    case Signed =>
      if IsDigit(c) then Some(st.(phase := Whole, sawDigit := true, mantissa := DigitValue(c)))
      else if c == '.' then Some(st.(phase := Fraction))
      else None
    case Whole =>
      if IsDigit(c) then Some(st.(mantissa := 10 * st.mantissa + DigitValue(c)))
      else if c == '.' then Some(st.(phase := Fraction))
      else if c == 'e' || c == 'E' then Some(st.(phase := ExpMark))
      else if IsSpace(c) then Some(st.(phase := Trailing))
      else None
    case Fraction =>
      if IsDigit(c) then
        Some(st.(sawDigit := true, mantissa := 10 * st.mantissa + DigitValue(c), fracDigits := st.fracDigits + 1))
      else if st.sawDigit && (c == 'e' || c == 'E') then Some(st.(phase := ExpMark))
      else if st.sawDigit && IsSpace(c) then Some(st.(phase := Trailing))
      else None
    case ExpMark =>
      if c == '+' then Some(st.(phase := ExpSign))
      else if c == '-' then Some(st.(phase := ExpSign, expNegative := true))
      else if IsDigit(c) then Some(st.(phase := ExpDigits, exponent := DigitValue(c)))
      else None
    case ExpSign =>
      if IsDigit(c) then Some(st.(phase := ExpDigits, exponent := DigitValue(c)))
      else None
    case ExpDigits =>
      if IsDigit(c) then Some(st.(exponent := 10 * st.exponent + DigitValue(c)))
      else if IsSpace(c) then Some(st.(phase := Trailing))
      else None
    case Trailing =>
      if IsSpace(c) then Some(st) else None
  }

  /** Runs the scanner over `s`: the value when the input ends in an accepting state. */
  function Run(st: Scan, s: string): Option<real>
    decreases |s|, 1
  {
    if s == [] then (if Accepting(st) then Some(Value(st)) else None)
    else Advance(st, s)
  }

  /** Reads the first character of `s` and runs on over the rest. */
  function Advance(st: Scan, s: string): Option<real>
    requires s != []
    decreases |s|, 0
  {
    match Step(st, s[0])
    case None => None
    case Some(next) => Run(next, s[1..])
  }

  /** One step of the run on a non-empty input. */
  lemma RunCons(st: Scan, s: string)
    requires s != []
    ensures Run(st, s) == (if Step(st, s[0]).None? then None else Run(Step(st, s[0]).value, s[1..]))
  {
  }

  /** All characters of `s` are whitespace. */
  predicate AllSpace(s: string) {
    forall i | 0 <= i < |s| :: IsSpace(s[i])
  }

  /** `float(s)` for a string `s`: `None` where Python raises ValueError. Only a string
      holding at least one digit can be a number. */
  function ParseNum(s: string): (r: Option<real>)
    ensures r.Some? ==> exists i | 0 <= i < |s| :: IsDigit(s[i])
  {
    ParsedHasDigit(s);
    Run(Start, s)
  }

  lemma ParsedHasDigit(s: string)
    ensures Run(Start, s).Some? ==> exists i | 0 <= i < |s| :: IsDigit(s[i])
  {
    if forall i | 0 <= i < |s| :: !IsDigit(s[i]) {
      RunWithoutDigits(Start, s);
    }
  }

  /** Decimal rendering of a natural number, as `str(n)` prints it. */
  function ShowNat(n: nat): (s: string)
    ensures s != [] && AllDigits(s)
  {
    if n < 10 then [DigitChar(n)] else ShowNat(n / 10) + [DigitChar(n % 10)]
  }

  /** Horner evaluation of a digit string onto an accumulator, as the scanner does it. */
  function Horner(acc: nat, s: string): nat
    requires AllDigits(s)
    decreases |s|
  {
    if s == [] then acc else Horner(10 * acc + DigitValue(s[0]), s[1..])
  }

  lemma {:induction false} HornerSnoc(acc: nat, s: string, c: char)
    requires AllDigits(s) && IsDigit(c)
    ensures AllDigits(s + [c])
    ensures Horner(acc, s + [c]) == 10 * Horner(acc, s) + DigitValue(c)
    decreases |s|
  {
    if s != [] {
      assert (s + [c])[1..] == s[1..] + [c];
      HornerSnoc(10 * acc + DigitValue(s[0]), s[1..], c);
    }
  }

  lemma {:induction false} HornerShowNat(n: nat)
    ensures Horner(0, ShowNat(n)) == n
  {
    if n >= 10 {
      HornerShowNat(n / 10);
      HornerSnoc(0, ShowNat(n / 10), DigitChar(n % 10));
    }
  }

  /** In the whole-number phase the scanner reads a run of digits by Horner's rule. */
  lemma {:induction false} RunWholeDigits(st: Scan, s: string)
    requires st.phase == Whole && st.fracDigits == 0 && !st.expNegative && st.exponent == 0
    requires AllDigits(s)
    decreases |s|
    ensures Run(st, s) == Some(var m := Horner(st.mantissa, s) as real; if st.negative then -m else m)
  {
    if s != [] {
      RunCons(st, s);
      RunWholeDigits(st.(mantissa := 10 * st.mantissa + DigitValue(s[0])), s[1..]);
    }
  }

  /** Reading back what `str(n)` prints gives n. */
  lemma ParseShowNat(n: nat)
    ensures ParseNum(ShowNat(n)) == Some(n as real)
  {
    var s := ShowNat(n);
    var first := Start.(phase := Whole, sawDigit := true, mantissa := DigitValue(s[0]));
    assert Step(Start, s[0]) == Some(first);
    RunCons(Start, s);
    RunWholeDigits(first, s[1..]);
    assert Horner(first.mantissa, s[1..]) == Horner(0, s);
    HornerShowNat(n);
  }

  /** Reading back `-` followed by `str(n)` gives -n. */
  lemma ParseShowNegative(n: nat)
    ensures ParseNum(['-'] + ShowNat(n)) == Some(-(n as real))
  {
    var s := ShowNat(n);
    var t := ['-'] + s;
    var signed := Start.(phase := Signed, negative := true);
    assert Step(Start, t[0]) == Some(signed);
    assert t[1..] == s;
    RunCons(Start, t);
    RunCons(signed, s);
    var first := signed.(phase := Whole, sawDigit := true, mantissa := DigitValue(s[0]));
    assert Step(signed, s[0]) == Some(first);
    RunWholeDigits(first, s[1..]);
    assert Horner(first.mantissa, s[1..]) == Horner(0, s);
    HornerShowNat(n);
  }

  /** A trailing whitespace character never changes the outcome, from any state. */
  lemma {:induction false} RunAppendSpace(st: Scan, s: string, c: char)
    requires IsSpace(c)
    ensures Run(st, s + [c]) == Run(st, s)
    decreases |s|
  {
    if s == [] {
      assert [c][1..] == [];
      RunCons(st, [c]);
    } else {
      assert (s + [c])[0] == s[0];
      assert (s + [c])[1..] == s[1..] + [c];
      RunCons(st, s);
      RunCons(st, s + [c]);
      match Step(st, s[0])
      case None =>
      case Some(next) => RunAppendSpace(next, s[1..], c);
    }
  }

  /** Nor does a trailing run of whitespace. */
  lemma {:induction false} RunAppendSpaces(st: Scan, s: string, post: string)
    requires AllSpace(post)
    ensures Run(st, s + post) == Run(st, s)
    decreases |post|
  {
    if post != [] {
      assert s + post == (s + [post[0]]) + post[1..];
      assert AllSpace(post[1..]) by {
        assert forall i | 0 <= i < |post[1..]| :: post[1..][i] == post[i + 1];
      }
      RunAppendSpaces(st, s + [post[0]], post[1..]);
      RunAppendSpace(st, s, post[0]);
    } else {
      assert s + post == s;
    }
  }

  /** Leading whitespace is skipped before the literal starts. */
  lemma {:induction false} RunSkipsLeadingSpaces(pre: string, s: string)
    requires AllSpace(pre)
    ensures Run(Start, pre + s) == Run(Start, s)
    decreases |pre|
  {
    if pre != [] {
      assert (pre + s)[0] == pre[0];
      assert (pre + s)[1..] == pre[1..] + s;
      assert AllSpace(pre[1..]) by {
        assert forall i | 0 <= i < |pre[1..]| :: pre[1..][i] == pre[i + 1];
      }
      RunCons(Start, pre + s);
      assert Step(Start, pre[0]) == Some(Start);
      RunSkipsLeadingSpaces(pre[1..], s);
    } else {
      assert pre + s == s;
    }
  }

  /** Whitespace around a literal, of any kind and length on either side, does not change
      what it parses to. */
  lemma ParseIgnoresSurroundingBlanks(pre: string, s: string, post: string)
    requires AllSpace(pre) && AllSpace(post)
    ensures ParseNum(pre + s + post) == ParseNum(s)
  {
    assert pre + s + post == pre + (s + post);
    RunSkipsLeadingSpaces(pre, s + post);
    RunAppendSpaces(Start, s, post);
  }

  /** Without a mantissa digit the scanner never reaches an accepting state. */
  lemma {:induction false} RunWithoutDigits(st: Scan, s: string)
    requires !st.sawDigit && (st.phase == Leading || st.phase == Signed || st.phase == Fraction)
    requires forall i | 0 <= i < |s| :: !IsDigit(s[i])
    ensures Run(st, s) == None
    decreases |s|
  {
    if s != [] {
      RunCons(st, s);
      match Step(st, s[0])
      case None =>
      case Some(next) =>
        assert forall i | 0 <= i < |s[1..]| :: s[1..][i] == s[i + 1];
        RunWithoutDigits(next, s[1..]);
    }
  }

  /** Strings with no digit at all, such as the empty string, never parse. */
  lemma NoDigitNoNumber(s: string)
    requires forall i | 0 <= i < |s| :: !IsDigit(s[i])
    ensures ParseNum(s) == None
  {
    RunWithoutDigits(Start, s);
  }

  /** Decimal literals read as Python reads them. */
  lemma DecimalExamples()
    ensures ParseNum("2.26") == Some(2.26)
    ensures ParseNum(".5") == Some(0.5)
    ensures ParseNum("5.") == Some(5.0)
  {
    assert Scale(226.0, -2) == Scale(2.26, 0);
    assert Scale(5.0, -1) == 0.5;
  }

  /** A sign and an exponent read as Python reads them. */
  lemma SignedExponentLiteral()
    ensures ParseNum("-1.5e2") == Some(-150.0)
  {
    var t := "-1.5e2";
    var signed := Scan(Signed, true, false, 0, 0, false, 0);
    var whole := Scan(Whole, true, true, 1, 0, false, 0);
    var point := Scan(Fraction, true, true, 1, 0, false, 0);
    var frac := Scan(Fraction, true, true, 15, 1, false, 0);
    var mark := Scan(ExpMark, true, true, 15, 1, false, 0);
    var expo := Scan(ExpDigits, true, true, 15, 1, false, 2);
    assert Step(Start, '-') == Some(signed);
    assert Step(signed, '1') == Some(whole);
    assert Step(whole, '.') == Some(point);
    assert Step(point, '5') == Some(frac);
    assert Step(frac, 'e') == Some(mark);
    assert Step(mark, '2') == Some(expo);
    assert t[5..] == "2" && t[5..][1..] == [];
    RunCons(Start, t);
    RunCons(signed, t[1..]);
    RunCons(whole, t[2..]);
    RunCons(point, t[3..]);
    RunCons(frac, t[4..]);
    RunCons(mark, t[5..]);
    assert Scale(15.0, 1) == Scale(150.0, 0);
    assert Value(expo) == -150.0;
  }

  /** The same literal with surrounding blanks. */
  lemma SignedExponentExample()
    ensures ParseNum(" -1.5e2 ") == Some(-150.0)
  {
    assert AllSpace(" ");
    ParseIgnoresSurroundingBlanks(" ", "-1.5e2", " ");
    assert " " + "-1.5e2" + " " == " -1.5e2 ";
    SignedExponentLiteral();
  }

  /** A negative exponent scales down. */
  lemma NegativeExponentExample()
    ensures ParseNum("1e-2") == Some(0.01)
  {
    assert Scale(1.0, -2) == Scale(0.01, 0);
  }

  /** Malformed literals raise ValueError. */
  lemma RejectedExamples()
    ensures ParseNum(".") == None && ParseNum("1e") == None && ParseNum("1.2.3") == None
    ensures ParseNum("abc") == None && ParseNum("") == None && ParseNum("- 1") == None
  {
  }
}
