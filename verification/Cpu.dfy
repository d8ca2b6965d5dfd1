/** validateCPU of internal/cnpg/validate.go against the regular expression with which the
    form checks the same field (definition/topologies/replicaSet/topology.yaml). */
module Cpu {
  import opened Common
  import opened Regexes
  import opened Versions

  // ---- The expression ----

  const ZERO := Range('0', '0')
  const DOT := Range('.', '.')
  const MILLI := Range('m', 'm')

  /** [0-9]{1,3} */
  const DECIMALS := Then(DIGIT, Optional(Then(DIGIT, Optional(DIGIT))))
  /** [1-9][0-9]*(\.[0-9]{1,3})? */
  const CORES := Then(NONZERO, Then(Many(DIGIT), Optional(Then(DOT, DECIMALS))))
  /** [1-9][0-9]{0,2}|0[1-9][0-9]?|00[1-9] */
  const PART := Either(Then(NONZERO, Optional(Then(DIGIT, Optional(DIGIT)))),
                       Either(Then(ZERO, Then(NONZERO, Optional(DIGIT))), Then(ZERO, Then(ZERO, NONZERO))))
  /** 0?\.(...) */
  const BELOW_ONE := Then(Optional(ZERO), Then(DOT, PART))
  /** [1-9][0-9]*m */
  const MILLICORES := Then(NONZERO, Then(Many(DIGIT), MILLI))

  const FORM := Either(CORES, Either(BELOW_ONE, MILLICORES))

  // ---- Quantities ----

  /** A quantity in plain decimal notation, possibly in milli-units. */
  datatype Notation = Notation(whole: string, fraction: string, point: bool, milli: bool) {
    predicate Valid() { AllDigits(whole) && AllDigits(fraction) && whole + fraction != "" && (fraction == "" || point) }
  }

  function ReadUnit(whole: string, fraction: string, point: bool, unit: string): Option<Notation> {
    if whole + fraction == "" || unit !in {"", "m"} then None
    else Some(Notation(whole, fraction, point, unit == "m"))
  }

  /** None for every other notation, such as signs, exponents and the suffixes k or Mi. */
  function Read(s: string): (r: Option<Notation>)
    ensures r.Some? ==> r.value.Valid()
  {
    var n := Leading(s);
    if n < |s| && s[n] == '.' then
      var rest := s[n + 1..];
      ReadUnit(s[..n], rest[..Leading(rest)], true, rest[Leading(rest)..])
    else ReadUnit(s[..n], "", false, s[n..])
  }

  function Power(n: nat): (p: nat)
    ensures p > 0
  {
    if n == 0 then 1 else 10 * Power(n - 1)
  }

  /** Division with the remainder rounded up. */
  function CeilDiv(a: nat, b: nat): (q: nat)
    requires b > 0
    ensures a <= b * q < a + b
  {
    var q := (a + b - 1) / b;
    assert b * q <= a + b - 1 < b * q + b;
    q
  }

  const MICRO := 1_000_000

  /** In billionths, the finest a quantity can be; what is finer is rounded up. */
  function Nanos(w: Notation): nat
    requires w.Valid()
  {
    CeilDiv(Decimal(w.whole + w.fraction, 0) * Power(9), Power(|w.fraction| + if w.milli then 3 else 0))
  }

  type Int64 = n: int | MIN_INT <= n <= MAX_INT

  /** The value in millis, rounded up, does not fit 64 bits. */
  predicate Overflows(nanos: nat) {
    CeilDiv(nanos, MICRO) > MAX_INT
  }

  /** beyond is whatever the library returns for a value that does not fit. */
  function MilliValue(nanos: nat, beyond: Int64): Int64 {
    if Overflows(nanos) then beyond else CeilDiv(nanos, MICRO)
  }

  datatype CpuError = NotPositive | FinerThanMillicore

  /** The quantity is rebuilt from its milli value and compared; no 64-bit result of an
      overflow is equal to it. */
  function ValidateCPU(nanos: int, beyond: Int64): (r: Result<(), CpuError>)
    ensures r.Ok? <==> nanos > 0 && nanos % MICRO == 0 && nanos / MICRO <= MAX_INT
  {
    if nanos <= 0 then Err(NotPositive)
    else if MilliValue(nanos, beyond) * MICRO != nanos then Err(FinerThanMillicore)
    else Ok(())
  }

  // ---- The two agree ----

  predicate NoSuperfluousZero(whole: string) { |whole| <= 1 || whole[0] != '0' }

  /** No superfluous leading zeros; a decimal point is followed by one to three digits and not
      combined with milli-units. */
  predicate Tidy(w: Notation) {
    && NoSuperfluousZero(w.whole)
    && (w.point ==> 1 <= |w.fraction| <= 3 && !w.milli)
  }

  predicate AllZero(s: string) { forall i | 0 <= i < |s| :: s[i] == '0' }

  lemma {:induction false} DecimalIsZero(s: string, n: nat)
    requires AllDigits(s)
    ensures Decimal(s, n) == 0 <==> n == 0 && AllZero(s)
    decreases |s|
  {
    if s != "" {
      DecimalIsZero(s[1..], n * 10 + Digit(s[0]));
      assert AllZero(s) <==> s[0] == '0' && AllZero(s[1..]);
    }
  }

  lemma TidyIsWhole(w: Notation)
    requires w.Valid() && Tidy(w)
    ensures Nanos(w) % MICRO == 0 && (Nanos(w) > 0 <==> !AllZero(w.whole + w.fraction))
  {
    var digits := w.whole + w.fraction;
    var scale := |w.fraction| + if w.milli then 3 else 0;
    var n := Decimal(digits, 0);
    DecimalIsZero(digits, 0);
    assert Power(0) == 1 && Power(1) == 10 && Power(2) == 100 && Power(3) == 1000;
    assert Power(6) == 1000 * Power(3) && Power(9) == 1000 * Power(6);
    var unit := if scale == 0 then 1000 else if scale == 1 then 100 else if scale == 2 then 10 else 1;
    assert Power(9) == Power(scale) * unit * MICRO;
    var nanos := n * unit * MICRO;
    assert n * Power(9) == Power(scale) * nanos;
    Exactly(Power(scale), nanos);
    assert nanos % MICRO == 0;
  }

  /** Tidy notation denotes whole millis: it is valid unless it is zero or overflows. */
  lemma TidyIsValidUnless(w: Notation, beyond: Int64)
    requires w.Valid() && Tidy(w)
    ensures ValidateCPU(Nanos(w), beyond).Ok? <==> !AllZero(w.whole + w.fraction) && !Overflows(Nanos(w))
    ensures Overflows(Nanos(w)) ==> !AllZero(w.whole + w.fraction)
  {
    TidyIsWhole(w);
    var millis := Nanos(w) / MICRO;
    assert Nanos(w) == MICRO * millis;
    Exactly(MICRO, millis);
  }

  lemma Exactly(b: nat, q: nat)
    requires b > 0
    ensures CeilDiv(b * q, b) == q
  {
    var p := CeilDiv(b * q, b);
    assert p > q ==> b * p >= b * (q + 1);
    assert p < q ==> b * p <= b * (q - 1);
  }

  predicate UpToThreeDigits(s: string) { AllDigits(s) && 1 <= |s| <= 3 }

  lemma DecimalsAre(s: string)
    ensures Match(DECIMALS, s) <==> UpToThreeDigits(s)
  {
    var two := Then(DIGIT, Optional(DIGIT));
    FirstOf('0', '9', Optional(two), s);
    if s != "" {
      FirstOf('0', '9', Optional(DIGIT), s[1..]);
      assert s[1..] != "" ==> s[1..][1..] == s[2..];
      if |s| > 1 { OneOf('0', '9', s[2..]); }
    }
  }

  lemma PartIs(s: string)
    ensures Match(PART, s) <==> UpToThreeDigits(s) && !AllZero(s)
  {
    var two := Then(DIGIT, Optional(DIGIT));
    FirstOf('1', '9', Optional(two), s);
    FirstOf('0', '0', Then(NONZERO, Optional(DIGIT)), s);
    FirstOf('0', '0', Then(ZERO, NONZERO), s);
    if s != "" {
      var t := s[1..];
      FirstOf('0', '9', Optional(DIGIT), t);
      FirstOf('1', '9', Optional(DIGIT), t);
      FirstOf('0', '0', NONZERO, t);
      if t != "" { OneOf('0', '9', t[1..]); }
    }
  }

  /** Nothing or a point with up to three digits. */
  predicate DecimalTail(s: string) { s == "" || (s[0] == '.' && UpToThreeDigits(s[1..])) }

  /** A point with up to three digits, not all of them zero. */
  predicate PartTail(s: string) { s != "" && s[0] == '.' && UpToThreeDigits(s[1..]) && !AllZero(s[1..]) }

  lemma DecimalTailIs(s: string)
    ensures Match(Optional(Then(DOT, DECIMALS)), s) <==> DecimalTail(s)
  {
    FirstOf('.', '.', DECIMALS, s);
    if s != "" { DecimalsAre(s[1..]); }
  }

  lemma PartTailIs(s: string)
    ensures Match(Then(DOT, PART), s) <==> PartTail(s)
  {
    FirstOf('.', '.', PART, s);
    if s != "" { PartIs(s[1..]); }
  }

  lemma LeadingStep(s: string)
    requires s != "" && IsDigit(s[0])
    ensures Leading(s) == 1 + Leading(s[1..]) && s[Leading(s)..] == s[1..][Leading(s[1..])..]
  {
  }

  lemma NonzeroThen(rest: Regex, s: string, after: bool)
    requires s != "" && IsDigit(s[0]) ==> (Match(rest, s[1..]) <==> after)
    ensures Match(Then(NONZERO, rest), s) <==> Leading(s) > 0 && s[0] != '0' && after
  {
    FirstOf('1', '9', rest, s);
  }

  lemma OptionalZeroThen(r: Regex, s: string)
    ensures Match(Then(Optional(ZERO), r), s) <==> Match(r, s) || (s != "" && s[0] == '0' && Match(r, s[1..]))
  {
    assert s[..0] == "" && s[0..] == s && Match(Optional(ZERO), s[..0]);
    if s != "" && s[0] == '0' { assert s[..1] == "0" && Match(Optional(ZERO), s[..1]); }
    if k :| 0 <= k <= |s| && Match(Optional(ZERO), s[..k]) && Match(r, s[k..]) {
      OneOf('0', '0', s[..k]);
      assert k == 0 || (k == 1 && s[..k][0] == s[0]);
    }
  }

  lemma DigitsThenDecimals(s: string)
    ensures Match(Then(Many(DIGIT), Optional(Then(DOT, DECIMALS))), s) <==> DecimalTail(s[Leading(s)..])
  {
    var tail := Optional(Then(DOT, DECIMALS));
    forall t | Match(tail, t) && t != "" ensures !IsDigit(t[0]) { DecimalTailIs(t); }
    ManyThen(tail, s);
    DecimalTailIs(s[Leading(s)..]);
  }

  lemma CoresAre(s: string)
    ensures Match(CORES, s) <==> Leading(s) > 0 && s[0] != '0' && DecimalTail(s[Leading(s)..])
  {
    var rest := Then(Many(DIGIT), Optional(Then(DOT, DECIMALS)));
    if s != "" && IsDigit(s[0]) {
      LeadingStep(s);
      DigitsThenDecimals(s[1..]);
    }
    NonzeroThen(rest, s, DecimalTail(s[Leading(s)..]));
  }

  lemma DigitsThenMilli(s: string)
    ensures Match(Then(Many(DIGIT), MILLI), s) <==> s[Leading(s)..] == "m"
  {
    ManyThen(MILLI, s);
  }

  lemma MillicoresAre(s: string)
    ensures Match(MILLICORES, s) <==> Leading(s) > 0 && s[0] != '0' && s[Leading(s)..] == "m"
  {
    if s != "" && IsDigit(s[0]) {
      LeadingStep(s);
      DigitsThenMilli(s[1..]);
    }
    NonzeroThen(Then(Many(DIGIT), MILLI), s, s[Leading(s)..] == "m");
  }

  lemma BelowOneIs(s: string)
    ensures Match(BELOW_ONE, s) <==>
      (Leading(s) == 0 || (Leading(s) == 1 && s[0] == '0')) && PartTail(s[Leading(s)..])
  {
    OptionalZeroThen(Then(DOT, PART), s);
    PartTailIs(s);
    if s != "" { PartTailIs(s[1..]); }
    assert s[0..] == s;
  }

  /** The form in terms of the leading digits and what follows them. */
  predicate FormText(s: string) {
    FormParts(Leading(s), s != "" && s[0] == '0', s[Leading(s)..])
  }

  /** n leading digits, the first of them a zero or not, and what follows. */
  predicate FormParts(n: nat, zero: bool, tail: string) {
    || (n > 0 && !zero && (DecimalTail(tail) || tail == "m"))
    || ((n == 0 || (n == 1 && zero)) && PartTail(tail))
  }

  lemma FormIs(s: string)
    ensures Match(FORM, s) <==> FormText(s)
  {
    CoresAre(s);
    BelowOneIs(s);
    MillicoresAre(s);
    assert Match(FORM, s) <==> Match(CORES, s) || Match(BELOW_ONE, s) || Match(MILLICORES, s);
  }

  /** Tidy and not zero. */
  predicate Plain(w: Option<Notation>) {
    w.Some? && Tidy(w.value) && !AllZero(w.value.whole + w.value.fraction)
  }

  lemma AllZeroSplits(s: string, t: string)
    ensures AllZero(s + t) <==> AllZero(s) && AllZero(t)
  {
    if AllZero(s + t) {
      assert forall i | 0 <= i < |s| :: s[i] == (s + t)[i];
      assert forall i | 0 <= i < |t| :: t[i] == (s + t)[|s| + i];
    }
  }

  lemma LeadingIsAll(s: string)
    ensures AllDigits(s) <==> Leading(s) == |s|
  {
  }

  lemma ReadUnitIsPlain(whole: string, fraction: string, point: bool, unit: string)
    requires point || fraction == ""
    ensures Plain(ReadUnit(whole, fraction, point, unit)) <==>
      && NoSuperfluousZero(whole) && !(AllZero(whole) && AllZero(fraction))
      && if point then 1 <= |fraction| <= 3 && unit == "" else unit in {"", "m"}
  {
    AllZeroSplits(whole, fraction);
    if whole + fraction == "" { assert AllZero(whole) && AllZero(fraction); }
  }

  lemma PlainWithPoint(s: string)
    requires Leading(s) < |s| && s[Leading(s)] == '.'
    ensures FormText(s) <==> Plain(Read(s))
  {
    var whole, rest := s[..Leading(s)], s[Leading(s) + 1..];
    assert s[Leading(s)..][1..] == rest;
    PointParts(Leading(s), s != "" && s[0] == '0', s[Leading(s)..], rest);
    LeadingZeros(s);
    PointIsPlain(whole, rest, rest[..Leading(rest)], rest[Leading(rest)..]);
  }

  /** What the text after the point says about the notation read from it. */
  lemma PointIsPlain(whole: string, rest: string, fraction: string, unit: string)
    requires fraction == rest[..Leading(rest)] && unit == rest[Leading(rest)..]
    ensures Plain(ReadUnit(whole, fraction, true, unit)) <==>
            NoSuperfluousZero(whole) && UpToThreeDigits(rest) && !(AllZero(whole) && AllZero(rest))
  {
    ReadUnitIsPlain(whole, fraction, true, unit);
    LeadingIsAll(rest);
    if unit == "" { assert fraction == rest; }
  }

  lemma PointParts(n: nat, zero: bool, tail: string, rest: string)
    requires tail != "" && tail[0] == '.' && tail[1..] == rest
    ensures FormParts(n, zero, tail) <==>
            UpToThreeDigits(rest) && ((n > 0 && !zero) || ((n == 0 || (n == 1 && zero)) && !AllZero(rest)))
  {
    TailAfterPoint(tail, rest);
  }

  lemma TailAfterPoint(t: string, rest: string)
    requires t != "" && t[0] == '.' && t[1..] == rest
    ensures (DecimalTail(t) <==> UpToThreeDigits(rest)) && t != "m"
    ensures PartTail(t) <==> UpToThreeDigits(rest) && !AllZero(rest)
  {
  }

  /** What the first leading digit says about all of them. */
  lemma LeadingZeros(s: string)
    ensures
      var n, whole := Leading(s), s[..Leading(s)];
      && (NoSuperfluousZero(whole) <==> n <= 1 || s[0] != '0')
      && (n > 0 && s[0] != '0' ==> !AllZero(whole))
      && (n == 0 || (n == 1 && s[0] == '0') ==> AllZero(whole))
  {
  }

  lemma PlainWithoutPoint(s: string)
    requires Leading(s) == |s| || s[Leading(s)] != '.'
    ensures FormText(s) <==> Plain(Read(s))
  {
    var n := Leading(s);
    var unit := s[n..];
    assert unit != "" ==> unit[0] == s[n];
    ReadUnitIsPlain(s[..n], "", false, unit);
    LeadingZeros(s);
  }

  /** The form accepts a string if and only if it is tidy plain notation and either validateCPU
      accepts the quantity or its milli value does not fit 64 bits. So what the form accepts is
      valid up to the overflow, and on tidy notation that fits the two agree. */
  lemma FormAgreesWithValidateCPU(s: string, beyond: Int64)
    ensures Match(FORM, s) <==>
            Read(s).Some? && Tidy(Read(s).value)
            && (ValidateCPU(Nanos(Read(s).value), beyond).Ok? || Overflows(Nanos(Read(s).value)))
    ensures Read(s).Some? && Tidy(Read(s).value) ==>
              (ValidateCPU(Nanos(Read(s).value), beyond).Ok? <==> Match(FORM, s) && !Overflows(Nanos(Read(s).value)))
  {
    FormIs(s);
    if Leading(s) < |s| && s[Leading(s)] == '.' { PlainWithPoint(s); } else { PlainWithoutPoint(s); }
    if Read(s).Some? && Tidy(Read(s).value) { TidyIsValidUnless(Read(s).value, beyond); }
  }

  /** Whole cores: the form accepts every positive number without leading zeros, validateCPU
      only those up to the boundary. */
  lemma WholeCores(s: string, beyond: Int64)
    requires s != "" && AllDigits(s) && s[0] != '0'
    ensures Match(FORM, s) && Read(s) == Some(Notation(s, "", false, false))
    ensures ValidateCPU(Nanos(Notation(s, "", false, false)), beyond).Ok? <==> Decimal(s, 0) <= MAX_INT / 1000
  {
    LeadingIsAll(s);
    assert s[..|s|] == s && s + "" == s;
    FormIs(s);
    var w := Notation(s, "", false, false);
    TidyIsValidUnless(w, beyond);
    assert Power(0) == 1 && Power(1) == 10 && Power(3) == 1000 && Power(6) == 1000 * Power(3)
        && Power(9) == 1000 * Power(6);
    var millis := 1000 * Decimal(s, 0);
    assert Decimal(s, 0) * Power(9) == Power(0) * (MICRO * millis);
    Exactly(Power(0), MICRO * millis);
    Exactly(MICRO, millis);
  }

  lemma {:induction false} DecimalOfBoth(s: string, t: string, n: nat)
    requires AllDigits(s) && AllDigits(t)
    ensures AllDigits(s + t) && Decimal(s + t, n) == Decimal(t, Decimal(s, n))
    decreases |s|
  {
    if s == "" {
      assert s + t == t;
    } else {
      assert (s + t)[1..] == s[1..] + t;
      DecimalOfBoth(s[1..], t, n * 10 + Digit(s[0]));
    }
  }

  lemma OneDigit(c: char, rest: string, n: nat)
    requires IsDigit(c) && AllDigits(rest)
    ensures AllDigits([c] + rest) && Decimal([c] + rest, n) == Decimal(rest, n * 10 + Digit(c))
  {
    assert ([c] + rest)[1..] == rest;
  }

  lemma FourDigits(a: char, b: char, c: char, d: char, n: nat)
    requires IsDigit(a) && IsDigit(b) && IsDigit(c) && IsDigit(d)
    ensures AllDigits([a, b, c, d])
    ensures Decimal([a, b, c, d], n) == 10000 * n + 1000 * Digit(a) + 100 * Digit(b) + 10 * Digit(c) + Digit(d)
  {
    var m := n * 10 + Digit(a);
    OneDigit(a, [b, c, d], n);
    OneDigit(b, [c, d], m);
    OneDigit(c, [d], m * 10 + Digit(b));
    OneDigit(d, [], (m * 10 + Digit(b)) * 10 + Digit(c));
    assert [a] + [b, c, d] == [a, b, c, d] && [b] + [c, d] == [b, c, d] && [c] + [d] == [c, d] && [d] + [] == [d];
  }

  /** 9223372036854776, the smallest whole number of cores whose milli value overflows. */
  const BOUNDARY: string := ("9223" + "3720") + ("3685" + "4776")

  lemma BoundaryDecimal()
    ensures AllDigits(BOUNDARY) && Decimal(BOUNDARY, 0) == 9223372036854776
  {
    FourDigits('9', '2', '2', '3', 0);
    FourDigits('3', '7', '2', '0', 9223);
    FourDigits('3', '6', '8', '5', 92233720);
    FourDigits('4', '7', '7', '6', 922337203685);
    DecimalOfBoth("9223", "3720", 0);
    DecimalOfBoth("3685", "4776", 92233720);
    DecimalOfBoth("9223" + "3720", "3685" + "4776", 0);
  }

  /** The form accepts it, validateCPU does not, whatever the library makes of the overflow. */
  lemma BoundaryIsAcceptedByTheFormOnly(beyond: Int64)
    ensures AllDigits(BOUNDARY) && Decimal(BOUNDARY, 0) == 9223372036854776
    ensures Match(FORM, BOUNDARY) && Read(BOUNDARY) == Some(Notation(BOUNDARY, "", false, false))
    ensures ValidateCPU(Nanos(Notation(BOUNDARY, "", false, false)), beyond).Err?
  {
    BoundaryDecimal();
    WholeCores(BOUNDARY, beyond);
  }
}
