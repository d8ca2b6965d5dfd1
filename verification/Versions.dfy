/** versionAtLeast in internal/cnpg/extensions.go: dotted versions compared number by number. */
module Versions {
  import opened Common

  // ---- strconv.Atoi, with its result when it also returns an error ----

  const MAX_INT: int := 0x7FFF_FFFF_FFFF_FFFF
  const MIN_INT: int := -0x8000_0000_0000_0000
  const MAX_UINT: int := 0xFFFF_FFFF_FFFF_FFFF

  function Digit(c: char): nat
    requires IsDigit(c)
  {
    c as int - '0' as int
  }

  datatype Scan = Value(n: nat) | OutOfRange | BadSyntax

  /** Digits are read from the left; the first problem decides, be it a character that is no
      digit or a value beyond 64 bits. */
  function ParseUint(s: string, n: nat): Scan
    decreases |s|
  {
    if s == "" then Value(n)
    else if !IsDigit(s[0]) then BadSyntax
    else if n * 10 + Digit(s[0]) > MAX_UINT then OutOfRange
    else ParseUint(s[1..], n * 10 + Digit(s[0]))
  }

  function Clamp(n: int): int {
    if n > MAX_INT then MAX_INT else if n < MIN_INT then MIN_INT else n
  }

  predicate HasSign(s: string) {
    s != "" && s[0] in {'+', '-'}
  }

  function Unsigned(s: string): string {
    if HasSign(s) then s[1..] else s
  }

  function Atoi(s: string): int {
    var negative := s != "" && s[0] == '-';
    var digits := Unsigned(s);
    if digits == "" then 0
    else
      match ParseUint(digits, 0)
      case BadSyntax => 0
      case OutOfRange => if negative then MIN_INT else MAX_INT
      case Value(n) => var value: int := n; Clamp(if negative then -value else value)
  }

  /** strconv.Atoi returns no error. */
  predicate IsInt(s: string) {
    var digits := Unsigned(s);
    && digits != "" && ParseUint(digits, 0).Value?
    && ParseUint(digits, 0).n <= if s[0] == '-' then -MIN_INT else MAX_INT
  }

  /** The number that digits append to n. */
  function Decimal(s: string, n: nat): (m: nat)
    requires AllDigits(s)
    ensures m >= n
    decreases |s|
  {
    if s == "" then n else Decimal(s[1..], n * 10 + Digit(s[0]))
  }

  lemma {:induction false} ParseDigits(s: string, rest: string, n: nat)
    requires AllDigits(s) && n <= MAX_UINT
    ensures ParseUint(s + rest, n) == if Decimal(s, n) > MAX_UINT then OutOfRange else ParseUint(rest, Decimal(s, n))
    decreases |s|
  {
    if s == "" {
      assert s + rest == rest;
    } else {
      assert (s + rest)[1..] == s[1..] + rest;
      if n * 10 + Digit(s[0]) <= MAX_UINT { ParseDigits(s[1..], rest, n * 10 + Digit(s[0])); }
    }
  }

  /** The number that s begins with, after an optional sign. */
  function LeadingNumber(s: string): nat {
    Decimal(Unsigned(s)[..Leading(Unsigned(s))], 0)
  }

  function SignedNumber(s: string): int {
    var n: int := LeadingNumber(s);
    if s != "" && s[0] == '-' then -n else n
  }

  /** Something that is no digit comes before 64 bits are full. */
  predicate Garbage(s: string) {
    Leading(Unsigned(s)) < |Unsigned(s)| && LeadingNumber(s) <= MAX_UINT
  }

  /** How every component reads, with or without a sign: as 0 when something that is no digit
      comes before 64 bits are full, and otherwise as the leading number with its sign, clamped
      to the range of int. So one that is no int reads as 0 only if it is garbage or empty. */
  lemma AtoiOfAnything(s: string)
    ensures
      && Atoi(s) == (if Garbage(s) then 0 else Clamp(SignedNumber(s)))
      && (IsInt(s) <==>
            Unsigned(s) != "" && Leading(Unsigned(s)) == |Unsigned(s)| && Clamp(SignedNumber(s)) == SignedNumber(s))
      && (!IsInt(s) ==> (Atoi(s) == 0 <==> Garbage(s) || Unsigned(s) == ""))
  {
    var digits := Unsigned(s);
    var n := Leading(digits);
    assert digits == digits[..n] + digits[n..];
    ParseDigits(digits[..n], digits[n..], 0);
    if n == |digits| { assert digits[..n] == digits; }
  }

  // ---- Dotted versions ----

  /** strings.Split on a single character. */
  function Split(s: string, separator: char): (parts: seq<string>)
    ensures |parts| >= 1
    decreases |s|
  {
    if s == "" then [""]
    else
      var rest := Split(s[1..], separator);
      if s[0] == separator then [""] + rest else [[s[0]] + rest[0]] + rest[1..]
  }

  function Numbers(parts: seq<string>): seq<int> {
    seq(|parts|, i requires 0 <= i < |parts| => Atoi(parts[i]))
  }

  /** The numbers of a dotted version. */
  function Components(version: string): seq<int> {
    Numbers(Split(version, '.'))
  }

  /** Position i of a version padded with zeros for ever. */
  function At(v: seq<int>, i: nat): int {
    if i < |v| then v[i] else 0
  }

  ghost predicate SameVersion(v: seq<int>, w: seq<int>) {
    forall i: nat :: At(v, i) == At(w, i)
  }

  /** v and w first differ at k, where v is larger. */
  predicate LargerAt(v: seq<int>, w: seq<int>, k: nat) {
    At(v, k) > At(w, k) && forall i: nat | i < k :: At(v, i) == At(w, i)
  }

  /** The lexicographic order on padded versions. */
  ghost predicate AtLeast(v: seq<int>, w: seq<int>) {
    SameVersion(v, w) || exists k: nat :: LargerAt(v, w, k)
  }

  method VersionAtLeast(version: string, minimum: string) returns (r: bool)
    ensures r <==> AtLeast(Components(version), Components(minimum))
  {
    var got, want := Split(version, '.'), Split(minimum, '.');
    ghost var v, w := Components(version), Components(minimum);
    var n := if |got| > |want| then |got| else |want|;
    for i := 0 to n
      invariant forall j: nat | j < i :: At(v, j) == At(w, j)
    {
      var g, m := 0, 0;
      if i < |got| {
        g := Atoi(got[i]);
      }
      if i < |want| {
        m := Atoi(want[i]);
      }
      assert g == At(v, i) && m == At(w, i);
      if g != m {
        if g > m {
          assert LargerAt(v, w, i);
        } else {
          assert LargerAt(w, v, i);
          OneOrder(v, w, i);
        }
        return g > m;
      }
    }
    assert SameVersion(v, w);
    return true;
  }

  /** A version that first differs downwards is not at least the other. */
  lemma OneOrder(v: seq<int>, w: seq<int>, k: nat)
    requires LargerAt(w, v, k)
    ensures !AtLeast(v, w)
  {
  }

  lemma {:induction false} FirstDifference(v: seq<int>, w: seq<int>, from: nat)
    requires forall i: nat | i < from :: At(v, i) == At(w, i)
    ensures SameVersion(v, w) || exists k: nat :: LargerAt(v, w, k) || LargerAt(w, v, k)
    decreases |v| + |w| - from
  {
    if from >= |v| + |w| {
      assert SameVersion(v, w);
    } else if At(v, from) == At(w, from) {
      FirstDifference(v, w, from + 1);
    } else {
      assert LargerAt(v, w, from) || LargerAt(w, v, from);
    }
  }

  /** The order is total, and two versions are each at least the other exactly when they are
      equal up to trailing zeros. */
  lemma AtLeastIsTotal(v: seq<int>, w: seq<int>)
    ensures AtLeast(v, w) || AtLeast(w, v)
    ensures AtLeast(v, w) && AtLeast(w, v) <==> SameVersion(v, w)
  {
    FirstDifference(v, w, 0);
    if k: nat :| LargerAt(v, w, k) { OneOrder(w, v, k); }
    if k: nat :| LargerAt(w, v, k) { OneOrder(v, w, k); }
  }

  lemma AtLeastIsTransitive(u: seq<int>, v: seq<int>, w: seq<int>)
    requires AtLeast(u, v) && AtLeast(v, w)
    ensures AtLeast(u, w)
  {
    if SameVersion(u, v) && SameVersion(v, w) {
      assert SameVersion(u, w);
    } else if SameVersion(u, v) {
      var k: nat :| LargerAt(v, w, k);
      assert LargerAt(u, w, k);
    } else {
      var j: nat :| LargerAt(u, v, j);
      if SameVersion(v, w) {
        assert LargerAt(u, w, j);
      } else {
        var k: nat :| LargerAt(v, w, k);
        assert LargerAt(u, w, if j < k then j else k);
      }
    }
  }

  // ---- What splitting and comparing mean ----

  function JoinWith(parts: seq<string>, separator: char): string
    requires parts != []
  {
    if |parts| == 1 then parts[0] else parts[0] + [separator] + JoinWith(parts[1..], separator)
  }

  /** Splitting cuts at every separator and loses nothing. */
  lemma {:induction false} SplitCuts(s: string, separator: char)
    ensures forall p | p in Split(s, separator) :: separator !in p
    ensures JoinWith(Split(s, separator), separator) == s
    decreases |s|
  {
    if s != "" {
      SplitCuts(s[1..], separator);
      var rest := Split(s[1..], separator);
      var parts := Split(s, separator);
      assert s == [s[0]] + s[1..];
      if s[0] == separator {
        assert parts[1..] == rest;
      } else {
        assert parts[0] == [s[0]] + rest[0] && parts[1..] == rest[1..];
        if |rest| > 1 {
          assert parts[0] + [separator] + JoinWith(rest[1..], separator)
                 == [s[0]] + (rest[0] + [separator] + JoinWith(rest[1..], separator));
        }
      }
    }
  }

  /** The first part is what stands before the first separator. */
  lemma FirstPart(s: string, separator: char)
    ensures
      var first := Split(s, separator)[0];
      first <= s && separator !in first && (|first| < |s| ==> s[|first|] == separator)
  {
    SplitCuts(s, separator);
  }

  /** The comparison again, from the front: the first number decides, or the rest does; missing
      numbers are zeros. */
  predicate NotLess(v: seq<int>, w: seq<int>)
    decreases |v| + |w|
  {
    if v == [] && w == [] then true
    else
      var x, y := if v == [] then 0 else v[0], if w == [] then 0 else w[0];
      x > y || (x == y && NotLess(if v == [] then [] else v[1..], if w == [] then [] else w[1..]))
  }

  lemma {:induction false} AtLeastIsNotLess(v: seq<int>, w: seq<int>)
    ensures AtLeast(v, w) <==> NotLess(v, w)
    decreases |v| + |w|
  {
    if v == [] && w == [] {
      assert SameVersion(v, w);
    } else {
      var v', w' := if v == [] then [] else v[1..], if w == [] then [] else w[1..];
      AtLeastIsNotLess(v', w');
      Shifted(v, v');
      Shifted(w, w');
      if At(v, 0) > At(w, 0) {
        assert LargerAt(v, w, 0);
      } else if At(v, 0) < At(w, 0) {
        assert LargerAt(w, v, 0);
        OneOrder(v, w, 0);
      } else {
        TailsDecide(v, w, v', w');
      }
    }
  }

  lemma Shifted(v: seq<int>, v': seq<int>)
    requires v' == if v == [] then [] else v[1..]
    ensures forall i: nat :: At(v', i) == At(v, i + 1)
  {
  }

  lemma TailsDecide(v: seq<int>, w: seq<int>, v': seq<int>, w': seq<int>)
    requires At(v, 0) == At(w, 0)
    requires (forall i: nat :: At(v', i) == At(v, i + 1)) && (forall i: nat :: At(w', i) == At(w, i + 1))
    ensures AtLeast(v, w) <==> AtLeast(v', w')
  {
    if SameVersion(v', w') {
      forall i: nat ensures At(v, i) == At(w, i) {
        if i > 0 { assert At(v', i - 1) == At(w', i - 1); }
      }
    }
    if SameVersion(v, w) {
      forall i: nat ensures At(v', i) == At(w', i) { assert At(v, i + 1) == At(w, i + 1); }
    }
    if k: nat :| LargerAt(v', w', k) {
      forall i: nat | i < k + 1 ensures At(v, i) == At(w, i) {
        if i > 0 { assert At(v', i - 1) == At(w', i - 1); }
      }
      assert LargerAt(v, w, k + 1);
    }
    if k: nat :| LargerAt(v, w, k) {
      assert k > 0;
      forall i: nat | i < k - 1 ensures At(v', i) == At(w', i) { assert At(v, i + 1) == At(w, i + 1); }
      assert At(v', k - 1) == At(v, k) && At(w', k - 1) == At(w, k);
      assert LargerAt(v', w', k - 1);
    }
  }

  lemma {:induction false} SplitOne(a: string, separator: char)
    requires separator !in a
    ensures Split(a, separator) == [a]
    decreases |a|
  {
    if a != "" {
      SplitOne(a[1..], separator);
      assert a == [a[0]] + a[1..];
    }
  }

  lemma {:induction false} SplitTwo(a: string, b: string, separator: char)
    requires separator !in a && separator !in b
    ensures Split(a + [separator] + b, separator) == [a, b]
    decreases |a|
  {
    var s := a + [separator] + b;
    if a == "" {
      SplitOne(b, separator);
      assert s[1..] == b;
    } else {
      SplitTwo(a[1..], b, separator);
      assert s[1..] == a[1..] + [separator] + b;
      assert a == [a[0]] + a[1..];
    }
  }

  /** Two numbers with a dot between them are read as these. */
  lemma TwoNumbers(a: string, b: string)
    requires a != "" && b != "" && AllDigits(a) && AllDigits(b) && Decimal(a, 0) <= MAX_INT && Decimal(b, 0) <= MAX_INT
    ensures Components(a + "." + b) == [Decimal(a, 0), Decimal(b, 0)]
  {
    SplitTwo(a, b, '.');
    AtoiOfAnything(a);
    AtoiOfAnything(b);
    NoSign(a);
    NoSign(b);
  }

  lemma NoSign(a: string)
    requires a != "" && AllDigits(a)
    ensures Unsigned(a) == a && Leading(a) == |a| && SignedNumber(a) == Decimal(a, 0)
  {
    AllLeading(a);
    assert a[..|a|] == a;
  }

  lemma {:induction false} AllLeading(a: string)
    requires AllDigits(a)
    ensures Leading(a) == |a|
  {
    if a != "" { AllLeading(a[1..]); }
  }

  lemma OneOrTwoDigits(a: string)
    requires 1 <= |a| <= 2 && AllDigits(a)
    ensures Decimal(a, 0) == if |a| == 1 then Digit(a[0]) else 10 * Digit(a[0]) + Digit(a[1])
  {
    if |a| == 2 {
      var rest := a[1..];
      assert rest[1..] == "" && rest[0] == a[1];
      assert Decimal(rest, Digit(a[0])) == Decimal("", Digit(a[0]) * 10 + Digit(a[1]));
    }
  }

  /** A release of PostgreSQL 18 compares by its minor number. */
  lemma MinorsDecide(a: string, b: string)
    requires 1 <= |a| <= 2 && 1 <= |b| <= 2 && AllDigits(a) && AllDigits(b)
    ensures AtLeast(Components("18" + "." + a), Components("18" + "." + b)) <==> Decimal(a, 0) >= Decimal(b, 0)
  {
    OneOrTwoDigits(a);
    OneOrTwoDigits(b);
    TwoNumbers("18", a);
    TwoNumbers("18", b);
    var n, x, y: int := Decimal("18", 0), Decimal(a, 0), Decimal(b, 0);
    AtLeastIsNotLess([n, x], [n, y]);
    assert [n, x][1..] == [x] && [n, y][1..] == [y] && [x][1..] == [] && [y][1..] == [];
    assert NotLess([x], [y]) <==> x >= y;
  }

  /** The example of the source: 18.10 is at least 18.6, and 18.4 is not. */
  lemma TenIsMoreThanSix()
    ensures AtLeast(Components("18" + "." + "10"), Components("18" + "." + "6"))
    ensures !AtLeast(Components("18" + "." + "4"), Components("18" + "." + "6"))
  {
    MinorsDecide("10", "6");
    MinorsDecide("4", "6");
    OneOrTwoDigits("10");
    OneOrTwoDigits("6");
    OneOrTwoDigits("4");
  }
}
