/** toCNPGSchedule in internal/cnpg/barman/schedule.go: five cron fields to the six that
    CloudNativePG expects. Characters are code points here. */
module Cron {
  import opened Common

  /** unicode.IsSpace. */
  predicate IsSpace(c: char) {
    c in {'\t', '\n', '\U{0B}', '\U{0C}', '\r', ' ', '\U{85}', '\U{A0}', '\U{1680}', '\U{2028}', '\U{2029}',
          '\U{202F}', '\U{205F}', '\U{3000}'} || '\U{2000}' <= c <= '\U{200A}'
  }

  /** Among ASCII characters: tab, line feed, vertical tab, form feed, carriage return, space. */
  lemma AsciiWhiteSpace(c: char)
    requires c as int < 128
    ensures IsSpace(c) <==> c as int == 32 || 9 <= c as int <= 13
  {
  }

  /** The length of the leading run of characters that are, or are not, white space. */
  function Run(s: string, space: bool): (n: nat)
    ensures n <= |s|
    ensures forall i | 0 <= i < n :: IsSpace(s[i]) == space
    ensures n < |s| ==> IsSpace(s[n]) != space
  {
    if s == "" || IsSpace(s[0]) != space then 0 else 1 + Run(s[1..], space)
  }

  function TrimLeft(s: string): string {
    s[Run(s, true)..]
  }

  function TrimRight(s: string): string {
    if s != "" && IsSpace(s[|s| - 1]) then TrimRight(s[..|s| - 1]) else s
  }

  /** strings.TrimSpace. */
  function TrimSpace(s: string): string {
    TrimRight(TrimLeft(s))
  }

  /** strings.Fields. */
  function Fields(s: string): seq<string>
    decreases |s|
  {
    var t := TrimLeft(s);
    if t == "" then [] else [t[..Run(t, false)]] + Fields(t[Run(t, false)..])
  }

  /** strings.Join(fields, " "). */
  function Join(fields: seq<string>): string {
    if fields == [] then "" else if |fields| == 1 then fields[0] else fields[0] + " " + Join(fields[1..])
  }

  const DESCRIPTORS: set<string> :=
    {"@yearly", "@annually", "@monthly", "@weekly", "@daily", "@midnight", "@hourly"}

  datatype CronError = NotFiveFields

  function ToCnpgSchedule(cron: string): Result<string, CronError> {
    var trimmed := TrimSpace(cron);
    if IsDescriptor(trimmed) then Ok(trimmed)
    else
      var fields := Fields(trimmed);
      if |fields| != 5 then Err(NotFiveFields) else Ok("0 " + Join(fields))
  }

  // ---- What splitting and joining do ----

  predicate IsField(f: string) {
    f != "" && forall i | 0 <= i < |f| :: !IsSpace(f[i])
  }

  predicate AllSpace(s: string) {
    forall i | 0 <= i < |s| :: IsSpace(s[i])
  }

  lemma {:induction false} RunOf(a: string, b: string, space: bool)
    requires forall i | 0 <= i < |a| :: IsSpace(a[i]) == space
    requires b != "" ==> IsSpace(b[0]) != space
    ensures Run(a + b, space) == |a|
  {
    if a != "" {
      assert (a + b)[1..] == a[1..] + b;
      RunOf(a[1..], b, space);
    }
  }

  /** White space before and a field, then the rest. */
  lemma FieldsStep(s: string, f: string, rest: string)
    requires AllSpace(s) && IsField(f) && (rest != "" ==> IsSpace(rest[0]))
    ensures Fields(s + f + rest) == [f] + Fields(rest)
  {
    assert s + f + rest == s + (f + rest);
    RunOf(s, f + rest, true);
    assert TrimLeft(s + f + rest) == f + rest;
    RunOf(f, rest, false);
    assert (f + rest)[..|f|] == f && (f + rest)[|f|..] == rest;
  }

  lemma {:induction false} FieldsAreFields(s: string)
    ensures forall f | f in Fields(s) :: IsField(f)
    decreases |s|
  {
    var t := TrimLeft(s);
    if t != "" { FieldsAreFields(t[Run(t, false)..]); }
  }

  lemma {:induction false} FieldsOfJoin(fields: seq<string>)
    requires forall f | f in fields :: IsField(f)
    ensures Fields(Join(fields)) == fields
  {
    if fields == [] {
    } else if |fields| == 1 {
      assert fields[0] in fields;
      FieldsStep("", fields[0], "");
      assert "" + fields[0] + "" == fields[0] && fields == [fields[0]];
    } else {
      assert fields[0] in fields;
      FirstField(fields[0], Join(fields[1..]));
      FieldsOfJoin(fields[1..]);
    }
  }

  lemma FirstField(f: string, rest: string)
    requires IsField(f)
    ensures Fields(f + " " + rest) == [f] + Fields(rest)
  {
    Associate(f, " ", rest);
    SpaceThen(rest);
    FieldThen(f, " " + rest);
  }

  lemma Associate(a: string, b: string, c: string)
    ensures a + b + c == a + (b + c)
  {
  }

  lemma SpaceThen(rest: string)
    ensures Fields(" " + rest) == Fields(rest) && IsSpace((" " + rest)[0])
  {
    FieldsOfSpaced(" ", rest);
  }

  lemma FieldThen(f: string, rest: string)
    requires IsField(f) && (rest != "" ==> IsSpace(rest[0]))
    ensures Fields(f + rest) == [f] + Fields(rest)
  {
    RunOf("", f + rest, true);
    assert "" + (f + rest) == f + rest;
    RunOf(f, rest, false);
    assert (f + rest)[..|f|] == f && (f + rest)[|f|..] == rest;
  }

  lemma SpacesBefore(space: string, rest: string)
    requires AllSpace(space) && (rest != "" ==> !IsSpace(rest[0]))
    ensures TrimLeft(space + rest) == rest
  {
    RunOf(space, rest, true);
  }

  lemma FieldsOfSpaced(s: string, t: string)
    requires AllSpace(s)
    ensures Fields(s + t) == Fields(t)
  {
    var n := Run(t, true);
    Associate(s, t[..n], t[n..]);
    assert t == t[..n] + t[n..];
    SpacesBefore(s + t[..n], t[n..]);
  }

  /** White space, the first field and the rest. */
  lemma FirstSplit(s: string) returns (space: string, f: string, rest: string)
    requires TrimLeft(s) != ""
    ensures s == space + f + rest && AllSpace(space) && IsField(f) && (rest != "" ==> IsSpace(rest[0]))
  {
    var n := Run(s, true);
    var t := s[n..];
    var m := Run(t, false);
    space, f, rest := s[..n], t[..m], t[m..];
  }

  lemma FieldsOfSpace(s: string)
    requires AllSpace(s)
    ensures Fields(s) == []
  {
    RunOf(s, "", true);
    assert s + "" == s;
  }

  lemma Regroup(a: string, b: string, c: string, d: string)
    ensures (a + b + c) + d == a + b + (c + d)
  {
  }

  lemma SpaceAfterField(space: string, f: string, rest: string, t: string)
    requires AllSpace(space) && IsField(f) && (rest + t != "" ==> IsSpace((rest + t)[0]))
        && (rest != "" ==> IsSpace(rest[0]))
    requires Fields(rest + t) == Fields(rest)
    ensures Fields((space + f + rest) + t) == Fields(space + f + rest)
  {
    FieldsStep(space, f, rest);
    FieldsStep(space, f, rest + t);
    Regroup(space, f, rest, t);
  }

  lemma {:induction false} FieldsIgnoreTrailingSpace(s: string, t: string)
    requires AllSpace(t)
    ensures Fields(s + t) == Fields(s)
    decreases |s|
  {
    if TrimLeft(s) == "" {
      FieldsOfSpace(s);
      FieldsOfSpace(s + t);
    } else {
      var space, f, rest := FirstSplit(s);
      FieldsIgnoreTrailingSpace(rest, t);
      SpaceAfterField(space, f, rest, t);
    }
  }

  lemma {:induction false} TrimRightSplits(s: string)
    ensures TrimRight(s) <= s && AllSpace(s[|TrimRight(s)|..])
    ensures TrimRight(s) != "" ==> !IsSpace(TrimRight(s)[|TrimRight(s)| - 1])
  {
    if s != "" && IsSpace(s[|s| - 1]) {
      var t := s[..|s| - 1];
      TrimRightSplits(t);
      assert s[|TrimRight(t)|..] == t[|TrimRight(t)|..] + [s[|s| - 1]];
    }
  }

  lemma FieldsOfTrimmed(s: string)
    ensures Fields(TrimSpace(s)) == Fields(s)
  {
    FieldsOfTrimmedRight(TrimLeft(s));
    TrimLeftTwice(s);
  }

  lemma TrimLeftTwice(s: string)
    ensures TrimLeft(TrimLeft(s)) == TrimLeft(s) && Fields(TrimLeft(s)) == Fields(s)
  {
    var t := TrimLeft(s);
    assert Run(t, true) == 0 && t[0..] == t;
  }

  lemma FieldsOfTrimmedRight(s: string)
    ensures Fields(TrimRight(s)) == Fields(s)
  {
    TrimRightSplits(s);
    var kept := TrimRight(s);
    assert s == kept + s[|kept|..];
    FieldsIgnoreTrailingSpace(kept, s[|kept|..]);
  }

  /** Trimming leaves f exactly when f is the only field. */
  lemma TrimmedToField(s: string, f: string)
    requires IsField(f)
    ensures TrimSpace(s) == f <==> Fields(s) == [f]
  {
    FieldsOfTrimmed(s);
    FieldsStep("", f, "");
    assert "" + f + "" == f;
    if Fields(s) == [f] {
      TrimRightSplits(TrimLeft(s));
      OnlyField(TrimSpace(s), f);
    }
  }

  lemma OnlyField(t: string, f: string)
    requires t != "" ==> !IsSpace(t[|t| - 1]) && !IsSpace(t[0])
    requires Fields(t) == [f]
    ensures t == f
  {
  }

  // ---- The conversion ----

  predicate IsDescriptor(s: string) {
    s in DESCRIPTORS
  }

  lemma DescriptorIsField(d: string)
    requires IsDescriptor(d)
    ensures IsField(d)
  {
  }

  lemma DescriptorIsTheOnlyField(s: string)
    ensures IsDescriptor(TrimSpace(s)) <==> |Fields(s)| == 1 && IsDescriptor(Fields(s)[0])
    ensures IsDescriptor(TrimSpace(s)) ==> Fields(s) == [TrimSpace(s)]
  {
    if IsDescriptor(TrimSpace(s)) {
      DescriptorIsField(TrimSpace(s));
      TrimmedToField(s, TrimSpace(s));
    } else if |Fields(s)| == 1 {
      FieldsAreFields(s);
      assert Fields(s) == [Fields(s)[0]];
      TrimmedToField(s, Fields(s)[0]);
    }
  }

  /** The result depends only on the white-space-separated fields. */
  lemma OnlyFieldsMatter(a: string, b: string)
    requires Fields(a) == Fields(b)
    ensures ToCnpgSchedule(a) == ToCnpgSchedule(b)
  {
    FieldsOfTrimmed(a);
    FieldsOfTrimmed(b);
    DescriptorIsTheOnlyField(a);
    DescriptorIsTheOnlyField(b);
  }

  lemma SixFields(fields: seq<string>)
    requires |fields| == 5 && forall f | f in fields :: IsField(f)
    ensures Fields("0 " + Join(fields)) == ["0"] + fields
  {
    FirstField("0", Join(fields));
    assert "0" + " " == "0 ";
    FieldsOfJoin(fields);
  }

  /** r is the conversion of cron: a lone descriptor as it is, or "0" and the five fields. */
  predicate Converts(cron: string, r: Result<string, CronError>) {
    var fields := Fields(cron);
    match r
    case Ok(schedule) =>
      if |fields| == 1 then IsDescriptor(fields[0]) && schedule == fields[0]
      else |fields| == 5 && Fields(schedule) == ["0"] + fields
    case Err(_) => |fields| != 5 && (|fields| == 1 ==> !IsDescriptor(fields[0]))
  }

  /** A conversion succeeds exactly for a lone descriptor, which is kept, and for five fields;
      the result then splits into "0" and those five fields. */
  lemma ConversionPrependsSeconds(cron: string)
    ensures Converts(cron, ToCnpgSchedule(cron))
  {
    FieldsOfTrimmed(cron);
    FieldsAreFields(cron);
    DescriptorIsTheOnlyField(cron);
    if |Fields(cron)| == 5 { SixFields(Fields(cron)); }
  }

  /** An expression that converts: five fields, or one of seven descriptors. */
  predicate Convertible(cron: string) {
    || |Fields(cron)| == 5
    || (|Fields(cron)| == 1
        && Fields(cron)[0] in {"@yearly", "@annually", "@monthly", "@weekly", "@daily", "@midnight", "@hourly"})
  }

  /** schedule is cron for CloudNativePG: the descriptor, or second 0 and the five fields. */
  predicate Means(schedule: string, cron: string) {
    && Convertible(cron)
    && if |Fields(cron)| == 1 then schedule == Fields(cron)[0] else Fields(schedule) == ["0"] + Fields(cron)
  }

  lemma SevenDescriptors(d: string)
    ensures IsDescriptor(d) <==>
            d in {"@yearly", "@annually", "@monthly", "@weekly", "@daily", "@midnight", "@hourly"}
  {
  }

  lemma ConvertsExactly(cron: string, r: Result<string, CronError>)
    requires Converts(cron, r)
    ensures (r.Ok? <==> Convertible(cron)) && (r.Ok? ==> Means(r.value, cron))
  {
    if |Fields(cron)| == 1 { SevenDescriptors(Fields(cron)[0]); }
  }

  lemma ConversionExactly(cron: string)
    ensures ToCnpgSchedule(cron).Ok? <==> Convertible(cron)
    ensures ToCnpgSchedule(cron).Ok? ==> Means(ToCnpgSchedule(cron).value, cron)
  {
    ConversionPrependsSeconds(cron);
    ConvertsExactly(cron, ToCnpgSchedule(cron));
  }

  /** A converted expression is never accepted again. */
  lemma ConvertedIsRejected(cron: string)
    requires ToCnpgSchedule(cron).Ok? && !IsDescriptor(ToCnpgSchedule(cron).value)
    ensures ToCnpgSchedule(ToCnpgSchedule(cron).value) == Err(NotFiveFields)
  {
    ConversionPrependsSeconds(cron);
    ConversionPrependsSeconds(ToCnpgSchedule(cron).value);
  }
}
