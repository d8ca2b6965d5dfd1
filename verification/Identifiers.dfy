/** quoteIdentifier in internal/cnpg/extensions.go, against the lexical rule for delimited
    identifiers (section 4.1.1 of the PostgreSQL documentation). */
module Identifiers {
  import opened Common

  /** strings.ReplaceAll(name, "\"", "\"\""). */
  function Doubled(name: string): string {
    if name == "" then ""
    else (if name[0] == '\"' then "\"\"" else [name[0]]) + Doubled(name[1..])
  }

  function QuoteIdentifier(name: string): string {
    "\"" + Doubled(name) + "\""
  }

  /** What a lexer reads: the identifier and the text after it. */
  datatype Lexed = Lexed(name: string, rest: string)

  /** The inside of a delimited identifier: a doubled quote stands for one, a single ends it. */
  function LexInside(s: string): Option<Lexed>
    decreases |s|
  {
    if s == "" then None
    else if s[0] == '\"' then
      if |s| >= 2 && s[1] == '\"' then
        var tail := LexInside(s[2..]);
        if tail.None? then None else Some(Lexed("\"" + tail.value.name, tail.value.rest))
      else Some(Lexed("", s[1..]))
    else
      var tail := LexInside(s[1..]);
      if tail.None? then None else Some(Lexed([s[0]] + tail.value.name, tail.value.rest))
  }

  function LexDelimited(s: string): Option<Lexed> {
    if s != "" && s[0] == '\"' then LexInside(s[1..]) else None
  }

  lemma LexQuote(tail: string)
    ensures LexInside("\"\"" + tail)
            == var l := LexInside(tail);
               if l.None? then None else Some(Lexed("\"" + l.value.name, l.value.rest))
  {
    assert ("\"\"" + tail)[2..] == tail;
  }

  lemma LexOther(c: char, tail: string)
    requires c != '\"'
    ensures LexInside([c] + tail)
            == var l := LexInside(tail);
               if l.None? then None else Some(Lexed([c] + l.value.name, l.value.rest))
  {
    assert ([c] + tail)[1..] == tail;
  }

  lemma Regroup(a: string, b: string, c: string, d: string)
    ensures (a + b) + c + d == a + (b + c + d)
  {
  }

  lemma {:induction false} LexDoubled(name: string, rest: string)
    requires rest == "" || rest[0] != '\"'
    ensures LexInside(Doubled(name) + "\"" + rest) == Some(Lexed(name, rest))
    decreases |name|
  {
    if name == "" {
      assert Doubled(name) + "\"" + rest == "\"" + rest;
      assert ("\"" + rest)[1..] == rest;
    } else {
      LexDoubled(name[1..], rest);
      var tail := Doubled(name[1..]) + "\"" + rest;
      var first := if name[0] == '\"' then "\"\"" else [name[0]];
      Regroup(first, Doubled(name[1..]), "\"", rest);
      assert name == [name[0]] + name[1..];
      if name[0] == '\"' { LexQuote(tail); } else { LexOther(name[0], tail); }
    }
  }

  /** Reading a quoted name back, whatever follows it, gives exactly the name and the rest. */
  lemma QuotedReadsBack(name: string, rest: string)
    requires rest == "" || rest[0] != '\"'
    ensures LexDelimited(QuoteIdentifier(name) + rest) == Some(Lexed(name, rest))
  {
    LexDoubled(name, rest);
    assert (QuoteIdentifier(name) + rest)[1..] == Doubled(name) + "\"" + rest;
  }

  lemma {:induction false} LexInsideIsDoubled(s: string)
    ensures var l := LexInside(s);
            l.Some? ==>
              && s == Doubled(l.value.name) + "\"" + l.value.rest
              && (l.value.rest == "" || l.value.rest[0] != '\"')
    decreases |s|
  {
    var l := LexInside(s);
    if l.Some? {
      if s[0] != '\"' {
        LexInsideIsDoubled(s[1..]);
        assert l.value.name[1..] == LexInside(s[1..]).value.name;
        assert s == [s[0]] + s[1..];
      } else if |s| >= 2 && s[1] == '\"' {
        LexInsideIsDoubled(s[2..]);
        assert l.value.name[1..] == LexInside(s[2..]).value.name;
        assert s == "\"\"" + s[2..];
      } else {
        assert s == "\"" + s[1..];
      }
    }
  }

  /** Conversely, every delimited identifier in a text is the quoted form of its name, so
      quoting is the only way to write a name as one. */
  lemma DelimitedIsQuoted(s: string)
    ensures var l := LexDelimited(s);
            l.Some? ==> s == QuoteIdentifier(l.value.name) + l.value.rest
  {
    if LexDelimited(s).Some? {
      LexInsideIsDoubled(s[1..]);
      assert s == "\"" + s[1..];
    }
  }
}
