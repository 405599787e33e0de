/** Identifier quoting of the three dialects (internal/adapters/adapter.go) as a printer, and the
    delimited identifiers of section 5.2 of ISO/IEC 9075-2 as the reader that undoes it. */
module Quoting {
  import opened Domain

  datatype Dialect = Postgres | MySQL | SQLServer {
    function Open(): char {
      match this
      case Postgres => '\"'
      case MySQL => '`'
      case SQLServer => '['
    }

    function Close(): char {
      match this
      case Postgres => '\"'
      case MySQL => '`'
      case SQLServer => ']'
    }
  }

  /** strings.ReplaceAll(s, q, qq). */
  function Doubled(s: string, q: char): string {
    if s == "" then "" else (if s[0] == q then [q, q] else [s[0]]) + Doubled(s[1..], q)
  }

  function Quote(d: Dialect, s: string): string {
    [d.Open()] + Doubled(s, d.Close()) + [d.Close()]
  }

  /** strings.Join with a comma. */
  function Join(parts: seq<string>): string {
    if parts == [] then ""
    else if |parts| == 1 then parts[0]
    else parts[0] + "," + Join(parts[1..])
  }

  function QuoteList(d: Dialect, names: seq<string>): string {
    Join(seq(|names|, i requires 0 <= i < |names| => Quote(d, names[i])))
  }

  /** The column list of the duplicate query: fill an array of quoted names and join it. */
  method GroupColumns(d: Dialect, names: seq<string>) returns (clause: string)
    ensures ReadList(d, clause) == Some(names)
    ensures clause == QuoteList(d, names)
  {
    var groupCols := new string[|names|](_ => "");
    for i := 0 to |names|
      invariant forall k | 0 <= k < i :: groupCols[k] == Quote(d, names[k])
    {
      groupCols[i] := Quote(d, names[i]);
    }
    clause := Join(groupCols[..]);
    assert groupCols[..] == seq(|names|, i requires 0 <= i < |names| => Quote(d, names[i]));
    ReadsList(d, names);
  }

  lemma QuoteListStep(d: Dialect, names: seq<string>)
    requires |names| > 1
    ensures QuoteList(d, names) == Quote(d, names[0]) + "," + QuoteList(d, names[1..])
  {
    var all := seq(|names|, i requires 0 <= i < |names| => Quote(d, names[i]));
    assert all[1..] == seq(|names[1..]|, i requires 0 <= i < |names[1..]| => Quote(d, names[1..][i]));
  }

  function QualifiedName(d: Dialect, schema: string, table: string): string {
    Quote(d, schema) + "." + Quote(d, table)
  }

  // ----- the reader -----

  /** Reads the rest of a delimited identifier: a doubled delimiter stands for itself, a single one ends
      the identifier. The result is the name and what follows. */
  function ReadBody(text: string, q: char): (r: Option<(string, string)>)
    ensures r.Some? ==> |r.value.1| < |text|
  {
    if text == "" then None
    else if text[0] != q then
      var r := ReadBody(text[1..], q);
      if r.Some? then Some(([text[0]] + r.value.0, r.value.1)) else None
    else if |text| > 1 && text[1] == q then
      var r := ReadBody(text[2..], q);
      if r.Some? then Some(([q] + r.value.0, r.value.1)) else None
    else Some(("", text[1..]))
  }

  function ReadIdentifier(d: Dialect, text: string): (r: Option<(string, string)>)
    ensures r.Some? ==> |r.value.1| < |text|
  {
    if text == "" || text[0] != d.Open() then None else ReadBody(text[1..], d.Close())
  }

  function ReadList(d: Dialect, text: string): Option<seq<string>>
    decreases |text|
  {
    if text == "" then Some([])
    else
      var r := ReadIdentifier(d, text);
      if r.None? then None
      else if r.value.1 == "" then Some([r.value.0])
      else if r.value.1[0] != ',' || |r.value.1| == 1 then None
      else
        var rest := ReadList(d, r.value.1[1..]);
        if rest.Some? then Some([r.value.0] + rest.value) else None
  }

  function ReadQualified(d: Dialect, text: string): Option<(string, string)> {
    var r := ReadIdentifier(d, text);
    if r.None? || r.value.1 == "" || r.value.1[0] != '.' then None
    else
      var t := ReadIdentifier(d, r.value.1[1..]);
      if t.None? || t.value.1 != "" then None else Some((r.value.0, t.value.0))
  }

  // ----- round trips -----

  lemma {:induction false} ReadsBody(s: string, q: char, rest: string)
    requires rest == "" || rest[0] != q
    ensures ReadBody(Doubled(s, q) + [q] + rest, q) == Some((s, rest))
  {
    var text := Doubled(s, q) + [q] + rest;
    if s == "" {
      assert text == [q] + rest;
    } else {
      var tail := Doubled(s[1..], q) + [q] + rest;
      ReadsBody(s[1..], q, rest);
      assert s == [s[0]] + s[1..];
      if s[0] == q {
        assert text == [q, q] + tail;
        assert text[2..] == tail;
      } else {
        assert text == [s[0]] + tail;
        assert text[1..] == tail;
      }
    }
  }

  /** A quoted name is read back whatever characters it contains, delimiters included, and the reader
      stops exactly where the quoted name ends. */
  lemma ReadsIdentifier(d: Dialect, s: string, rest: string)
    requires rest == "" || rest[0] != d.Close()
    ensures ReadIdentifier(d, Quote(d, s) + rest) == Some((s, rest))
  {
    ReadsBody(s, d.Close(), rest);
    assert (Quote(d, s) + rest)[1..] == Doubled(s, d.Close()) + [d.Close()] + rest;
  }

  /** The column list of a query reads back as the list of the column names. */
  lemma {:induction false} ReadsList(d: Dialect, names: seq<string>)
    ensures ReadList(d, QuoteList(d, names)) == Some(names)
  {
    if names != [] {
      var text := QuoteList(d, names);
      if |names| == 1 {
        assert text == Quote(d, names[0]) + "";
        ReadsIdentifier(d, names[0], "");
        assert names == [names[0]];
      } else {
        var more := QuoteList(d, names[1..]);
        QuoteListStep(d, names);
        assert more != "";
        assert text == Quote(d, names[0]) + ("," + more);
        ReadsIdentifier(d, names[0], "," + more);
        assert ("," + more)[1..] == more;
        ReadsList(d, names[1..]);
        assert names == [names[0]] + names[1..];
      }
    }
  }

  lemma {:induction false} BodyIsDoubled(text: string, q: char)
    requires ReadBody(text, q).Some?
    ensures var r := ReadBody(text, q).value;
            text == Doubled(r.0, q) + [q] + r.1 && (r.1 == "" || r.1[0] != q)
    decreases |text|
  {
    var r := ReadBody(text, q).value;
    if text[0] != q {
      BodyIsDoubled(text[1..], q);
      assert r.0[1..] == ReadBody(text[1..], q).value.0;
      assert text == [text[0]] + text[1..];
    } else if |text| > 1 && text[1] == q {
      BodyIsDoubled(text[2..], q);
      assert r.0[1..] == ReadBody(text[2..], q).value.0;
      assert text == [q, q] + text[2..];
    }
  }

  /** The reader accepts nothing but what Quote writes: it splits a text into a name and a rest exactly
      when the text is the quoted name followed by that rest. */
  lemma ReadsOnlyQuoted(d: Dialect, text: string, s: string, rest: string)
    ensures ReadIdentifier(d, text) == Some((s, rest)) <==>
            text == Quote(d, s) + rest && (rest == "" || rest[0] != d.Close())
  {
    if ReadIdentifier(d, text) == Some((s, rest)) {
      BodyIsDoubled(text[1..], d.Close());
      assert text == [d.Open()] + text[1..];
    }
    if text == Quote(d, s) + rest && (rest == "" || rest[0] != d.Close()) {
      ReadsIdentifier(d, s, rest);
    }
  }

  /** schema.table */
  lemma ReadsQualified(d: Dialect, schema: string, table: string)
    ensures ReadQualified(d, QualifiedName(d, schema, table)) == Some((schema, table))
  {
    var rest := "." + Quote(d, table);
    assert QualifiedName(d, schema, table) == Quote(d, schema) + rest;
    ReadsIdentifier(d, schema, rest);
    assert rest[1..] == Quote(d, table) + "";
    ReadsIdentifier(d, table, "");
  }

  /** Two tables never share a quoted name, and two column lists never share a quoted list. */
  lemma QuotingInjective(d: Dialect, s: string, t: string, s': string, t': string, xs: seq<string>, ys: seq<string>)
    ensures QualifiedName(d, s, t) == QualifiedName(d, s', t') <==> s == s' && t == t'
    ensures QuoteList(d, xs) == QuoteList(d, ys) <==> xs == ys
  {
    ReadsQualified(d, s, t);
    ReadsQualified(d, s', t');
    ReadsList(d, xs);
    ReadsList(d, ys);
  }

  // ----- the quoted text -----

  lemma {:induction false} DoubledWithout(s: string, q: char)
    requires q !in s
    ensures Doubled(s, q) == s
  {
    if s != "" {
      DoubledWithout(s[1..], q);
      assert s == [s[0]] + s[1..];
    }
  }

  lemma {:induction false} DoubledJoins(a: string, b: string, q: char)
    ensures Doubled(a + b, q) == Doubled(a, q) + Doubled(b, q)
  {
    if a == "" {
      assert a + b == b;
    } else {
      DoubledJoins(a[1..], b, q);
      assert (a + b)[1..] == a[1..] + b;
    }
  }

  lemma QuotedText(d: Dialect, a: string, b: string)
    requires d.Close() !in a
    ensures Quote(d, a) == [d.Open()] + a + [d.Close()]
    ensures Quote(d, a + [d.Close()] + b) == [d.Open()] + a + [d.Close(), d.Close()] + Quote(d, b)[1..]
  {
    var q := d.Close();
    DoubledWithout(a, q);
    DoubledJoins(a, [q] + b, q);
    assert a + [q] + b == a + ([q] + b);
    assert ([q] + b)[1..] == b;
    assert Quote(d, b)[1..] == Doubled(b, q) + [q];
  }

  /** What the PostgreSQL dialect writes: quotation marks around the name, in which every one is doubled and
      nothing else is changed. `a` is what precedes the first of them, if there is one. */
  lemma PostgresText(a: string, b: string)
    requires '\"' !in a
    ensures Quote(Postgres, a) == "\"" + a + "\""
    ensures Quote(Postgres, a + "\"" + b) == "\"" + a + "\"\"" + Quote(Postgres, b)[1..]
  {
    QuotedText(Postgres, a, b);
  }

  /** The same for MySQL with backticks. */
  lemma MySQLText(a: string, b: string)
    requires '`' !in a
    ensures Quote(MySQL, a) == "`" + a + "`"
    ensures Quote(MySQL, a + "`" + b) == "`" + a + "``" + Quote(MySQL, b)[1..]
  {
    QuotedText(MySQL, a, b);
  }

  /** The same for SQL Server with brackets, of which only the closing one is doubled. */
  lemma SQLServerText(a: string, b: string)
    requires ']' !in a
    ensures Quote(SQLServer, a) == "[" + a + "]"
    ensures Quote(SQLServer, a + "]" + b) == "[" + a + "]]" + Quote(SQLServer, b)[1..]
  {
    QuotedText(SQLServer, a, b);
  }
}
