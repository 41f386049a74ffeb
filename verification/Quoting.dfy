/** Quoted literals and delimited identifiers as the diff writes them, and a lexer for
    them after sections 5.2 and 5.3 of SQL-92 (ISO/IEC 9075:1992). */
module Quoting {
  import opened Types

  // ---------- rendering ----------

  /** Every occurrence of the quote character q doubled. */
  function Doubled(q: char, s: string): string {
    if s == [] then [] else (if s[0] == q then [q, q] else [s[0]]) + Doubled(q, s[1..])
  }

  function Delimited(q: char, s: string): string {
    [q] + Doubled(q, s) + [q]
  }

  /** Identifiers in DDL. */
  function QuoteIdentifier(s: string): string {
    Delimited('"', s)
  }

  /** Identifiers in DML, where the name is pasted between quotes unchanged. */
  function PasteIdentifier(s: string): string {
    "\"" + s + "\""
  }

  function TextLiteral(v: Value, typename: string): string {
    match v
    case None => "NULL"
    case Some(text) => Delimited('\'', text) + "::" + typename
  }

  /** The comma-separated body of a VALUES list. */
  function ValuesBody(row: seq<Value>, types: seq<string>): string
    requires |row| == |types|
  {
    if row == [] then ""
    else if |row| == 1 then TextLiteral(row[0], types[0])
    else TextLiteral(row[0], types[0]) + ", " + ValuesBody(row[1..], types[1..])
  }

  function ValuesList(row: seq<Value>, types: seq<string>): string
    requires |row| == |types|
  {
    ValuesBody(row, types) + ");"
  }

  // ---------- the lexer ----------

  datatype Token = Token(value: string, rest: string)

  /** Reads a quoted token whose opening quote is already consumed. */
  function ScanQuoted(q: char, text: string): Option<Token> {
    if text == "" then None
    else if text[0] != q then Prepend(text[0], ScanQuoted(q, text[1..]))
    else if |text| > 1 && text[1] == q then Prepend(q, ScanQuoted(q, text[2..]))
    else Some(Token("", text[1..]))
  }

  function Prepend(c: char, t: Option<Token>): Option<Token> {
    match t
    case None => None
    case Some(Token(v, rest)) => Some(Token([c] + v, rest))
  }

  function ScanToken(q: char, text: string): Option<Token> {
    if text == "" || text[0] != q then None else ScanQuoted(q, text[1..])
  }

  predicate StartsWith(text: string, prefix: string) {
    prefix <= text
  }

  datatype Parsed<T> = Parsed(value: T, rest: string)

  function ParseLiteral(text: string, typename: string): Option<Parsed<Value>> {
    if StartsWith(text, "NULL") then Some(Parsed(None, text[4..]))
    else match ScanToken('\'', text)
      case None => None
      case Some(Token(v, rest)) =>
        var cast := "::" + typename;
        if StartsWith(rest, cast) then Some(Parsed(Some(v), rest[|cast|..])) else None
  }

  /** Reads a VALUES list whose column types are known. */
  function ParseValues(text: string, types: seq<string>): Option<Parsed<seq<Value>>>
    decreases |types|
  {
    if types == [] then ParseEnd([], text)
    else match ParseLiteral(text, types[0])
      case None => None
      case Some(Parsed(v, rest)) =>
        if |types| == 1 then ParseEnd([v], rest)
        else if StartsWith(rest, ", ") then
          match ParseValues(rest[2..], types[1..])
          case None => None
          case Some(Parsed(vs, end)) => Some(Parsed([v] + vs, end))
        else None
  }

  function ParseEnd(row: seq<Value>, text: string): Option<Parsed<seq<Value>>> {
    if StartsWith(text, ");") then Some(Parsed(row, text[2..])) else None
  }

  // ---------- round trips ----------

  /** A doubled text is read back whole, and reading stops at the closing quote. */
  lemma {:induction false} ScanInvertsDoubling(q: char, s: string, rest: string)
    requires rest == "" || rest[0] != q
    ensures ScanQuoted(q, Doubled(q, s) + [q] + rest) == Some(Token(s, rest))
  {
    hide ScanQuoted, Doubled;
    if s == [] {
      ScanEnd(q, rest);
    } else {
      ScanInvertsDoubling(q, s[1..], rest);
      DoubledFirst(q, s, rest);
      ScanFirst(q, s[0], Doubled(q, s[1..]) + [q] + rest);
      assert s == [s[0]] + s[1..];
    }
  }

  lemma ScanEnd(q: char, rest: string)
    requires rest == "" || rest[0] != q
    ensures ScanQuoted(q, Doubled(q, "") + [q] + rest) == Some(Token("", rest))
  {
    assert Doubled(q, "") + [q] + rest == [q] + rest;
  }

  lemma DoubledFirst(q: char, s: string, rest: string)
    requires s != []
    ensures Doubled(q, s) + [q] + rest ==
      (if s[0] == q then [q, q] else [s[0]]) + (Doubled(q, s[1..]) + [q] + rest)
  {}

  lemma ScanFirst(q: char, c: char, tail: string)
    ensures ScanQuoted(q, (if c == q then [q, q] else [c]) + tail) == Prepend(c, ScanQuoted(q, tail))
  {
    var text := (if c == q then [q, q] else [c]) + tail;
    if c == q {
      assert text[2..] == tail;
    } else {
      assert text[1..] == tail;
    }
  }

  /** The converse: nothing but the doubled text lexes to a value, so quoting is the
      only spelling and two values never share one. */
  lemma {:induction false} ScanOnlyReadsDoubled(q: char, text: string)
    ensures match ScanQuoted(q, text)
      case None => true
      case Some(Token(v, rest)) => text == Doubled(q, v) + [q] + rest && (rest == "" || rest[0] != q)
  {
    if text == "" {
    } else if text[0] != q {
      ScanOnlyReadsDoubled(q, text[1..]);
      DoubledStep(q, text[0], text[1..]);
    } else if |text| > 1 && text[1] == q {
      ScanOnlyReadsDoubled(q, text[2..]);
      assert text == [q, q] + text[2..];
      DoubledStep(q, q, text[2..]);
    } else {
      assert text == [q] + text[1..];
    }
  }

  lemma DoubledStep(q: char, c: char, tail: string)
    ensures match ScanQuoted(q, tail)
      case None => true
      case Some(Token(v, _)) => Doubled(q, [c] + v) == (if c == q then [q, q] else [c]) + Doubled(q, v)
  {
    match ScanQuoted(q, tail)
    case None =>
    case Some(Token(v, _)) => assert ([c] + v)[1..] == v;
  }

  /** Any identifier written by the DDL generator is read back, up to the following text. */
  lemma QuotedIdentifierReadsBack(s: string, rest: string)
    requires rest == "" || rest[0] != '"'
    ensures ScanToken('"', QuoteIdentifier(s) + rest) == Some(Token(s, rest))
  {
    ScanInvertsDoubling('"', s, rest);
    assert (QuoteIdentifier(s) + rest)[1..] == Doubled('"', s) + ['"'] + rest;
  }

  /** An identifier pasted by the DML generator is read back exactly when it holds no quote. */
  lemma PastedIdentifierReadsBack(s: string, rest: string)
    requires rest == "" || rest[0] != '"'
    ensures ScanToken('"', PasteIdentifier(s) + rest) == Some(Token(s, rest)) <==> '"' !in s
  {
    var text := PasteIdentifier(s) + rest;
    assert text[1..] == s + "\"" + rest;
    if '"' !in s {
      UndoubledStays('"', s);
      ScanInvertsDoubling('"', s, rest);
    } else if ScanToken('"', text) == Some(Token(s, rest)) {
      ScanOnlyReadsDoubled('"', text[1..]);
      DoubledGrows('"', s);
      assert false;
    }
  }

  lemma {:induction false} UndoubledStays(q: char, s: string)
    requires q !in s
    ensures Doubled(q, s) == s
  {
    if s != [] {
      UndoubledStays(q, s[1..]);
      assert s == [s[0]] + s[1..];
    }
  }

  lemma {:induction false} DoubledGrows(q: char, s: string)
    ensures |Doubled(q, s)| >= |s|
    ensures q in s ==> |Doubled(q, s)| > |s|
  {
    if s != [] {
      DoubledGrows(q, s[1..]);
    }
  }

  lemma AfterPrefix(prefix: string, rest: string)
    ensures StartsWith(prefix + rest, prefix) && (prefix + rest)[|prefix|..] == rest
  {}

  /** A rendered value is read back, and reading stops right after its type. */
  lemma LiteralReadsBack(v: Value, typename: string, rest: string)
    ensures ParseLiteral(TextLiteral(v, typename) + rest, typename) == Some(Parsed(v, rest))
  {
    match v
    case None => AfterPrefix("NULL", rest);
    case Some(s) =>
      var cast := "::" + typename;
      var text := TextLiteral(v, typename) + rest;
      QuotedThenCast(s, cast, rest);
      assert text == Delimited('\'', s) + (cast + rest);
      assert text[0] == '\'' && !StartsWith(text, "NULL");
      AfterPrefix(cast, rest);
  }

  lemma QuotedThenCast(s: string, cast: string, rest: string)
    requires |cast| > 0 && cast[0] == ':'
    ensures ScanToken('\'', Delimited('\'', s) + (cast + rest)) == Some(Token(s, cast + rest))
  {
    ScanInvertsDoubling('\'', s, cast + rest);
    assert (Delimited('\'', s) + (cast + rest))[1..] == Doubled('\'', s) + ['\''] + (cast + rest);
  }

  /** A rendered VALUES list parses back to its row, for every row, NULLs included. */
  lemma {:induction false} ValuesReadBack(row: seq<Value>, types: seq<string>, rest: string)
    requires |row| == |types|
    ensures ParseValues(ValuesList(row, types) + rest, types) == Some(Parsed(row, rest))
  {
    hide *;
    if row == [] {
      NoValues(types, rest);
    } else if |row| == 1 {
      LiteralThen(row, types, rest);
      OneValue(ValuesList(row, types) + rest, types, row, rest);
    } else {
      LiteralThen(row, types, rest);
      ValuesReadBack(row[1..], types[1..], rest);
      MoreValues(ValuesList(row, types) + rest, types, row, ValuesList(row[1..], types[1..]) + rest, rest);
    }
  }

  lemma NoValues(types: seq<string>, rest: string)
    requires types == []
    ensures ParseValues(ValuesList([], types) + rest, types) == Some(Parsed([], rest))
  {
    AfterPrefix(");", rest);
    assert ValuesList([], types) + rest == ");" + rest;
  }

  lemma OneValue(text: string, types: seq<string>, row: seq<Value>, rest: string)
    requires |row| == |types| == 1 && ParseLiteral(text, types[0]) == Some(Parsed(row[0], ");" + rest))
    ensures ParseValues(text, types) == Some(Parsed(row, rest))
  {
    hide ParseLiteral;
    AfterPrefix(");", rest);
    assert row == [row[0]];
  }

  /** Reading a list whose first literal and whose tail are read. */
  lemma MoreValues(text: string, types: seq<string>, row: seq<Value>, tail: string, rest: string)
    requires |row| == |types| > 1 && ParseLiteral(text, types[0]) == Some(Parsed(row[0], ", " + tail))
    requires ParseValues(tail, types[1..]) == Some(Parsed(row[1..], rest))
    ensures ParseValues(text, types) == Some(Parsed(row, rest))
  {
    hide ParseLiteral;
    AfterPrefix(", ", tail);
    assert row == [row[0]] + row[1..];
  }

  lemma LiteralThen(row: seq<Value>, types: seq<string>, rest: string)
    requires |row| == |types| > 0
    ensures var after := if |row| == 1 then ");" + rest else ", " + (ValuesList(row[1..], types[1..]) + rest);
      ParseLiteral(ValuesList(row, types) + rest, types[0]) == Some(Parsed(row[0], after))
  {
    var after := if |row| == 1 then ");" + rest else ", " + (ValuesList(row[1..], types[1..]) + rest);
    LiteralReadsBack(row[0], types[0], after);
    var first := TextLiteral(row[0], types[0]);
    if |row| == 1 {
      assert (first + ");") + rest == first + (");" + rest);
    } else {
      Regroup(first, ValuesBody(row[1..], types[1..]), rest);
    }
  }

  lemma Regroup(a: string, b: string, rest: string)
    ensures ((a + ", " + b) + ");") + rest == a + (", " + ((b + ");") + rest))
  {}
}
