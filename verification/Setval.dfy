/** The setval() call that the DDL generator writes: the sequence is named inside a text
    literal, which the server reads as a possibly qualified relation name. */
module Setval {
  import opened Types
  import opened Quoting

  /** The call up to its second argument; schema and name are pasted unquoted. */
  function Call(schema: string, name: string): string {
    "'" + schema + "." + name + "', "
  }

  // ---------- how the server reads a relation name from text ----------

  predicate IsSpace(c: char) {
    c in {' ', '\t', '\n', '\r', '\U{b}', '\U{c}'}
  }

  predicate IsUpper(c: char) {
    'A' <= c <= 'Z'
  }

  function LowerChar(c: char): char {
    if IsUpper(c) then (c as int + 32) as char else c
  }

  /** Names outside quotes are folded to lower case. */
  function Lower(s: string): string {
    seq(|s|, i requires 0 <= i < |s| => LowerChar(s[i]))
  }

  function SkipSpace(t: string): (r: string)
    ensures |r| <= |t| && (r == "" || !IsSpace(r[0]))
    ensures t != "" && IsSpace(t[0]) ==> |r| < |t|
    ensures t == "" || !IsSpace(t[0]) ==> r == t
  {
    if t != "" && IsSpace(t[0]) then SkipSpace(t[1..]) else t
  }

  predicate Separates(c: char) {
    c == '.' || IsSpace(c)
  }

  /** The length of an unquoted name: up to the next dot or white space. */
  function NameLength(t: string): (n: nat)
    ensures n <= |t| && (forall i :: 0 <= i < n ==> !Separates(t[i]))
    ensures n < |t| ==> Separates(t[n])
  {
    if t == "" || Separates(t[0]) then 0 else 1 + NameLength(t[1..])
  }

  /** One name; text in double quotes is taken as it is. */
  function ReadName(t: string): (r: Option<Token>)
    ensures r.Some? ==> |r.value.rest| < |t| && |r.value.value| + |r.value.rest| <= |t|
  {
    if t != "" && t[0] == '"' then
      ScanOnlyReadsDoubled('"', t[1..]);
      QuotedLength(t[1..]);
      ScanQuoted('"', t[1..])
    else if NameLength(t) == 0 then None
    else Some(Token(Lower(t[..NameLength(t)]), t[NameLength(t)..]))
  }

  lemma QuotedLength(t: string)
    ensures ScanQuoted('"', t).Some? ==>
      var r := ScanQuoted('"', t).value; |r.value| + |r.rest| + 1 <= |t|
  {
    ScanOnlyReadsDoubled('"', t);
    if ScanQuoted('"', t).Some? {
      DoubledGrows('"', ScanQuoted('"', t).value.value);
    }
  }

  /** The names between dots. */
  function ReadNames(t: string): Option<seq<string>>
    decreases |t|
  {
    match ReadName(t)
    case None => None
    case Some(Token(n, rest)) =>
      var r := SkipSpace(rest);
      if r == "" then Some([n])
      else if r[0] != '.' then None
      else match ReadNames(SkipSpace(r[1..]))
        case None => None
        case Some(ns) => Some([n] + ns)
  }

  /** The schema and name that the call addresses. */
  function Read(text: string): Option<(string, string)> {
    match ScanToken('\'', text)
    case None => None
    case Some(Token(v, rest)) =>
      if rest != ", " then None
      else match ReadNames(SkipSpace(v))
        case Some(ns) => if |ns| == 2 then Some((ns[0], ns[1])) else None
        case None => None
  }

  // ---------- when it addresses the sequence it is written for ----------

  /** One word that neither quotes nor ends the literal. */
  predicate OneWord(s: string) {
    s != "" && s[0] != '"' && forall i :: 0 <= i < |s| ==> !Separates(s[i]) && s[i] != '\''
  }

  /** A plain lower-case name: it needs no quotes. */
  predicate Plain(s: string) {
    OneWord(s) && forall i :: 0 <= i < |s| ==> !IsUpper(s[i])
  }

  lemma LowerPlain(s: string)
    requires Plain(s)
    ensures Lower(s) == s
  {}

  lemma NameStops(s: string, rest: string)
    requires OneWord(s) && (rest == "" || Separates(rest[0]))
    ensures NameLength(s + rest) == |s|
  {
    assert forall i :: 0 <= i < |s| ==> (s + rest)[i] == s[i];
    assert rest != "" ==> (s + rest)[|s|] == rest[0];
  }

  lemma ReadsWord(s: string, rest: string)
    requires OneWord(s) && (rest == "" || Separates(rest[0]))
    ensures ReadName(s + rest) == Some(Token(Lower(s), rest))
  {
    NameStops(s, rest);
    assert (s + rest)[0] == s[0] && (s + rest)[..|s|] == s && (s + rest)[|s|..] == rest;
  }

  lemma ReadsWords(schema: string, name: string)
    requires OneWord(schema) && OneWord(name)
    ensures ReadNames(schema + "." + name) == Some([Lower(schema), Lower(name)])
  {
    var v := schema + "." + name;
    ReadsWord(schema, "." + name);
    assert schema + ("." + name) == v;
    ReadsWord(name, "");
    assert name + "" == name && ("." + name)[1..] == name && !Separates(name[0]);
    hide ReadName;
    assert ReadNames(name) == Some([Lower(name)]);
    assert [Lower(schema)] + [Lower(name)] == [Lower(schema), Lower(name)];
  }

  lemma CallIsLiteral(v: string)
    requires '\'' !in v
    ensures ScanToken('\'', "'" + v + "', ") == Some(Token(v, ", "))
  {
    hide ScanQuoted, Doubled;
    UndoubledStays('\'', v);
    ScanInvertsDoubling('\'', v, ", ");
    assert ("'" + v + "', ")[1..] == v + ['\''] + ", ";
  }

  /** Names outside quotes are folded: the call for a name of mixed case addresses the
      sequence of the lower-case name. */
  lemma WordsAreFolded(schema: string, name: string)
    requires OneWord(schema) && OneWord(name)
    ensures Read(Call(schema, name)) == Some((Lower(schema), Lower(name)))
  {
    hide ScanToken, ReadNames, Lower;
    var v := schema + "." + name;
    assert '\'' !in v;
    CallIsLiteral(v);
    assert Call(schema, name) == "'" + v + "', ";
    ReadsWords(schema, name);
    assert v[0] == schema[0] && !Separates(schema[0]);
  }

  /** A name read without quotes took no more than its own length, anything else more. */
  lemma ReadNameTight(t: string)
    requires ReadName(t).Some? && |t| <= |ReadName(t).value.value| + |ReadName(t).value.rest|
    ensures var r := ReadName(t).value;
      t[0] != '"' && |r.value| == NameLength(t) > 0 && r.value == Lower(t[..|r.value|]) && r.rest == t[|r.value|..]
  {
    if t[0] == '"' {
      QuotedLength(t[1..]);
    }
  }

  /** Reading two names back from a text no longer than the names and a dot: the text is
      those names, unquoted and already in lower case. */
  lemma ReadNamesTight(t: string, schema: string, name: string)
    requires ReadNames(SkipSpace(t)) == Some([schema, name]) && |t| <= |schema| + 1 + |name|
    ensures NameLength(t) == |schema| > 0 && t[0] != '"' && schema == Lower(t[..|schema|])
    ensures |t| == |schema| + 1 + |name|
    ensures var u := t[|schema| + 1..];
      NameLength(u) == |name| > 0 && u[0] != '"' && name == Lower(u)
  {
    hide Lower;
    var t0 := SkipSpace(t);
    var s, rest := ReadName(t0).value.value, ReadName(t0).value.rest;
    var r := SkipSpace(rest);
    assert |[s]| == 1 && |[schema, name]| == 2;
    assert r != "";
    var u := SkipSpace(r[1..]);
    TwoNames(s, ReadNames(u).value, schema, name);
    var n, end := ReadName(u).value.value, ReadName(u).value.rest;
    OneName(u, name);
    ReadNameTight(u);
    ReadNameTight(t0);
    assert t[|schema| + 1..] == u && u[..|name|] == u;
  }

  lemma TwoNames(s: string, ns: seq<string>, x: string, y: string)
    requires [s] + ns == [x, y]
    ensures s == x && ns == [y]
  {
    assert ([s] + ns)[0] == s && ([s] + ns)[1..] == ns;
  }

  lemma OneName(u: string, name: string)
    requires ReadNames(u) == Some([name])
    ensures ReadName(u).Some? && ReadName(u).value.value == name && SkipSpace(ReadName(u).value.rest) == ""
  {
    var n, end := ReadName(u).value.value, ReadName(u).value.rest;
    var r := SkipSpace(end);
    if r != "" {
      SomeName(SkipSpace(r[1..]));
      LongerList(n, ReadNames(SkipSpace(r[1..])).value, name);
    } else {
      assert [n][0] == [name][0];
    }
  }

  lemma LongerList(n: string, ns: seq<string>, name: string)
    requires |ns| > 0
    ensures [n] + ns != [name]
  {
    assert |[n] + ns| > |[name]|;
  }

  lemma SomeName(u: string)
    requires ReadNames(u).Some?
    ensures |ReadNames(u).value| > 0
  {}

  lemma LowerIsPlain(u: string)
    requires u != "" && u[0] != '"' && NameLength(u) == |u| && Lower(u) == u && '\'' !in u
    ensures Plain(u)
  {
    forall i | 0 <= i < |u| ensures !Separates(u[i]) && !IsUpper(u[i]) && u[i] != '\'' {
      assert Lower(u)[i] == LowerChar(u[i]);
    }
  }

  /** The call addresses the sequence it is written for iff schema and name are plain:
      other names are folded to lower case, split, or end the literal. */
  lemma ReadsBackIff(schema: string, name: string)
    ensures Read(Call(schema, name)) == Some((schema, name)) <==> Plain(schema) && Plain(name)
  {
    if Plain(schema) && Plain(name) {
      LowerPlain(schema);
      LowerPlain(name);
      WordsAreFolded(schema, name);
    }
    if Read(Call(schema, name)) == Some((schema, name)) {
      ReadsBackOnlyPlain(schema, name);
    }
  }

  lemma ReadsBackOnlyPlain(schema: string, name: string)
    requires Read(Call(schema, name)) == Some((schema, name))
    ensures Plain(schema) && Plain(name)
  {
    hide ScanToken, ReadNames, SkipSpace, Lower, Plain;
    var w := schema + "." + name;
    assert Call(schema, name) == "'" + w + "', ";
    var v := ScanToken('\'', Call(schema, name)).value.value;
    LiteralIs(w, v);
    assert ReadNames(SkipSpace(v)) == Some([schema, name]) by { ReadIsNames(schema, name); }
    hide Read, Call;
    ReadNamesTight(v, schema, name);
    assert v == w;
    assert v[..|schema|] == schema && v[|schema| + 1..] == name && v[0] == schema[0];
    assert NameLength(schema) == |schema| by { NameOfPrefix(v, |schema|); }
    LowerIsPlain(schema);
    LowerIsPlain(name);
  }

  lemma ReadIsNames(schema: string, name: string)
    requires Read(Call(schema, name)) == Some((schema, name))
    ensures ScanToken('\'', Call(schema, name)).Some? && ScanToken('\'', Call(schema, name)).value.rest == ", "
    ensures ReadNames(SkipSpace(ScanToken('\'', Call(schema, name)).value.value)) == Some([schema, name])
  {
    hide ScanToken, ReadNames, SkipSpace, Call;
    var ns := ReadNames(SkipSpace(ScanToken('\'', Call(schema, name)).value.value)).value;
    assert ns == [ns[0], ns[1]];
  }

  lemma NameOfPrefix(t: string, n: nat)
    requires NameLength(t) == n
    ensures NameLength(t[..n]) == n
  {
    assert forall i :: 0 <= i < n ==> t[..n][i] == t[i];
  }

  /** A literal's value is never longer than what was pasted, and as long only when that
      held no quote. */
  lemma LiteralIs(w: string, v: string)
    requires ScanToken('\'', "'" + w + "', ") == Some(Token(v, ", "))
    ensures |v| <= |w| && (|v| == |w| ==> v == w && '\'' !in w)
  {
    var text := ("'" + w + "', ")[1..];
    assert text == w + "', ";
    ScanOnlyReadsDoubled('\'', text);
    assert w + "', " == Doubled('\'', v) + "', ";
    assert |w| == |Doubled('\'', v)|;
    assert w == (w + "', ")[..|w|] == Doubled('\'', v);
    DoubledGrows('\'', v);
    if '\'' !in v {
      UndoubledStays('\'', v);
    }
  }
}
