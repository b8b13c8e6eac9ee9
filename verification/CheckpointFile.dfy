/** The checkpoint file: one Lua assignment per string checkpoint, written from the table in whatever
    order lua_next has it, and what loading it restores. Loading covers the Lua that the writer means
    to write, assignments of single quoted literals (section 2.1 of the Lua 5.1 Reference Manual);
    anything else is not a checkpoint file. */
module CheckpointFile {
  import opened Options
  import opened Decimal
  import opened Queue
  import CheckpointText

  type Values = CheckpointText.Values

  // ---- writing ----

  function Escape(c: char): string {
    if c == '\n' then "\\n"
    else if c == '\r' then "\\r"
    else if c == '"' then "\\\""
    else if c == '\\' then "\\\\"
    else [c]
  }

  function Escaped(s: string): string {
    if s == [] then [] else Escape(s[0]) + Escaped(s[1..])
  }

  lemma {:induction false} EscapedSnoc(s: string, c: char)
    ensures Escaped(s + [c]) == Escaped(s) + Escape(c)
  {
    if s == [] {
      assert [c][1..] == [];
    } else {
      assert (s + [c])[1..] == s[1..] + [c];
      EscapedSnoc(s[1..], c);
    }
  }

  /** What is written of a value has no line break, and every double quote in it stands behind a backslash. */
  lemma {:induction false} OneLine(s: string, i: nat)
    requires i < |Escaped(s)|
    ensures Escaped(s)[i] != '\n' && Escaped(s)[i] != '\r'
    ensures Escaped(s)[i] == '"' ==> i > 0 && Escaped(s)[i - 1] == '\\'
  {
    var first := Escape(s[0]);
    if i >= |first| {
      OneLine(s[1..], i - |first|);
      assert Escaped(s)[i] == Escaped(s[1..])[i - |first|];
      if i > |first| {
        assert Escaped(s)[i - 1] == Escaped(s[1..])[i - 1 - |first|];
      }
    }
  }

  /** hs_output_lua_string: what it writes of `s`, up to the first NUL. */
  method OutputLuaString(s: string) returns (out: string)
    ensures out == Escaped(CheckpointText.CString(s))
  {
    var text := CheckpointText.CString(s);
    var i := 0;
    out := "";
    while i < |text|
      invariant 0 <= i <= |text|
      invariant out == Escaped(text[..i])
    {
      match text[i] {
        case '\n' => out := out + "\\n";
        case '\r' => out := out + "\\r";
        case '"' => out := out + "\\\"";
        case '\\' => out := out + "\\\\";
        case c => out := out + [c];
      }
      EscapedSnoc(text[..i], text[i]);
      assert text[..i + 1] == text[..i] + [text[i]];
      i := i + 1;
    }
    assert text[..i] == text;
  }

  const OPEN := "_G['"
  const MIDDLE := "] = '"
  const CLOSE := "\n"

  function Line(key: string, value: string): string {
    OPEN + CheckpointText.CString(key) + "'" + MIDDLE + Escaped(CheckpointText.CString(value)) + "'" + CLOSE
  }

  function Dump(order: seq<string>, values: Values): string
    requires forall key :: key in order ==> key in values
  {
    if order == [] then [] else Line(order[0], values[order[0]]) + Dump(order[1..], values)
  }

  /** An order in which lua_next may go through the table: every key once. */
  ghost predicate Enumerates(order: seq<string>, values: Values) {
    && (forall key :: key in order <==> key in values)
    && (forall i, j :: 0 <= i < j < |order| ==> order[i] != order[j])
  }

  lemma {:induction false} DumpSnoc(order: seq<string>, key: string, values: Values)
    requires key in values && forall k :: k in order ==> k in values
    ensures Dump(order + [key], values) == Dump(order, values) + Line(key, values[key])
  {
    if order == [] {
      assert [key][1..] == [];
    } else {
      assert (order + [key])[1..] == order[1..] + [key];
      DumpSnoc(order[1..], key, values);
    }
  }

  /** hs_output_checkpoints. */
  method OutputCheckpoints(order: seq<string>, values: Values) returns (out: string)
    requires Enumerates(order, values)
    ensures out == Dump(order, values)
  {
    hide Dump, Line;
    out := "";
    var i := 0;
    assert Dump([], values) == "" by { EmptyDump(values); }
    while i < |order|
      invariant 0 <= i <= |order|
      invariant out == Dump(order[..i], values)
    {
      var line := LineOf(order[i], values[order[i]]);
      DumpSnoc(order[..i], order[i], values);
      assert order[..i + 1] == order[..i] + [order[i]];
      out := out + line;
      i := i + 1;
    }
    assert order[..i] == order;
  }

  lemma EmptyDump(values: Values)
    ensures Dump([], values) == ""
  {
  }

  /** One round of hs_output_checkpoints. */
  method LineOf(key: string, value: string) returns (out: string)
    ensures out == Line(key, value)
  {
    out := "_G['" + CheckpointText.CString(key) + "'] = '";
    var literal := OutputLuaString(value);
    out := out + literal;
    out := out + "'\n";
  }

  // ---- loading ----

  datatype Lexed = Literal(text: string, rest: string) | Malformed

  predicate IsBreak(c: char) {
    c == '\n' || c == '\r'
  }

  /** The end of a decimal escape: at most three digits. */
  function EscapeDigits(s: string): (n: nat)
    ensures n <= |s| && n <= 3
    ensures AllDigits(s[..n])
  {
    if DigitRun(s) <= 3 then DigitRun(s) else 3
  }

  /** The characters that an escape sequence takes after its backslash, and what it stands for. */
  function EscapeLength(s: string): (n: nat)
    requires s != []
    ensures 1 <= n <= |s|
  {
    if IsDigit(s[0]) then (if EscapeDigits(s) == 0 then 1 else EscapeDigits(s))
    else if IsBreak(s[0]) && |s| > 1 && IsBreak(s[1]) && s[1] != s[0] then 2
    else 1
  }

  function EscapeValue(s: string): Option<char>
    requires s != []
  {
    if IsDigit(s[0]) then
      var v := Value(s[..EscapeDigits(s)]);
      if v <= 255 then Some(v as char) else None
    else Some(match s[0]
              case 'a' => 7 as char
              case 'b' => 8 as char
              case 'f' => 12 as char
              case 'n' => '\n'
              case 'r' => '\r'
              case 't' => '\t'
              case 'v' => 11 as char
              case c => if IsBreak(c) then '\n' else c)
  }

  function Prepend(c: char, l: Lexed): Lexed {
    if l.Literal? then Literal([c] + l.text, l.rest) else l
  }

  /** The Lua literal whose opening quote has just been read. */
  function Lex(s: string): Lexed {
    if s == [] || IsBreak(s[0]) then Malformed
    else if s[0] == '\'' then Literal([], s[1..])
    else if s[0] != '\\' then Prepend(s[0], Lex(s[1..]))
    else if |s| == 1 || EscapeValue(s[1..]).None? then Malformed
    else Prepend(EscapeValue(s[1..]).value, Lex(s[1 + EscapeLength(s[1..])..]))
  }

  function After(prefix: string, s: string): Option<string> {
    if prefix <= s then Some(s[|prefix|..]) else None
  }

  datatype Statement = Assign(key: string, value: string, rest: string) | Error

  function AfterValue(key: string, value: Lexed): (r: Statement)
    ensures r.Assign? ==> value.Literal? && |r.rest| <= |value.rest|
  {
    if value.Malformed? || After(CLOSE, value.rest).None? then Error
    else Assign(key, value.text, After(CLOSE, value.rest).value)
  }

  function AfterKey(key: Lexed): (r: Statement)
    ensures r.Assign? ==> key.Literal? && |r.rest| <= |key.rest|
  {
    if key.Malformed? || After(MIDDLE, key.rest).None? then Error
    else
      LexConsumes(After(MIDDLE, key.rest).value);
      AfterValue(key.text, Lex(After(MIDDLE, key.rest).value))
  }

  /** One assignment, up to and including its newline. */
  function ReadStatement(s: string): (r: Statement)
    ensures r.Assign? ==> |r.rest| < |s|
  {
    if After(OPEN, s).None? then Error
    else
      LexConsumes(After(OPEN, s).value);
      AfterKey(Lex(After(OPEN, s).value))
  }

  lemma {:induction false} LexConsumes(s: string)
    ensures Lex(s).Literal? ==> |Lex(s).rest| < |s|
  {
    if s != [] && !IsBreak(s[0]) && s[0] != '\'' {
      if s[0] != '\\' {
        LexConsumes(s[1..]);
      } else if |s| > 1 {
        LexConsumes(s[1 + EscapeLength(s[1..])..]);
      }
    }
  }

  /** luaL_dofile on a checkpoint file. */
  function Load(s: string, table: Values): Option<Values>
    decreases |s|
  {
    if s == [] then Some(table)
    else
      match ReadStatement(s)
      case Error => None
      case Assign(key, value, rest) => Load(rest, table[key := value])
  }

  // ---- a key or value survives exactly if ... ----

  /** No quote, backslash, line break or NUL: keys are written as they are. */
  predicate GoodKey(k: string) {
    Plain(k) && '\0' !in k
  }

  /** Values are escaped, but not their single quotes. */
  predicate GoodValue(v: string) {
    '\'' !in v && '\0' !in v
  }

  /** A character that reading does not treat specially. */
  predicate IsPlain(c: char) {
    !IsBreak(c) && c != '\'' && c != '\\'
  }

  predicate Plain(k: string) {
    forall c :: c in k ==> IsPlain(c)
  }

  lemma {:induction false} KeyLexes(k: string, rest: string)
    requires Plain(k)
    ensures Lex(k + "'" + rest) == Literal(k, rest)
  {
    if k == [] {
      assert k + "'" + rest == "'" + rest;
    } else {
      assert k[0] in k && IsPlain(k[0]);
      assert (k + "'" + rest)[1..] == k[1..] + "'" + rest;
      KeyLexes(k[1..], rest);
    }
  }

  lemma LexPlain(s: string)
    requires s != [] && IsPlain(s[0])
    ensures Lex(s) == Prepend(s[0], Lex(s[1..]))
  {
  }

  lemma LexPair(e: char, c: char, s: string)
    requires EscapeLength([e] + s) == 1 && EscapeValue([e] + s) == Some(c)
    ensures Lex("\\" + [e] + s) == Prepend(c, Lex(s))
  {
    hide EscapeLength, EscapeValue;
    var t := "\\" + [e] + s;
    assert t[1..] == [e] + s && t[2..] == s;
  }

  lemma EscapeLexes(c: char, s: string)
    requires c != '\''
    ensures Lex(Escape(c) + s) == Prepend(c, Lex(s))
  {
    hide Lex;
    if IsPlain(c) && c != '"' {
      assert Escape(c) == [c] && ([c] + s)[1..] == s;
      LexPlain([c] + s);
    } else {
      var e := Escape(c)[1];
      assert Escape(c) == "\\" + [e] && ([e] + s)[0] == e;
      LexPair(e, c, s);
    }
  }

  lemma {:induction false} ValueLexes(v: string, rest: string)
    requires '\'' !in v
    ensures Lex(Escaped(v) + "'" + rest) == Literal(v, rest)
  {
    if v == [] {
      assert Escaped(v) + "'" + rest == "'" + rest;
    } else {
      assert Escaped(v) + "'" + rest == Escape(v[0]) + (Escaped(v[1..]) + "'" + rest);
      EscapeLexes(v[0], Escaped(v[1..]) + "'" + rest);
      ValueLexes(v[1..], rest);
    }
  }

  /** A value is cut at its first single quote. */
  lemma {:induction false} QuoteCuts(v: string, rest: string)
    requires '\'' in v
    ensures Lex(Escaped(v) + rest).Literal? && |Lex(Escaped(v) + rest).text| < |v|
  {
    assert Escaped(v) + rest == Escape(v[0]) + (Escaped(v[1..]) + rest);
    if v[0] != '\'' {
      EscapeLexes(v[0], Escaped(v[1..]) + rest);
      QuoteCuts(v[1..], rest);
    }
  }

  /** How reading a written key can end: in an error, with a shorter text, with the key itself if it is
      plain, or, after a key that ends in a backslash, at the quote that opens the value. */
  predicate KeyReading(k: string, rest: string, l: Lexed) {
    || l.Malformed?
    || |l.text| < |k|
    || (l == Literal(k, MIDDLE + rest) && Plain(k))
    || (k != [] && k[|k| - 1] == '\\' && 5 <= |l.text| <= |k| + 4 && l.text[|l.text| - 5..] == "'] = ")
  }

  /** An escaped closing quote: the text goes on to the quote that opens the value. */
  lemma QuoteTaken(rest: string)
    ensures Lex("\\'" + MIDDLE + rest) == Literal("'] = ", rest)
  {
    var s := "\\'" + MIDDLE + rest;
    assert s[1..][0] == '\'';
    assert s[2..] == "] = " + "'" + rest;
    KeyLexes("] = ", rest);
  }

  /** A quote right after the key does not belong to an escape sequence begun in it. */
  lemma EscapeWithin(k: string, rest: string)
    requires k != [] && rest != [] && rest[0] == '\''
    ensures EscapeLength(k + rest) == EscapeLength(k)
  {
    var n := DigitRun(k);
    assert k + rest == k[..n] + (k[n..] + rest);
    DigitRunOf(k[..n], k[n..] + rest);
    assert (k + rest)[0] == k[0];
  }

  lemma PlainCons(k: string)
    requires k != [] && IsPlain(k[0]) && Plain(k[1..])
    ensures Plain(k)
  {
    assert k == [k[0]] + k[1..];
  }

  /** A plain character, then the rest of the key. */
  lemma PlainStep(k: string, rest: string, l: Lexed)
    requires k != [] && IsPlain(k[0])
    requires KeyReading(k[1..], rest, l)
    ensures KeyReading(k, rest, Prepend(k[0], l))
  {
    hide Plain, IsPlain;
    if l.Literal? && |l.text| >= |k| - 1 {
      if l == Literal(k[1..], MIDDLE + rest) && Plain(k[1..]) {
        PlainCons(k);
        assert [k[0]] + k[1..] == k;
      } else {
        assert ([k[0]] + l.text)[|l.text| - 4..] == l.text[|l.text| - 5..];
      }
    }
  }

  /** An escape sequence, two characters at least, then the rest of the key. */
  lemma EscapeStep(k: string, rest: string) returns (n: nat)
    requires |k| >= 2 && k[0] == '\\'
    ensures 2 <= n <= |k|
    ensures KeyReading(k[n..], rest, Lex(k[n..] + "'" + MIDDLE + rest)) ==>
        KeyReading(k, rest, Lex(k + "'" + MIDDLE + rest))
  {
    hide EscapeValue;
    var s, tail := k + "'" + MIDDLE + rest, "'" + MIDDLE + rest;
    assert s == k + tail && s[1..] == k[1..] + tail;
    EscapeWithin(k[1..], tail);
    n := 1 + EscapeLength(k[1..]);
    assert s[n..] == k[n..] + tail == k[n..] + "'" + MIDDLE + rest;
    var c := LexEscape(s);
    if KeyReading(k[n..], rest, Lex(s[n..])) {
      Longer(k, n, rest, c, Lex(s[n..]));
    }
  }

  lemma LexEscape(s: string) returns (c: char)
    requires |s| >= 2 && s[0] == '\\'
    ensures Lex(s).Malformed? || Lex(s) == Prepend(c, Lex(s[1 + EscapeLength(s[1..])..]))
  {
    c := if EscapeValue(s[1..]).Some? then EscapeValue(s[1..]).value else ' ';
  }

  lemma Longer(k: string, n: nat, rest: string, c: char, l: Lexed)
    requires 2 <= n <= |k|
    requires KeyReading(k[n..], rest, l)
    ensures KeyReading(k, rest, Prepend(c, l))
  {
    if l.Literal? && |l.text| >= 5 {
      assert ([c] + l.text)[|l.text| - 4..] == l.text[|l.text| - 5..];
    }
  }

  lemma {:induction false} KeyReads(k: string, rest: string)
    ensures KeyReading(k, rest, Lex(k + "'" + MIDDLE + rest))
    decreases |k|
  {
    hide EscapeLength, EscapeValue, Prepend;
    var s := k + "'" + MIDDLE + rest;
    if k == [] {
      assert s[1..] == MIDDLE + rest;
    } else if IsBreak(k[0]) || k[0] == '\'' {
    } else if k[0] != '\\' {
      assert s[1..] == k[1..] + "'" + MIDDLE + rest;
      LexPlain(s);
      KeyReads(k[1..], rest);
      PlainStep(k, rest, Lex(s[1..]));
    } else if |k| == 1 {
      assert s == "\\'" + MIDDLE + rest;
      QuoteTaken(rest);
    } else {
      var n := EscapeStep(k, rest);
      KeyReads(k[n..], rest);
    }
  }

  /** A key is read back as itself exactly if it is good. */
  lemma KeyRoundTrip(key: string, rest: string)
    ensures var l := Lex(CheckpointText.CString(key) + "'" + MIDDLE + rest);
            && (l.Literal? && l.text == key <==> GoodKey(key))
            && (GoodKey(key) ==> l == Literal(key, MIDDLE + rest))
  {
    hide Lex;
    var k := CheckpointText.CString(key);
    KeyReads(k, rest);
    if GoodKey(key) {
      KeyLexes(key, MIDDLE + rest);
      assert key + "'" + (MIDDLE + rest) == key + "'" + MIDDLE + rest;
    }
  }

  lemma ValueRoundTrip(value: string, rest: string)
    ensures var l := Lex(Escaped(CheckpointText.CString(value)) + "'" + rest);
            && (l.Literal? && l.text == value <==> GoodValue(value))
            && (GoodValue(value) ==> l == Literal(value, rest))
            && ('\'' !in CheckpointText.CString(value) <==> l == Literal(CheckpointText.CString(value), rest))
  {
    hide Lex, Escaped;
    var v := CheckpointText.CString(value);
    if '\'' in v {
      QuoteCuts(v, "'" + rest);
      assert Escaped(v) + ("'" + rest) == Escaped(v) + "'" + rest;
    } else {
      ValueLexes(v, rest);
    }
  }

  /** A line of the checkpoint file is read back as the assignment of its value to its key exactly if
      the key has no quote, backslash, line break or NUL and the value has no single quote or NUL. */
  lemma LineRoundTrip(key: string, value: string, more: string)
    ensures ReadStatement(Line(key, value) + more) == Assign(key, value, more) <==> GoodKey(key) && GoodValue(value)
    ensures ReadStatement(Line(key, value) + more) == Assign(key, CheckpointText.CString(value), more) <==>
              GoodKey(key) && '\'' !in CheckpointText.CString(value)
  {
    hide Lex, Escaped, CheckpointText.CString, GoodKey, GoodValue, AfterKey, AfterValue, ReadStatement;
    var k, v := CheckpointText.CString(key), Escaped(CheckpointText.CString(value));
    var rest := v + "'" + (CLOSE + more);
    var a := k + "'" + MIDDLE + rest;
    assert Line(key, value) + more == OPEN + a;
    StatementReads(a);
    KeyRoundTrip(key, rest);
    ValueRoundTrip(value, CLOSE + more);
    KeyPart(Lex(a), key);
    KeyReadsOn(key, rest);
    ValuePart(key, Lex(rest), CheckpointText.CString(value), more);
    ValuePart(key, Lex(rest), value, more);
  }

  lemma StatementReads(a: string)
    ensures ReadStatement(OPEN + a) == AfterKey(Lex(a))
  {
    hide Lex;
    assert (OPEN + a)[|OPEN|..] == a;
  }

  lemma KeyPart(l: Lexed, key: string)
    ensures AfterKey(l).Assign? && AfterKey(l).key == key ==> l.Literal? && l.text == key
  {
    hide Lex;
  }

  lemma KeyReadsOn(key: string, rest: string)
    ensures AfterKey(Literal(key, MIDDLE + rest)) == AfterValue(key, Lex(rest))
  {
    hide Lex;
    assert (MIDDLE + rest)[|MIDDLE|..] == rest;
  }

  lemma ValuePart(key: string, l: Lexed, value: string, more: string)
    ensures AfterValue(key, l) == Assign(key, value, more) <==> l == Literal(value, CLOSE + more)
  {
    if l.Literal? && After(CLOSE, l.rest).Some? {
      assert l.rest == CLOSE + l.rest[|CLOSE|..];
    }
    assert (CLOSE + more)[|CLOSE|..] == more;
  }

  // ---- whole files ----

  /** A table whose file is one assignment per entry. */
  ghost predicate Dumpable(values: Values) {
    forall key :: key in values ==> GoodKey(key) && '\'' !in CheckpointText.CString(values[key])
  }

  /** Assigning the values of `order` one after the other. */
  function Assigned(table: Values, order: seq<string>, values: Values): Values
    requires forall key :: key in order ==> key in values
    decreases |order|
  {
    if order == [] then table
    else Assigned(table[order[0] := CheckpointText.CString(values[order[0]])], order[1..], values)
  }

  lemma {:induction false} AssignedEntries(table: Values, order: seq<string>, values: Values, key: string)
    requires forall key :: key in order ==> key in values
    ensures key in Assigned(table, order, values) <==> key in table || key in order
    ensures key in order ==> Assigned(table, order, values)[key] == CheckpointText.CString(values[key])
    ensures key in table && key !in order ==> Assigned(table, order, values)[key] == table[key]
    decreases |order|
  {
    if order != [] {
      AssignedEntries(table[order[0] := CheckpointText.CString(values[order[0]])], order[1..], values, key);
    }
  }

  lemma {:induction false} LoadAssigns(table: Values, order: seq<string>, values: Values)
    requires Dumpable(values)
    requires forall key :: key in order ==> key in values
    ensures Load(Dump(order, values), table) == Some(Assigned(table, order, values))
    decreases |order|
  {
    hide ReadStatement, Line, GoodKey;
    if order != [] {
      var key, more := order[0], Dump(order[1..], values);
      LineRoundTrip(key, values[key], more);
      LineNotEmpty(key, values[key]);
      LoadAssigns(table[key := CheckpointText.CString(values[key])], order[1..], values);
    }
  }

  lemma LineNotEmpty(key: string, value: string)
    ensures Line(key, value) != []
  {
  }

  /** Every line of the file is read as the assignment of its own value, up to the first NUL. */
  ghost predicate ReadsBack(order: seq<string>, values: Values)
    requires forall key :: key in order ==> key in values
    decreases |order|
  {
    order == [] ||
    (&& ReadStatement(Dump(order, values)) ==
        Assign(order[0], CheckpointText.CString(values[order[0]]), Dump(order[1..], values))
     && ReadsBack(order[1..], values))
  }

  lemma {:induction false} ReadsBackExactly(order: seq<string>, values: Values)
    requires forall key :: key in order ==> key in values
    ensures ReadsBack(order, values) <==>
            forall key :: key in order ==> GoodKey(key) && '\'' !in CheckpointText.CString(values[key])
    decreases |order|
  {
    hide ReadStatement, Line, GoodKey, CheckpointText.CString;
    if order != [] {
      LineRoundTrip(order[0], values[order[0]], Dump(order[1..], values));
      ReadsBackExactly(order[1..], values);
      assert forall key :: key in order <==> key == order[0] || key in order[1..];
    }
  }

  /** Any table, in any order: the file is read line by line as what it was written from exactly if no key
      has a quote, backslash, line break or NUL and no value has a single quote before its first NUL. */
  lemma FileReadsBack(order: seq<string>, values: Values)
    requires Enumerates(order, values)
    ensures ReadsBack(order, values) <==> Dumpable(values)
  {
    hide ReadsBack, GoodKey, CheckpointText.CString;
    ReadsBackExactly(order, values);
  }

  /** Writing the table in any order and loading the file restores every entry, up to its first NUL,
      and adds none. */
  lemma FileRoundTrip(order: seq<string>, values: Values)
    requires Dumpable(values) && Enumerates(order, values)
    ensures Load(Dump(order, values), map[]) == Some(map key | key in values :: CheckpointText.CString(values[key]))
    ensures Load(Dump(order, values), map[]) == Some(values) <==> forall key :: key in values ==> '\0' !in values[key]
  {
    hide Dump, Load, Assigned, CheckpointText.CString;
    LoadAssigns(map[], order, values);
    var loaded := Assigned(map[], order, values);
    forall key {
      AssignedEntries(map[], order, values, key);
    }
    assert loaded == map key | key in values :: CheckpointText.CString(values[key]);
    forall key | key in values
      ensures CheckpointText.CString(values[key]) == values[key] <==> '\0' !in values[key]
    {
    }
    if exists key :: key in values && '\0' in values[key] {
      var key :| key in values && '\0' in values[key];
      assert loaded[key] != values[key];
    } else {
      assert loaded == values;
    }
  }

  /** A position written to the table survives the file and is looked up again, exactly if both of its
      numbers are below 10^14. */
  lemma PositionSurvivesRestart(order: seq<string>, values: Values, key: string, cp: Checkpoint,
                                entry: CheckpointText.Entry)
    requires Dumpable(values) && Enumerates(order, values)
    requires entry.Of(cp) && key in values && values[key] == entry.Text()
    ensures Load(Dump(order, values), map[]).Some?
    ensures CheckpointText.Stored(Load(Dump(order, values), map[]).value, key) == Some(cp) <==> CheckpointText.Fits(cp)
  {
    hide Dump, Load, CheckpointText.CString, CheckpointText.Entry.Of, CheckpointText.Entry.Text;
    FileRoundTrip(order, values);
    CheckpointText.PositionRoundTrip(cp, entry);
    assert CheckpointText.CString(CheckpointText.CString(values[key])) == CheckpointText.CString(values[key]);
  }

  /** Loading the file that was written of the table yields this position under that key. */
  ghost predicate Restores(order: seq<string>, values: Values, key: string, cp: Checkpoint)
    requires forall k :: k in order ==> k in values
  {
    var loaded := Load(Dump(order, values), map[]);
    loaded.Some? && CheckpointText.Stored(loaded.value, key) == Some(cp)
  }

  /** What an input plugin's checkpoint string becomes: update_checkpoint stores it with its
      terminating NUL, the file does not have that NUL any more. */
  lemma InputCheckpointSurvivesRestart(order: seq<string>, values: Values, key: string, text: string)
    requires Dumpable(values) && Enumerates(order, values)
    requires key in values && values[key] == text + "\0" && '\0' !in text
    ensures Load(Dump(order, values), map[]).Some? && key in Load(Dump(order, values), map[]).value
    ensures Load(Dump(order, values), map[]).value[key] == text
  {
    hide Dump, Load, CheckpointText.CString;
    FileRoundTrip(order, values);
    CheckpointText.CStringStops(text, "");
    assert text + "\0" + "" == text + "\0";
  }
}
