/** The first record of Python's `csv.reader` over `io.StringIO(msg)`, as
    `PaloAlto.recv` reads it: the reader state machine of the `_csv` module
    of Python 3.6 (the runtime the deployment template names) with the default dialect (delimiter `,`, quote character `"`, quotes
    doubled inside quoted fields, no escape character, strict mode off). It
    follows the field rules of section 2 of RFC 4180 and is laxer about
    stray quotes and line ends. */
module Csv {
  import opened Values
  import opened Scan

  /** What the reader sees: the characters of each line, each line (as
      `StringIO` splits them, after every `\n`) followed by an end-of-line
      mark. */
  datatype Tok = Ch(c: char) | Eol

  datatype State = StartRecord | StartField | InField | InQuoted | QuoteInQuoted | EatCrnl

  /** A record being read: the fields saved so far and the current field. */
  datatype Acc = Acc(fields: seq<string>, field: string)

  /** `_csv.field_size_limit()`, the default limit on the length of a field. */
  const FieldLimit: nat := 131072

  /** The token stream of a text. */
  function Toks(s: string): (t: seq<Tok>)
    decreases |s|
  {
    if s == [] then []
    else if s[0] == '\n' then [Ch('\n'), Eol] + Toks(s[1..])
    else if |s| == 1 then [Ch(s[0]), Eol]
    else [Ch(s[0])] + Toks(s[1..])
  }

  /** The tokens of one line without a newline. */
  function Chars(s: string): (t: seq<Tok>)
    ensures |t| == |s|
  {
    if s == [] then [] else [Ch(s[0])] + Chars(s[1..])
  }

  function Save(a: Acc): Acc { Acc(a.fields + [a.field], []) }

  /** `parse_add_char`: a field may not grow past the limit. */
  function Add(a: Acc, c: char): (r: Result<Acc>)
    ensures r.Ok? <==> |a.field| < FieldLimit
    ensures r.Ok? ==> r.value == Acc(a.fields, a.field + [c])
  {
    if |a.field| >= FieldLimit then Err(CsvError("field larger than field limit (131072)")) else Ok(Acc(a.fields, a.field + [c]))
  }

  predicate IsLineEnd(c: char) { c == '\n' || c == '\r' }

  /** `parse_process_char` for one token. */
  function Step(st: State, a: Acc, t: Tok): (r: Result<(State, Acc)>)
    ensures r.Ok? ==> a.fields <= r.value.1.fields && |r.value.1.fields| <= |a.fields| + 1
    ensures st.EatCrnl? && t.Ch? && !IsLineEnd(t.c) ==> r.Err? && r.error.CsvError?
    ensures r.Err? ==> r.error.CsvError?
  {
    match st
    case StartRecord =>
      if t.Eol? then Ok((StartRecord, a))
      else if IsLineEnd(t.c) then Ok((EatCrnl, a))
      else StartFieldStep(a, t)
    case StartField => StartFieldStep(a, t)
    case InField =>
      if t.Eol? then Ok((StartRecord, Save(a)))
      else if IsLineEnd(t.c) then Ok((EatCrnl, Save(a)))
      else if t.c == ',' then Ok((StartField, Save(a)))
      else var a' :- Add(a, t.c); Ok((InField, a'))
    case InQuoted =>
      if t.Eol? then Ok((InQuoted, a))
      else if t.c == '"' then Ok((QuoteInQuoted, a))
      else var a' :- Add(a, t.c); Ok((InQuoted, a'))
    case QuoteInQuoted =>
      if t.Eol? then Ok((StartRecord, Save(a)))
      else if t.c == '"' then var a' :- Add(a, '"'); Ok((InQuoted, a'))
      else if t.c == ',' then Ok((StartField, Save(a)))
      else if IsLineEnd(t.c) then Ok((EatCrnl, Save(a)))
      else var a' :- Add(a, t.c); Ok((InField, a'))
    case EatCrnl =>
      if t.Eol? then Ok((StartRecord, a))
      else if IsLineEnd(t.c) then Ok((EatCrnl, a))
      else Err(CsvError("new-line character seen in unquoted field - do you need to open the file in universal-newline mode?"))
  }

  function StartFieldStep(a: Acc, t: Tok): (r: Result<(State, Acc)>)
    ensures r.Ok? ==> a.fields <= r.value.1.fields && |r.value.1.fields| <= |a.fields| + 1
    ensures r.Err? ==> r.error.CsvError?
  {
    if t.Eol? then Ok((StartRecord, Save(a)))
    else if IsLineEnd(t.c) then Ok((EatCrnl, Save(a)))
    else if t.c == '"' then Ok((InQuoted, a))
    else if t.c == ',' then Ok((StartField, Save(a)))
    else var a' :- Add(a, t.c); Ok((InField, a'))
  }

  /** `Reader_iternext` from a given state: tokens are fed until an
      end-of-line mark leaves the reader at the start of a record; at the end
      of the input a pending field is saved. */
  function Read(ts: seq<Tok>, st: State, a: Acc): Result<seq<string>>
    decreases |ts|
  {
    if ts == [] then
      if a.field != [] || st == InQuoted then Ok(Save(a).fields) else Err(Exhausted)
    else if ts[0] == Ch('\0') then Err(CsvError("line contains NULL byte"))
    else
      var (st', a') :- Step(st, a, ts[0]);
      if ts[0].Eol? && st' == StartRecord then Ok(a'.fields) else Read(ts[1..], st', a')
  }

  /** `next(csv.reader(io.StringIO(msg)))`. */
  function FirstRecord(msg: string): (r: Result<seq<string>>)
    ensures msg == [] ==> r == Err(Exhausted)
    ensures msg != [] && msg[0] == '\0' ==> r == Err(CsvError("line contains NULL byte"))
  {
    Read(Toks(msg), StartRecord, Acc([], []))
  }

  // ---------------------------------------------------------------------
  // Round trip: fields written the way RFC 4180 writes them are read back.

  /** A field that needs no quotes. */
  predicate Plain(f: string) {
    forall i :: 0 <= i < |f| ==> f[i] != ',' && f[i] != '"' && f[i] != '\r' && f[i] != '\n' && f[i] != '\0'
  }

  /** A field that may be quoted: anything but a newline or a NUL. */
  predicate Quotable(f: string) {
    forall i :: 0 <= i < |f| ==> f[i] != '\n' && f[i] != '\0'
  }

  /** The body of a quoted field: every quote doubled. */
  function Double(f: string): (r: string)
    ensures Quotable(f) ==> Quotable(r)
  {
    if f == [] then [] else (if f[0] == '"' then "\"\"" else [f[0]]) + Double(f[1..])
  }

  /** A field as a writer with minimal quoting writes it. */
  function Encode(f: string): string {
    if Plain(f) then f else "\"" + Double(f) + "\""
  }

  /** Fields separated by commas. */
  function Row(fs: seq<string>): string
    decreases |fs|
  {
    if fs == [] then [] else if |fs| == 1 then Encode(fs[0]) else Encode(fs[0]) + "," + Row(fs[1..])
  }

  lemma {:induction false} CharsAppend(a: string, b: string)
    ensures Chars(a + b) == Chars(a) + Chars(b)
    decreases |a|
  {
    if a == [] {
      assert a + b == b;
    } else {
      assert (a + b)[0] == a[0];
      assert (a + b)[1..] == a[1..] + b;
      CharsAppend(a[1..], b);
    }
  }

  /** A line without a newline is its characters and one end-of-line mark. */
  lemma {:induction false} ToksOfLine(s: string)
    requires s != [] && NoNewline(s)
    ensures Toks(s) == Chars(s) + [Eol]
    decreases |s|
  {
    if |s| > 1 {
      ToksOfLine(s[1..]);
    }
  }

  /** One character that is not a NUL is one step of the state machine. */
  lemma ReadCh(c: char, ts: seq<Tok>, st: State, a: Acc, st': State, a': Acc)
    requires c != '\0' && Step(st, a, Ch(c)) == Ok((st', a'))
    ensures Read([Ch(c)] + ts, st, a) == Read(ts, st', a')
  {
    assert ([Ch(c)] + ts)[1..] == ts;
  }

  lemma CharsCons(f: string, ts: seq<Tok>)
    requires f != []
    ensures Chars(f) + ts == [Ch(f[0])] + (Chars(f[1..]) + ts)
  {
  }

  /** The characters of an unquoted field are added one by one. */
  lemma {:induction false} PlainRead(f: string, ts: seq<Tok>, fs0: seq<string>, g: string)
    requires Plain(f) && |g| + |f| <= FieldLimit && (g != [] || f == [])
    ensures Read(Chars(f) + ts, InField, Acc(fs0, g)) == Read(ts, InField, Acc(fs0, g + f))
    decreases |f|
  {
    if f == [] {
      assert Chars(f) + ts == ts;
      assert g + f == g;
    } else {
      CharsCons(f, ts);
      PlainTail(f, g);
      ReadCh(f[0], Chars(f[1..]) + ts, InField, Acc(fs0, g), InField, Acc(fs0, g + [f[0]]));
      PlainRead(f[1..], ts, fs0, g + [f[0]]);
    }
  }

  /** The first character of a plain field and the plain rest. */
  lemma PlainTail(f: string, g: string)
    requires Plain(f) && f != []
    ensures f[0] != ',' && f[0] != '"' && f[0] != '\r' && f[0] != '\n' && f[0] != '\0'
    ensures Plain(f[1..]) && g + [f[0]] + f[1..] == g + f
  {
    assert forall i :: 0 <= i < |f| - 1 ==> f[1..][i] == f[i + 1];
    assert f == [f[0]] + f[1..];
  }

  lemma CharsAssoc(p: string, d: string, ts: seq<Tok>)
    ensures Chars(p + d) + ts == Chars(p) + (Chars(d) + ts)
  {
    CharsAppend(p, d);
  }

  lemma CharsOne(c: char)
    ensures Chars([c]) == [Ch(c)]
  {
    assert [c][1..] == [];
  }

  lemma DoubleChars(f: string, ts: seq<Tok>)
    requires f != []
    ensures f[0] == '"' ==> Chars(Double(f)) + ts == [Ch('"'), Ch('"')] + (Chars(Double(f[1..])) + ts)
    ensures f[0] != '"' ==> Chars(Double(f)) + ts == [Ch(f[0])] + (Chars(Double(f[1..])) + ts)
  {
    var d := Double(f[1..]);
    if f[0] == '"' {
      QuoteChars(d, ts);
    } else {
      assert Double(f) == [f[0]] + d;
      CharChars(f[0], d, ts);
    }
  }

  lemma CharChars(c: char, d: string, ts: seq<Tok>)
    ensures Chars([c] + d) + ts == [Ch(c)] + (Chars(d) + ts)
  {
    CharsAssoc([c], d, ts);
    CharsOne(c);
  }

  lemma QuoteChars(d: string, ts: seq<Tok>)
    ensures Chars("\"\"" + d) + ts == [Ch('"'), Ch('"')] + (Chars(d) + ts)
  {
    assert "\"\"" + d == ['"'] + (['"'] + d);
    CharChars('"', ['"'] + d, ts);
    CharChars('"', d, ts);
  }

  /** The body of a quoted field is read back as the field. */
  lemma {:induction false} DoubleRead(f: string, ts: seq<Tok>, fs0: seq<string>, g: string)
    requires Quotable(f) && |g| + |f| <= FieldLimit
    ensures Read(Chars(Double(f)) + ts, InQuoted, Acc(fs0, g)) == Read(ts, InQuoted, Acc(fs0, g + f))
    decreases |f|
  {
    if f == [] {
      assert Chars(Double(f)) + ts == ts;
      assert g + f == g;
    } else {
      var z := Chars(Double(f[1..])) + ts;
      QuotableTail(f, g);
      DoubleRead(f[1..], ts, fs0, g + [f[0]]);
      DoubleChars(f, ts);
      if f[0] == '"' {
        assert [Ch('"'), Ch('"')] + z == [Ch('"')] + ([Ch('"')] + z);
        ReadCh('"', [Ch('"')] + z, InQuoted, Acc(fs0, g), QuoteInQuoted, Acc(fs0, g));
        ReadCh('"', z, QuoteInQuoted, Acc(fs0, g), InQuoted, Acc(fs0, g + [f[0]]));
      } else {
        ReadCh(f[0], z, InQuoted, Acc(fs0, g), InQuoted, Acc(fs0, g + [f[0]]));
      }
    }
  }

  /** The first character of a quotable field and the quotable rest. */
  lemma QuotableTail(f: string, g: string)
    requires Quotable(f) && f != []
    ensures f[0] != '\0' && Quotable(f[1..]) && g + [f[0]] + f[1..] == g + f
  {
    assert forall i :: 0 <= i < |f| - 1 ==> f[1..][i] == f[i + 1];
    assert f == [f[0]] + f[1..];
  }

  /** The state a field leaves the reader in, just before its delimiter. */
  function AfterField(f: string): State {
    if !Plain(f) then QuoteInQuoted else if f == [] then StartField else InField
  }

  lemma PlainFirst(f: string, ts: seq<Tok>, fs0: seq<string>)
    requires Plain(f) && f != []
    ensures Plain(f[1..])
    ensures Read(Chars(f) + ts, StartField, Acc(fs0, [])) == Read(Chars(f[1..]) + ts, InField, Acc(fs0, [f[0]]))
  {
    PlainTail(f, []);
    CharsCons(f, ts);
    assert [] + [f[0]] == [f[0]];
    ReadCh(f[0], Chars(f[1..]) + ts, StartField, Acc(fs0, []), InField, Acc(fs0, [f[0]]));
  }

  /** One encoded field, read from the start of a field. */
  lemma FieldRead(f: string, ts: seq<Tok>, fs0: seq<string>)
    requires Quotable(f) && |f| <= FieldLimit
    ensures Read(Chars(Encode(f)) + ts, StartField, Acc(fs0, [])) == Read(ts, AfterField(f), Acc(fs0, f))
  {
    if Plain(f) {
      if f != [] {
        PlainFirst(f, ts, fs0);
        PlainRead(f[1..], ts, fs0, [f[0]]);
        assert [f[0]] + f[1..] == f;
      } else {
        assert Chars(f) + ts == ts;
      }
    } else {
      QuotedRead(f, ts, fs0);
    }
  }

  /** A quoted field: opening quote, doubled body, closing quote. */
  lemma QuotedRead(f: string, ts: seq<Tok>, fs0: seq<string>)
    requires Quotable(f) && |f| <= FieldLimit
    ensures Read(Chars("\"" + Double(f) + "\"") + ts, StartField, Acc(fs0, [])) == Read(ts, QuoteInQuoted, Acc(fs0, f))
  {
    var q := "\"";
    CharsAppend(q + Double(f), q);
    CharsAppend(q, Double(f));
    var y := [Ch('"')] + ts;
    assert Chars(q + Double(f) + q) + ts == [Ch('"')] + (Chars(Double(f)) + y);
    ReadCh('"', Chars(Double(f)) + y, StartField, Acc(fs0, []), InQuoted, Acc(fs0, []));
    DoubleRead(f, y, fs0, []);
    assert [] + f == f;
    ReadCh('"', ts, InQuoted, Acc(fs0, f), QuoteInQuoted, Acc(fs0, f));
  }

  /** After a field, a comma starts the next one and an end-of-line mark
      ends the record. */
  lemma DelimRead(f: string, ts: seq<Tok>, fs0: seq<string>)
    ensures Read([Ch(',')] + ts, AfterField(f), Acc(fs0, f)) == Read(ts, StartField, Acc(fs0 + [f], []))
    ensures Read([Eol], AfterField(f), Acc(fs0, f)) == Ok(fs0 + [f])
  {
    assert ([Ch(',')] + ts)[1..] == ts;
  }

  lemma RowAssoc(e: string, r: string)
    ensures Chars(e + "," + r) + [Eol] == Chars(e) + ([Ch(',')] + (Chars(r) + [Eol]))
  {
    CharsAppend(e + ",", r);
    CharsAppend(e, ",");
  }

  lemma RowChars(fs: seq<string>)
    requires |fs| > 1
    ensures Chars(Row(fs)) + [Eol] == Chars(Encode(fs[0])) + ([Ch(',')] + (Chars(Row(fs[1..])) + [Eol]))
  {
    assert Row(fs) == Encode(fs[0]) + "," + Row(fs[1..]);
    RowAssoc(Encode(fs[0]), Row(fs[1..]));
  }

  predicate FieldsOk(fs: seq<string>) {
    forall i :: 0 <= i < |fs| ==> Quotable(fs[i]) && |fs[i]| <= FieldLimit
  }

  /** The first field of a longer row and its comma. */
  lemma RowStep(fs: seq<string>, fs0: seq<string>)
    requires |fs| > 1 && Quotable(fs[0]) && |fs[0]| <= FieldLimit
    ensures Read(Chars(Row(fs)) + [Eol], StartField, Acc(fs0, [])) == Read(Chars(Row(fs[1..])) + [Eol], StartField, Acc(fs0 + [fs[0]], []))
  {
    var rest := Chars(Row(fs[1..])) + [Eol];
    RowChars(fs);
    FieldRead(fs[0], [Ch(',')] + rest, fs0);
    DelimRead(fs[0], rest, fs0);
  }

  /** A row of encoded fields, read from the start of a field. */
  lemma {:induction false} RowRead(fs: seq<string>, fs0: seq<string>)
    requires fs != [] && FieldsOk(fs)
    ensures Read(Chars(Row(fs)) + [Eol], StartField, Acc(fs0, [])) == Ok(fs0 + fs)
    decreases |fs|
  {
    FieldsHead(fs, fs0);
    if |fs| == 1 {
      FieldRead(fs[0], [Eol], fs0);
      DelimRead(fs[0], [], fs0);
    } else {
      RowStep(fs, fs0);
      RowRead(fs[1..], fs0 + [fs[0]]);
    }
  }

  /** The first field of a row and the rest. */
  lemma FieldsHead(fs: seq<string>, fs0: seq<string>)
    requires fs != [] && FieldsOk(fs)
    ensures Quotable(fs[0]) && |fs[0]| <= FieldLimit && FieldsOk(fs[1..])
    ensures fs0 + [fs[0]] + fs[1..] == fs0 + fs
    ensures |fs| == 1 ==> fs0 + [fs[0]] == fs0 + fs
  {
    forall i | 0 <= i < |fs| - 1 ensures Quotable(fs[1..][i]) && |fs[1..][i]| <= FieldLimit {
      assert fs[1..][i] == fs[i + 1];
    }
    assert fs == [fs[0]] + fs[1..];
  }

  lemma {:induction false} EncodeLine(f: string)
    requires Quotable(f)
    ensures NoNewline(Encode(f))
  {
    if !Plain(f) {
      var e := Encode(f);
      assert Quotable(Double(f));
      forall i | 0 <= i < |e| ensures e[i] != '\n' {
        if 0 < i < |e| - 1 { assert e[i] == Double(f)[i - 1]; }
      }
    }
  }

  lemma {:induction false} RowLine(fs: seq<string>)
    requires forall i :: 0 <= i < |fs| ==> Quotable(fs[i])
    ensures NoNewline(Row(fs))
    decreases |fs|
  {
    if |fs| == 1 {
      EncodeLine(fs[0]);
    } else if |fs| > 1 {
      EncodeLine(fs[0]);
      RowLine(fs[1..]);
      JoinLine(Encode(fs[0]), Row(fs[1..]));
    }
  }

  /** Two lines without newlines joined by a comma are still one line. */
  lemma JoinLine(e: string, r: string)
    requires NoNewline(e) && NoNewline(r)
    ensures NoNewline(e + "," + r)
  {
    var j := e + "," + r;
    forall i | 0 <= i < |j| ensures j[i] != '\n' {
      if i < |e| { assert j[i] == e[i]; }
      else if i > |e| { assert j[i] == r[i - |e| - 1]; }
    }
  }

  /** Round trip: a non-empty row written with minimal quoting, from fields
      without newlines or NULs and within the field limit, is read back as
      its fields. */
  lemma RoundTrip(fs: seq<string>)
    requires Row(fs) != [] && FieldsOk(fs)
    ensures FirstRecord(Row(fs)) == Ok(fs)
  {
    RowLine(fs);
    ToksOfLine(Row(fs));
    RowRead(fs, []);
    var ts := Chars(Row(fs)) + [Eol];
    assert ts[0] == Ch(Row(fs)[0]);
    assert !IsLineEnd(Row(fs)[0]) by {
      if |fs| > 1 || !Plain(fs[0]) {} else { assert Row(fs)[0] == fs[0][0]; }
    }
    assert [] + fs == fs;
  }
}
