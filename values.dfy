/** JSON-shaped values as the Python code sees them after `json.loads`, the
    Python exceptions the core can raise, and the dictionary operations
    (`d.get`, `d[k]`, `k in d`, truthiness, `str()`) the parsers use on them. */
module Values {
  import Text

  datatype Option<T> = None | Some(value: T) {
    predicate IsFailure() { None? }
    function PropagateFailure<U>(): Option<U>
      requires None?
    {
      None
    }
    function Extract(): T
      requires Some?
    {
      value
    }
  }

  /** A decoded JSON value. Python dicts are modelled as maps (key order is
      not modelled); numbers are integers. */
  datatype Value =
    | Null
    | Bool(b: bool)
    | Num(n: int)
    | Str(s: string)
    | Arr(items: seq<Value>)
    | Obj(fields: map<string, Value>)

  /** The exceptions the modelled code raises or lets escape. */
  datatype Error =
    | KeyError(key: string)           // d[k] with k missing
    | TypeMismatch(op: string)        // AttributeError / TypeError: an operation applied to a value of the wrong type
    | IndexError                      // a list index out of range
    | ParseError(reason: string)      // slips.parser.ParseError
    | Failure(reason: string)         // a plain Exception(...)
    | AssertionError                  // a failing `assert`
    | JsonDecodeError                 // json.loads rejected its input
    | CsvError(reason: string)        // _csv.Error
    | UnicodeDecodeError              // bytes.decode('utf8') rejected its input
    | FormatError(reason: string)     // slips.main.FormatError
    | NoSuchMethod(name: string)      // AttributeError: a stage without `run` / `recv`
    | Exhausted                       // StopIteration from `next()` on an iterator with nothing left
    | RecursionError                  // the interpreter's recursion limit was reached
    | Base64Error                     // binascii.Error from base64 decoding
    | ValueError(reason: string)      // a ValueError, such as `int()` of text that is not a number

  datatype Result<T> = Ok(value: T) | Err(error: Error) {
    predicate IsFailure() { Err? }
    function PropagateFailure<U>(): Result<U>
      requires Err?
    {
      Err(error)
    }
    function Extract(): T
      requires Ok?
    {
      value
    }
  }

  /** Python truthiness of a JSON value. */
  predicate Truthy(v: Value) {
    match v
    case Null => false
    case Bool(b) => b
    case Num(n) => n != 0
    case Str(s) => s != []
    case Arr(xs) => xs != []
    case Obj(m) => m != map[]
  }

  /** `d.get(k, default)`: only dicts have `get`. */
  function GetOr(d: Value, k: string, default: Value): (r: Result<Value>)
    ensures d.Obj? <==> r.Ok?
    ensures d.Obj? && k in d.fields ==> r.value == d.fields[k]
    ensures d.Obj? && k !in d.fields ==> r.value == default
  {
    match d
    case Obj(m) => Ok(if k in m then m[k] else default)
    case _ => Err(TypeMismatch("get"))
  }

  /** `d.get(k)`: a missing key reads as None, which is JSON null. */
  function Get(d: Value, k: string): (r: Result<Value>)
    ensures d.Obj? <==> r.Ok?
    ensures d.Obj? ==> r.value == if k in d.fields then d.fields[k] else Null
  {
    GetOr(d, k, Null)
  }

  /** `d[k]` with a string key. */
  function Item(d: Value, k: string): (r: Result<Value>)
    ensures r.Ok? <==> d.Obj? && k in d.fields
    ensures r.Ok? ==> r.value == d.fields[k]
    ensures d.Obj? && k !in d.fields ==> r == Err(KeyError(k))
  {
    match d
    case Obj(m) => if k in m then Ok(m[k]) else Err(KeyError(k))
    case _ => Err(TypeMismatch("subscript"))
  }

  /** `k in v` for a string `k`: key test on dicts, element test on lists,
      substring test on strings; anything else is not a container. */
  function Contains(v: Value, k: string): (r: Result<bool>)
    ensures v.Obj? ==> r == Ok(k in v.fields)
    ensures (v.Null? || v.Bool? || v.Num?) ==> r.Err?
  {
    match v
    case Obj(m) => Ok(k in m)
    case Arr(xs) => Ok(Str(k) in xs)
    case Str(s) => Ok(Text.Occurs(k, s))
    case _ => Err(TypeMismatch("in"))
  }

  /** `d[k] = v` on a dict. */
  function SetItem(d: map<string, Value>, k: string, v: Value): (r: map<string, Value>)
    ensures r.Keys == d.Keys + {k} && r[k] == v
    ensures forall j :: j in d && j != k ==> r[j] == d[j]
  {
    d[k := v]
  }

  /** Decimal digits of a natural number, as `str(n)` prints them. */
  function NatToString(n: nat): (r: string)
    ensures |r| > 0
    ensures forall i :: 0 <= i < |r| ==> '0' <= r[i] <= '9'
    decreases n
  {
    if n < 10 then [DigitChar(n)] else NatToString(n / 10) + [DigitChar(n % 10)]
  }

  function DigitChar(d: nat): (c: char)
    requires d < 10
    ensures '0' <= c <= '9'
  {
    ['0', '1', '2', '3', '4', '5', '6', '7', '8', '9'][d]
  }

  function IntToString(n: int): string {
    if n < 0 then "-" + NatToString(-n) else NatToString(n)
  }

  /** `'{}'.format(v)`, i.e. `str(v)`, for the values a parser formats into a
      summary message: text as it is, anything else as its `repr`. */
  function Show(v: Value): (r: string)
    ensures v.Str? ==> r == v.s
    ensures !v.Str? ==> r == Repr(v)
  {
    if v.Str? then v.s else Repr(v)
  }

  /** `repr(v)`. A list prints its elements' reprs between brackets; a dict
      prints as a fixed placeholder, since its key order is not modelled. */
  function Repr(v: Value): (r: string)
    ensures v.Null? ==> r == "None"
    ensures v.Bool? ==> r == if v.b then "True" else "False"
    ensures v.Str? ==> r == QuoteRepr(v.s)
    ensures v.Arr? ==> |r| >= 2 && r[0] == '[' && r[|r| - 1] == ']'
  {
    match v
    case Null => "None"
    case Bool(b) => if b then "True" else "False"
    case Num(n) => IntToString(n)
    case Str(s) => QuoteRepr(s)
    case Arr(xs) => "[" + JoinWith(seq(|xs|, i requires 0 <= i < |xs| => Repr(xs[i])), ", ") + "]"
    case Obj(_) => "{...}"
  }

  /** `sep.join(parts)`. */
  function JoinWith(parts: seq<string>, sep: string): string
    decreases |parts|
  {
    if parts == [] then [] else if |parts| == 1 then parts[0] else parts[0] + sep + JoinWith(parts[1..], sep)
  }

  /** `repr(s)` of a string: in single quotes, unless the text holds a single
      quote and no double quote. */
  function QuoteRepr(s: string): (r: string)
    ensures |r| >= 2 && r[0] == r[|r| - 1] && (r[0] == '\'' || r[0] == '"')
    ensures r[0] == '"' <==> '\'' in s && '"' !in s
  {
    var q := if '\'' in s && '"' !in s then '"' else '\'';
    [q] + EscapeChars(s, q) + [q]
  }

  function EscapeChars(s: string, q: char): string
    decreases |s|
  {
    if s == [] then [] else EscapeChar(s[0], q) + EscapeChars(s[1..], q)
  }

  /** How `repr` writes one character inside quotes `q`. */
  function EscapeChar(c: char, q: char): (r: string)
    ensures Printable(c) && c != q && c != '\\' ==> r == [c]
  {
    if c == q || c == '\\' then ['\\', c]
    else if c == '\t' then "\\t"
    else if c == '\n' then "\\n"
    else if c == '\r' then "\\r"
    else if !Printable(c) then "\\x" + [HexDigit(c as int / 16), HexDigit(c as int % 16)]
    else [c]
  }

  /** The characters `repr` writes as they are: everything but the C0
      controls, DEL, the C1 controls, the no-break space and the soft hyphen. */
  predicate Printable(c: char) {
    !(c < ' ' || ('\U{7F}' <= c <= '\U{A0}') || c == '\U{AD}')
  }

  function HexDigit(d: int): (c: char)
    requires 0 <= d < 16
  {
    "0123456789abcdef"[d]
  }

  /** Text without quotes, backslashes or unprintable characters has the
      plain quoted repr. */
  lemma PlainRepr(s: string)
    requires forall i :: 0 <= i < |s| ==> Printable(s[i]) && s[i] != '\'' && s[i] != '\\'
    ensures QuoteRepr(s) == "'" + s + "'"
  {
    PlainChars(s, '\'');
  }

  /** Characters other than the quote and the backslash that are printable
      are written as they are. */
  lemma {:induction false} PlainChars(s: string, q: char)
    requires forall i :: 0 <= i < |s| ==> Printable(s[i]) && s[i] != q && s[i] != '\\'
    ensures EscapeChars(s, q) == s
    decreases |s|
  {
    if s != [] {
      PlainChars(s[1..], q);
      assert [s[0]] + s[1..] == s;
    }
  }

  lemma ReprList(xs: seq<Value>)
    ensures Repr(Arr(xs)) == "[" + JoinWith(seq(|xs|, i requires 0 <= i < |xs| => Repr(xs[i])), ", ") + "]"
  {
  }

  /** `str()` of a list of text, a number and None, as Python prints it. */
  lemma ShowListExample()
    ensures Show(Arr([Str("a"), Num(1), Null])) == "['a', 1, None]"
  {
    var xs := [Str("a"), Num(1), Null];
    PlainRepr("a");
    assert Repr(Num(1)) == "1" by { assert NatToString(1) == [DigitChar(1)]; }
    var parts := seq(|xs|, i requires 0 <= i < |xs| => Repr(xs[i]));
    assert parts[0] == "'a'" && parts[1] == "1" && parts[2] == "None";
    ReprList(xs);
    JoinThree(parts, ", ");
    ListText();
  }

  lemma ListText()
    ensures "[" + ("'a'" + ", " + "1" + ", " + "None") + "]" == "['a', 1, None]"
  {
  }

  lemma JoinThree(parts: seq<string>, sep: string)
    requires |parts| == 3
    ensures JoinWith(parts, sep) == parts[0] + sep + parts[1] + sep + parts[2]
  {
    assert JoinWith(parts[2..], sep) == parts[2];
  }

  /** `str()` of a list holding text with a single quote: the text is put in
      double quotes and nothing is escaped. */
  lemma ShowQuoteExample()
    ensures Show(Arr([Str("it's")])) == "[\"it's\"]"
  {
    var s := "it's";
    assert s[2] == '\'';
    PlainChars(s, '"');
    var parts := seq(1, i requires 0 <= i < 1 => Repr([Str(s)][i]));
    assert parts == [QuoteRepr(s)];
    ReprList([Str(s)]);
  }

  // ---------------------------------------------------------------------
  // int()

  /** `int(v)`: a number is itself, a boolean is 0 or 1, text is read as a
      decimal literal after stripping whitespace (ValueError when it is not
      one), and anything else raises TypeError. */
  function IntOf(v: Value): (r: Result<int>)
    ensures v.Num? ==> r == Ok(v.n)
    ensures v.Bool? ==> r == Ok(if v.b then 1 else 0)
    ensures v.Null? || v.Arr? || v.Obj? ==> r == Err(TypeMismatch("int"))
    ensures v.Str? ==> (r.Ok? <==> IntLiteral(Text.Strip(v.s)))
    ensures v.Str? && r.Err? ==> r.error.ValueError?
  {
    match v
    case Num(n) => Ok(n)
    case Bool(b) => Ok(if b then 1 else 0)
    case Str(s) =>
      var t := Text.Strip(s);
      if IntLiteral(t) then Ok(LiteralValue(t)) else Err(ValueError("invalid literal for int() with base 10"))
    case _ => Err(TypeMismatch("int"))
  }

  /** An optional sign followed by a numeral. */
  predicate IntLiteral(t: string) {
    if t != [] && (t[0] == '+' || t[0] == '-') then Numeral(t[1..]) else Numeral(t)
  }

  function LiteralValue(t: string): int
    requires IntLiteral(t)
  {
    if t[0] == '-' then -(NumeralValue(t[1..]) as int) else if t[0] == '+' then NumeralValue(t[1..]) else NumeralValue(t)
  }

  /** Decimal digits, with single underscores allowed between two digits. */
  predicate Numeral(t: string) {
    t != [] && Text.IsDigit(t[0]) && Text.IsDigit(t[|t| - 1])
    && (forall i :: 0 <= i < |t| ==> Text.IsDigit(t[i]) || t[i] == '_')
    && (forall i :: 0 <= i < |t| - 1 ==> t[i] == '_' ==> t[i + 1] != '_')
  }

  /** The value of the digits of a numeral, underscores skipped. */
  function NumeralValue(t: string): nat
    decreases |t|
  {
    if t == [] then 0
    else
      var c := t[|t| - 1];
      if Text.IsDigit(c) then NumeralValue(t[..|t| - 1]) * 10 + (c as int - '0' as int)
      else NumeralValue(t[..|t| - 1])
  }

  /** `int(str(n)) == n`. */
  lemma IntRoundTrip(n: int)
    ensures IntOf(Str(IntToString(n))) == Ok(n)
  {
    var d := NatToString(if n < 0 then -n else n);
    NatNumeral(if n < 0 then -n else n);
    if n < 0 {
      NegativeText(d);
    } else {
      Text.StripKeeps(d);
    }
  }

  lemma NegativeText(d: string)
    requires Numeral(d)
    ensures Text.Strip("-" + d) == "-" + d
    ensures IntLiteral("-" + d) && ("-" + d)[1..] == d
  {
    var s := "-" + d;
    assert s[|s| - 1] == d[|d| - 1];
    Text.StripKeeps(s);
    assert s[1..] == d;
  }

  lemma {:induction false} NatNumeral(n: nat)
    ensures Numeral(NatToString(n)) && NumeralValue(NatToString(n)) == n
    decreases n
  {
    var s := NatToString(n);
    if n >= 10 {
      NatNumeral(n / 10);
      assert s[..|s| - 1] == NatToString(n / 10);
      DigitValue(n % 10);
    } else {
      DigitValue(n);
    }
  }

  lemma DigitValue(d: nat)
    requires d < 10
    ensures DigitChar(d) as int - '0' as int == d
  {
  }
  /** A Python `str` operand: anything else raises TypeError/AttributeError. */
  function AsString(v: Value, op: string): (r: Result<string>)
    ensures r.Ok? <==> v.Str?
    ensures v.Str? ==> r.value == v.s
  {
    if v.Str? then Ok(v.s) else Err(TypeMismatch(op))
  }

  /** The value of a field looked up as `d.get(a, {}).get(b)`. */
  function GetNested(d: Value, a: string, b: string): (r: Result<Value>)
    ensures d.Obj? && a !in d.fields ==> r == Ok(Null)
    ensures d.Obj? && a in d.fields && d.fields[a].Obj? ==>
              r == Ok(if b in d.fields[a].fields then d.fields[a].fields[b] else Null)
    ensures !d.Obj? ==> r.Err?
  {
    var inner :- GetOr(d, a, Obj(map[]));
    Get(inner, b)
  }

  /** The value at a key path through nested dicts, if every key is there:
      how a reader of a configuration tree follows it. */
  function Walk(c: Value, keys: seq<string>): Option<Value>
    decreases |keys|
  {
    if keys == [] then Some(c)
    else if c.Obj? && keys[0] in c.fields then Walk(c.fields[keys[0]], keys[1..])
    else None
  }
}
