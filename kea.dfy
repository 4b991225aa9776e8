/** `Kea.recv` of slips/parser.py, its matching part: the line expression
      ^(\d{4}-\d{2}-\d{2} \d{2}:\d{2}:\d{2}\.\d{3}) ([A-Z]+)\s+\[(\S+?)\] (\S+)
      \[hwtype=(\S+) (\S+)\], cid=\[(.*?)\], tid=(\S+): (.*)
    and the per-event inner expressions, written out as matchers that pick
    the groups Python's backtracking search picks. Every group but the
    client id is determined by what precedes it (each `\S+` group is the run
    of non-whitespace up to the blank its literal tail contains); the lazy
    client-id group `(.*?)` is the shortest one after which the rest
    matches. */
module Kea {
  import opened Values
  import opened Text
  import opened Scan

  /** The nine groups, in the order of the keys `Kea.recv` stores them under. */
  datatype KeaFields = KeaFields(
    datetime: string, level: string, proc: string, event: string, hwtype: string,
    hwaddr: string, clientId: string, txId: string, msg: string)

  /** The keys of the nine groups. */
  const Keys: seq<string> := ["event_datetime", "msg_level", "proc", "event", "hwtype",
                              "hwaddr", "client_id", "tx_id", "msg"]

  /** The `strptime` format for the part of group 1 before the dot. */
  const DateFormat: string := "%Y-%m-%d %H:%M:%S"

  /** The shape of group 1; `d` stands for a digit. */
  const StampPattern: string := "dddd-dd-dd dd:dd:dd.ddd"

  predicate IsStamp(d: string) {
    |d| == |StampPattern|
    && forall i :: 0 <= i < |d| ==> if StampPattern[i] == 'd' then IsDigit(d[i]) else d[i] == StampPattern[i]
  }

  /** The groups have the shapes the expression gives them. */
  predicate WellFormed(f: KeaFields) {
    IsStamp(f.datetime) && f.level != [] && Uppers(f.level)
    && f.proc != [] && NonSpaces(f.proc) && f.event != [] && NonSpaces(f.event)
    && f.hwtype != [] && NonSpaces(f.hwtype) && f.hwaddr != [] && NonSpaces(f.hwaddr)
    && NoNewline(f.clientId) && f.txId != [] && NonSpaces(f.txId) && NoNewline(f.msg)
  }

  /** A match: the groups, the whitespace after the level and the rest of the
      input after group 9 (empty or from a newline on). */
  datatype KeaParts = KeaParts(f: KeaFields, ws: string, rest: string)

  /** A line laid out as the expression reads it. */
  function Layout(f: KeaFields, ws: string, rest: string): string {
    f.datetime + (" " + (f.level + (ws + ("[" + (f.proc + ("] " + (f.event + (" [hwtype=" + (f.hwtype
    + (" " + (f.hwaddr + ("], cid=[" + (f.clientId + ("], tid=" + (f.txId + (": " + (f.msg + rest)))))))))))))))))
  }

  /** `\], tid=(\S+): ` at the start of `a`: what has to follow the client id. */
  predicate CidOk(a: string) {
    if a == [] || a[0] != ']' then false
    else match Lit(a, "], tid=")
      case None => false
      case Some(b) => Word(b, 1, ": ").Some?
  }

  /** The lazy `(.*?)` of the client id: the shortest run without a newline
      after which CidOk holds (CidSearchFirst states that it is the shortest). */
  function CidSearch(r: string): (o: Option<(string, string)>)
    ensures o.Some? ==> NoNewline(o.value.0) && CidOk(o.value.1) && r == o.value.0 + o.value.1
    decreases |r|
  {
    if CidOk(r) then Some(([], r))
    else if r == [] || r[0] == '\n' then None
    else match CidSearch(r[1..])
      case None => None
      case Some(p) =>
        CidGlue(r, p.0, p.1);
        Some(([r[0]] + p.0, p.1))
  }

  lemma CidGlue(r: string, c: string, a: string)
    requires r != [] && r[0] != '\n' && r[1..] == c + a && NoNewline(c)
    ensures r == ([r[0]] + c) + a && NoNewline([r[0]] + c)
  {
    assert r == [r[0]] + r[1..];
    var c1 := [r[0]] + c;
    forall i | 0 <= i < |c1| ensures c1[i] != '\n' {
      if i > 0 { assert c1[i] == c[i - 1]; }
    }
  }

  /** Laziness: no shorter client id would do. */
  lemma {:induction false} CidSearchFirst(r: string, i: nat)
    requires CidSearch(r).Some? && i < |CidSearch(r).value.0|
    ensures !CidOk(r[i..])
    decreases |r|
  {
    assert !CidOk(r);
    if i > 0 {
      CidSearchFirst(r[1..], i - 1);
      assert r[1..][i - 1..] == r[i..];
    }
  }

  /** A client id without `]` and without a newline, followed by a good rest,
      is the one CidSearch finds. */
  lemma {:induction false} CidSearchOf(c: string, a: string)
    requires NoNewline(c) && (forall i :: 0 <= i < |c| ==> c[i] != ']') && CidOk(a)
    ensures CidSearch(c + a) == Some((c, a))
    decreases |c|
  {
    if c == [] {
      assert c + a == a;
    } else {
      var r := c + a;
      assert r[0] == c[0];
      assert r[1..] == c[1..] + a;
      CidSearchOf(c[1..], a);
      assert [c[0]] + c[1..] == c;
    }
  }

  /** `PATTERN.search(msg)` with the parts around the groups. Soundness: the
      groups are well formed and the line is laid out from them. */
  function MatchParts(s: string): (g: Option<KeaParts>)
    ensures g.Some? ==> WellFormed(g.value.f) && g.value.ws != [] && Spaces(g.value.ws)
    ensures g.Some? ==> g.value.rest == [] || g.value.rest[0] == '\n'
    ensures g.Some? ==> s == Layout(g.value.f, g.value.ws, g.value.rest)
  {
    if |s| < |StampPattern| || !IsStamp(s[..|StampPattern|]) then None
    else
      TakeDrop(s, |StampPattern|);
      var r1 :- Lit(s[|StampPattern|..], " ");
      var lv :- UpperRun(r1);
      var ws :- SpaceRun(lv.1);
      var r3 :- Lit(ws.1, "[");
      var pr :- Word(r3, 1, "] ");
      var ev :- Word(pr.1, 0, " [hwtype=");
      var ht :- Word(ev.1, 0, " ");
      var ha :- Word(ht.1, 2, "], cid=[");
      var cd :- CidSearch(ha.1);
      var r9 := Lit(cd.1, "], tid=").value;
      var td := Word(r9, 1, ": ").value;
      var ln := LineRun(td.1);
      Some(KeaParts(KeaFields(s[..|StampPattern|], lv.0, pr.0, ev.0, ht.0, ha.0, cd.0, td.0, ln.0), ws.0, ln.1))
  }

  /** The nine groups of `Kea.PATTERN.search(msg)`, if it matches. */
  function Match(s: string): (r: Option<KeaFields>)
    ensures r.Some? ==> WellFormed(r.value)
    ensures r.Some? ==> exists ws: string, rest: string :: Spaces(ws) && s == Layout(r.value, ws, rest)
  {
    match MatchParts(s)
    case None => None
    case Some(g) => Some(g.f)
  }

  // ---------------------------------------------------------------------
  // Completeness: a well-formed line yields exactly its groups.

  lemma TailOf(f: KeaFields, rest: string)
    requires f.txId != [] && NonSpaces(f.txId) && NoNewline(f.msg) && (rest == [] || rest[0] == '\n')
    ensures CidOk("], tid=" + (f.txId + (": " + (f.msg + rest))))
    ensures Lit("], tid=" + (f.txId + (": " + (f.msg + rest))), "], tid=") == Some(f.txId + (": " + (f.msg + rest)))
    ensures Word(f.txId + (": " + (f.msg + rest)), 1, ": ") == Some((f.txId, f.msg + rest))
    ensures LineRun(f.msg + rest) == (f.msg, rest)
  {
    LitOf("], tid=", f.txId + (": " + (f.msg + rest)));
    WordOf(f.txId, 1, ": ", f.msg + rest);
    LineRunOf(f.msg, rest);
  }

  lemma HeadOf(f: KeaFields, ws: string, r4: string)
    requires WellFormed(f) && ws != [] && Spaces(ws)
    ensures Lit(" " + (f.level + (ws + ("[" + r4))), " ") == Some(f.level + (ws + ("[" + r4)))
    ensures UpperRun(f.level + (ws + ("[" + r4))) == Some((f.level, ws + ("[" + r4)))
    ensures SpaceRun(ws + ("[" + r4)) == Some((ws, "[" + r4))
    ensures Lit("[" + r4, "[") == Some(r4)
  {
    LitOf(" ", f.level + (ws + ("[" + r4)));
    assert (ws + ("[" + r4))[0] == ws[0];
    UpperRunOf(f.level, ws + ("[" + r4));
    SpaceRunOf(ws, "[" + r4);
    LitOf("[", r4);
  }

  lemma WordsOf(f: KeaFields, r8: string)
    requires WellFormed(f)
    ensures Word(f.proc + ("] " + (f.event + (" [hwtype=" + (f.hwtype + (" " + (f.hwaddr + ("], cid=[" + r8))))))), 1, "] ")
         == Some((f.proc, f.event + (" [hwtype=" + (f.hwtype + (" " + (f.hwaddr + ("], cid=[" + r8)))))))
    ensures Word(f.event + (" [hwtype=" + (f.hwtype + (" " + (f.hwaddr + ("], cid=[" + r8))))), 0, " [hwtype=")
         == Some((f.event, f.hwtype + (" " + (f.hwaddr + ("], cid=[" + r8)))))
    ensures Word(f.hwtype + (" " + (f.hwaddr + ("], cid=[" + r8))), 0, " ")
         == Some((f.hwtype, f.hwaddr + ("], cid=[" + r8)))
    ensures Word(f.hwaddr + ("], cid=[" + r8), 2, "], cid=[")
         == Some((f.hwaddr, r8))
  {
    var r7 := f.hwaddr + ("], cid=[" + r8);
    var r6 := f.hwtype + (" " + r7);
    var r5 := f.event + (" [hwtype=" + r6);
    WordAt(f.proc, 1, "] ", r5);
    WordAt(f.event, 0, " [hwtype=", r6);
    WordAt(f.hwtype, 0, " ", r7);
    WordAt(f.hwaddr, 2, "], cid=[", r8);
  }

  /** WordOf for the literal tails of the expression. */
  lemma WordAt(w: string, k: nat, tail: string, rest: string)
    requires w != [] && NonSpaces(w)
    requires (k, tail) in {(1, "] "), (0, " [hwtype="), (0, " "), (2, "], cid=[")}
    ensures Word(w + (tail + rest), k, tail) == Some((w, rest))
  {
    assert NonSpaces(tail[..k]) by {
      forall i | 0 <= i < k ensures !IsSpace(tail[..k][i]) {
        assert tail[..k][i] == tail[i];
      }
    }
    WordOf(w, k, tail, rest);
  }

  /** Completeness and exactness: a line laid out from well-formed groups,
      with a client id holding no `]`, yields exactly those groups. */
  lemma MatchExact(f: KeaFields, ws: string, rest: string)
    requires WellFormed(f) && ws != [] && Spaces(ws) && (rest == [] || rest[0] == '\n')
    requires forall i :: 0 <= i < |f.clientId| ==> f.clientId[i] != ']'
    ensures Match(Layout(f, ws, rest)) == Some(f)
  {
    var a := "], tid=" + (f.txId + (": " + (f.msg + rest)));
    var r8 := f.clientId + a;
    var r4 := f.proc + ("] " + (f.event + (" [hwtype=" + (f.hwtype + (" " + (f.hwaddr + ("], cid=[" + r8)))))));
    var r1 := " " + (f.level + (ws + ("[" + r4)));
    var s := Layout(f, ws, rest);
    assert s == f.datetime + r1;
    assert s[..|StampPattern|] == f.datetime;
    assert s[|StampPattern|..] == r1;
    TailOf(f, rest);
    CidSearchOf(f.clientId, a);
    WordsOf(f, r8);
    HeadOf(f, ws, r4);
  }

  // ---------------------------------------------------------------------
  // The inner expressions of `Kea.MSG_REGEX`.

  /** The supported events; each inner expression is `<before>(\S+)<after>`. */
  const Events: map<string, (string, string)> := map[
    "DHCP4_INIT_REBOOT" := ("requests address ", ""),
    "DHCP4_LEASE_ADVERT" := ("lease ", " will be advertised"),
    "DHCP4_LEASE_ALLOC" := ("lease ", " has been allocated")]

  /** `re.compile(before + '(\S+)' + after).search(s).group(1)`: the leftmost
      position where `before`, a run of non-whitespace and `after` start.
      The group is the whole run, as \S+ is greedy and `after` is empty or
      starts with a blank. */
  function Search(s: string, before: string, after: string): (r: Option<string>)
    requires after == [] || IsSpace(after[0])
    ensures r.Some? ==> r.value != [] && NonSpaces(r.value) && Occurs(before + (r.value + after), s)
    decreases |s|
  {
    match AddressAt(s, before, after)
    case Some(w) => Some(w)
    case None => if s == [] then None else Search(s[1..], before, after)
  }

  /** The group when the match starts at the first character of `s`. */
  function AddressAt(s: string, before: string, after: string): (r: Option<string>)
    requires after == [] || IsSpace(after[0])
    ensures r.Some? ==> r.value != [] && NonSpaces(r.value) && StartsWith(s, before + (r.value + after))
  {
    var r1 :- Lit(s, before);
    var w :- Word(r1, 0, after);
    AddressGlue(s, before, w.0, after, w.1);
    Some(w.0)
  }

  lemma AddressGlue(s: string, before: string, w: string, after: string, rest: string)
    requires s == before + (w + (after + rest))
    ensures StartsWith(s, before + (w + after))
  {
    assert s == (before + (w + after)) + rest;
  }

  /** A line that starts with the inner expression's text yields its address. */
  lemma SearchOf(before: string, w: string, after: string, rest: string)
    requires w != [] && NonSpaces(w) && |after| > 0 && IsSpace(after[0])
    ensures Search(before + (w + (after + rest)), before, after) == Some(w)
  {
    LitOf(before, w + (after + rest));
    WordOf(w, 0, after, rest);
  }

  /** The address the event's inner expression finds in the message text. */
  function Address(f: KeaFields): Option<string>
    requires f.event in Events
  {
    Search(f.msg, Events[f.event].0, Events[f.event].1)
  }

  /** `Kea.recv` from the match on: the groups and the address, or the
      exception it raises. */
  function Parse(msg: string): (r: Result<(KeaFields, string)>)
    ensures Match(msg).None? ==> r == Err(Failure("Invalid format of kea message"))
    ensures Match(msg).Some? && Match(msg).value.event !in Events ==> r == Err(Failure("Not supported event of kea"))
    ensures r.Ok? ==> Match(msg) == Some(r.value.0) && r.value.0.event in Events
    ensures r.Ok? ==> var e := Events[r.value.0.event];
      Search(r.value.0.msg, e.0, e.1) == Some(r.value.1)
    ensures r.Err? ==> r.error.Failure?
    ensures r.Ok? <==> Match(msg).Some? && Match(msg).value.event in Events && Address(Match(msg).value).Some?
    ensures Match(msg).Some? && Match(msg).value.event in Events && Address(Match(msg).value).None? ==>
      r == Err(Failure("Regex is not matched"))
  {
    match Match(msg)
    case None => Err(Failure("Invalid format of kea message"))
    case Some(f) =>
      if f.event !in Events then Err(Failure("Not supported event of kea"))
      else
        match Address(f)
        case None => Err(Failure("Regex is not matched"))
        case Some(ip) => Ok((f, ip))
  }

  /** `data.update(dict(zip(keys, mo.groups())))` followed by `data['ipaddr'] = ...`. */
  function Record(data: map<string, Value>, f: KeaFields, ip: string): (r: map<string, Value>)
    ensures r.Keys == data.Keys + {"event_datetime", "msg_level", "proc", "event", "hwtype", "hwaddr", "client_id", "tx_id", "msg", "ipaddr"}
    ensures r["event_datetime"] == Str(f.datetime) && r["msg_level"] == Str(f.level)
    ensures r["proc"] == Str(f.proc) && r["event"] == Str(f.event) && r["hwtype"] == Str(f.hwtype)
    ensures r["hwaddr"] == Str(f.hwaddr) && r["client_id"] == Str(f.clientId)
    ensures r["tx_id"] == Str(f.txId) && r["msg"] == Str(f.msg) && r["ipaddr"] == Str(ip)
    ensures forall k :: k in data && k !in Keys && k != "ipaddr" ==> r[k] == data[k]
  {
    data["event_datetime" := Str(f.datetime)]["msg_level" := Str(f.level)]["proc" := Str(f.proc)]
        ["event" := Str(f.event)]["hwtype" := Str(f.hwtype)]["hwaddr" := Str(f.hwaddr)]
        ["client_id" := Str(f.clientId)]["tx_id" := Str(f.txId)]["msg" := Str(f.msg)]["ipaddr" := Str(ip)]
  }
}
