/** `Syslog.parse` of slips/parser.py: the header expression
      ^(\S{3} \d{1,2} \d{2}:\d{2}:\d{2}) (\S+) (\S+)\[(\d+)\]:\s*(.*)$
    written out as a matcher that picks the same groups as Python's
    backtracking search. Every group is determined by the one before it
    except the process name, where `\S+` is greedy and so the LAST `[` that
    is followed by `digits]:` and a well-formed tail is chosen. The header is
    the one of section 4.1.2 of RFC 3164 (TIMESTAMP HOSTNAME TAG). */
module Syslog {
  import opened Values
  import opened Text
  import opened Scan

  /** The five groups, under the keys `Syslog.parse` stores them. */
  datatype Fields = Fields(datetime: string, hostname: string, procName: string, procId: string, message: string)

  /** The `strptime` format applied to group 1. */
  const DateFormat: string := "%b %d %H:%M:%S"

  /** `\d{2}:\d{2}:\d{2}` at position `i` of `d`. */
  predicate ClockAt(d: string, i: nat) {
    i + 8 <= |d| && IsDigit(d[i]) && IsDigit(d[i + 1]) && d[i + 2] == ':' && IsDigit(d[i + 3])
    && IsDigit(d[i + 4]) && d[i + 5] == ':' && IsDigit(d[i + 6]) && IsDigit(d[i + 7])
  }

  /** What group 1, `\S{3} \d{1,2} \d{2}:\d{2}:\d{2}`, matches. */
  predicate IsStamp(d: string) {
    (|d| == 14 || |d| == 15) && !IsSpace(d[0]) && !IsSpace(d[1]) && !IsSpace(d[2]) && d[3] == ' '
    && IsDigit(d[4]) && (|d| == 15 ==> IsDigit(d[5])) && d[|d| - 9] == ' ' && ClockAt(d, |d| - 8)
  }

  /** The end of group 1 at the start of `s`; `\d{1,2}` takes two digits when
      it can, and backing off to one digit never helps. */
  function StampEnd(s: string): (r: Option<nat>)
    ensures r.Some? ==> r.value <= |s| && IsStamp(s[..r.value])
  {
    if |s| < 5 || IsSpace(s[0]) || IsSpace(s[1]) || IsSpace(s[2]) || s[3] != ' ' || !IsDigit(s[4]) then None
    else
      var t := if |s| > 5 && IsDigit(s[5]) then 6 else 5;
      if t + 9 <= |s| && s[t] == ' ' && ClockAt(s, t + 1) then Some(t + 9) else None
  }

  function Newline(nl: bool): string { if nl then "\n" else "" }

  /** The line after group 3: `[`, group 4, `]:`, the whitespace `w`, group 5
      and, when `nl`, the final newline that `$` may stand before. */
  function TailLayout(pid: string, w: string, msg: string, nl: bool): string {
    "[" + (pid + ("]:" + (w + (msg + Newline(nl)))))
  }

  /** A line laid out as the expression reads it. */
  function Layout(f: Fields, w: string, nl: bool): string {
    f.datetime + (" " + (f.hostname + (" " + (f.procName + TailLayout(f.procId, w, f.message, nl)))))
  }

  /** Groups 4 and 5 and the whitespace between them have the shapes the
      expression gives them; group 5 does not start with whitespace because
      `\s*` is greedy. */
  predicate TailShape(pid: string, w: string, msg: string) {
    pid != [] && Digits(pid) && Spaces(w) && NoNewline(msg) && (msg == [] || !IsSpace(msg[0]))
  }

  /** Groups of the shapes the expression's groups have. */
  predicate WellFormed(f: Fields) {
    IsStamp(f.datetime) && f.hostname != [] && NonSpaces(f.hostname) && f.procName != []
    && NonSpaces(f.procName) && f.procId != [] && Digits(f.procId) && NoNewline(f.message)
  }

  /** A match: the groups, the whitespace after the colon and whether a final
      newline was left for `$`. */
  datatype Parts = Parts(f: Fields, w: string, nl: bool)

  /** `\s*(.*)$` matches all of `r`. */
  predicate TailOk(r: string) {
    var r7 := r[LeadSpace(r)..];
    var ml := LeadLine(r7);
    ml == |r7| || ml + 1 == |r7|
  }

  /** `\[(\d+)\]:\s*(.*)$` matches all of `r`. */
  predicate ProcOk(r: string) {
    if r == [] || r[0] != '[' then false else PidOk(r[1..])
  }

  /** `(\d+)\]:\s*(.*)$` matches all of `r4`. */
  predicate PidOk(r4: string) {
    var dl := LeadDigits(r4);
    var r5 := r4[dl..];
    dl > 0 && |r5| >= 2 && r5[0] == ']' && r5[1] == ':' && TailOk(r5[2..])
  }

  /** The back-off of a greedy group: the largest `e` with `1 <= e <= hi`
      for which `ok(e)` holds, trying `hi` first and one less each time. */
  function SearchDown(ok: nat -> bool, hi: nat): (e: Option<nat>)
    ensures e.Some? ==> 1 <= e.value <= hi && ok(e.value)
  {
    if hi < 1 then None else if ok(hi) then Some(hi) else SearchDown(ok, hi - 1)
  }

  /** Greediness: no candidate above the one found (or up to `hi` when none
      is found) qualifies. */
  lemma {:induction false} SearchMax(ok: nat -> bool, hi: nat, x: nat)
    requires 1 <= x <= hi
    requires SearchDown(ok, hi).None? || SearchDown(ok, hi).value < x
    ensures !ok(x)
  {
    if x < hi && !ok(hi) { SearchMax(ok, hi - 1, x); }
  }

  /** The search stops at a qualifying candidate when none above it up to
      `hi` qualifies. */
  lemma {:induction false} SearchFinds(ok: nat -> bool, hi: nat, e0: nat)
    requires 1 <= e0 <= hi && ok(e0)
    requires forall x :: e0 < x <= hi ==> !ok(x)
    ensures SearchDown(ok, hi) == Some(e0)
  {
    if hi > e0 { SearchFinds(ok, hi - 1, e0); }
  }

  /** The candidates for the end of group 3: the rest of the line from there
      matches `\[(\d+)\]:\s*(.*)$`. */
  function ProcAt(r: string): nat -> bool {
    (x: nat) => x <= |r| && ProcOk(r[x..])
  }

  /** The end of group 3 that the greedy `(\S+)` settles on. */
  function ProcSearch(r: string, hi: nat): (e: Option<nat>)
    requires hi <= |r|
    ensures e.Some? ==> 1 <= e.value <= hi && ProcOk(r[e.value..])
  {
    SearchDown(ProcAt(r), hi)
  }

  lemma ProcSearchMax(r: string, hi: nat, x: nat)
    requires 1 <= x <= hi <= |r|
    requires ProcSearch(r, hi).None? || ProcSearch(r, hi).value < x
    ensures !ProcOk(r[x..])
  {
    SearchMax(ProcAt(r), hi, x);
  }

  /** No candidate qualifies unless a `[` starts it. */
  lemma NotProc(r: string, x: nat)
    requires x < |r| && r[x] != '['
    ensures !ProcOk(r[x..])
  {
    assert r[x..][0] == r[x];
  }

  /** `\s*(.*)$` on a tail that matches: the whitespace, group 5 and whether
      a final newline is left for `$`. */
  function SplitTail(r6: string): (t: (string, string, bool))
    requires TailOk(r6)
    ensures Spaces(t.0) && NoNewline(t.1) && (t.1 == [] || !IsSpace(t.1[0]))
    ensures r6 == t.0 + (t.1 + Newline(t.2))
  {
    var wl := LeadSpace(r6);
    var r7 := r6[wl..];
    var ml := LeadLine(r7);
    LeadSpaceRun(r6);
    LeadLineRun(r7);
    TailGlue(r6, wl, ml);
    (r6[..wl], r7[..ml], ml + 1 == |r7|)
  }

  lemma TailGlue(r6: string, wl: nat, ml: nat)
    requires wl <= |r6| && ml <= |r6[wl..]| && (wl < |r6| ==> !IsSpace(r6[wl]))
    requires ml == |r6[wl..]| || (ml + 1 == |r6[wl..]| && r6[wl..][ml] == '\n')
    ensures r6 == r6[..wl] + (r6[wl..][..ml] + Newline(ml + 1 == |r6[wl..]|))
    ensures ml > 0 ==> !IsSpace(r6[wl..][..ml][0])
  {
    var r7 := r6[wl..];
    assert r7 == r7[..ml] + Newline(ml + 1 == |r7|);
    assert r6 == r6[..wl] + r7;
    assert ml > 0 ==> r7[..ml][0] == r6[wl];
  }

  /** `(\d+)\]:` on a line whose rest matches: group 4 and the tail after the colon. */
  function SplitPid(r4: string): (p: (string, string))
    requires PidOk(r4)
    ensures p.0 != [] && Digits(p.0) && TailOk(p.1)
    ensures r4 == p.0 + ("]:" + p.1)
  {
    var dl := LeadDigits(r4);
    LeadDigitsRun(r4);
    PidGlue(r4, dl);
    (r4[..dl], r4[dl..][2..])
  }

  lemma PidGlue(r4: string, dl: nat)
    requires dl + 2 <= |r4| && r4[dl..][0] == ']' && r4[dl..][1] == ':'
    ensures r4 == r4[..dl] + ("]:" + r4[dl..][2..])
  {
    var r5 := r4[dl..];
    assert r5 == "]:" + r5[2..];
    assert r4 == r4[..dl] + r5;
  }

  /** A string that starts with `c` is `c` followed by the rest. */
  lemma OpenGlue(r: string, c: char)
    requires r != [] && r[0] == c
    ensures r == [c] + r[1..]
  {
  }

  /** Groups 4 and 5 from the `[` on. */
  function MatchTail(dt: string, host: string, proc: string, r3: string): (g: Parts)
    requires ProcOk(r3)
    ensures g.f.datetime == dt && g.f.hostname == host && g.f.procName == proc
    ensures TailShape(g.f.procId, g.w, g.f.message)
    ensures r3 == TailLayout(g.f.procId, g.w, g.f.message, g.nl)
  {
    var p := SplitPid(r3[1..]);
    var t := SplitTail(p.1);
    OpenGlue(r3, '[');
    Parts(Fields(dt, host, proc, p.0, t.1), t.0, t.2)
  }

  /** Group 3 and what follows it. */
  function MatchProc(dt: string, host: string, r2: string): (g: Option<Parts>)
    ensures g.Some? ==> g.value.f.datetime == dt && g.value.f.hostname == host
    ensures g.Some? ==> g.value.f.procName != [] && NonSpaces(g.value.f.procName)
    ensures g.Some? ==> TailShape(g.value.f.procId, g.value.w, g.value.f.message)
    ensures g.Some? ==> var v := g.value;
      r2 == v.f.procName + TailLayout(v.f.procId, v.w, v.f.message, v.nl)
  {
    var c := LeadNonSpace(r2);
    if c < 2 then None
    else match ProcSearch(r2, c - 1)
      case None => None
      case Some(e) =>
        LeadNonSpaceRun(r2);
        ProcGlue(r2, c, e);
        Some(MatchTail(dt, host, r2[..e], r2[e..]))
  }

  lemma ProcGlue(r2: string, c: nat, e: nat)
    requires e <= c <= |r2| && NonSpaces(r2[..c])
    ensures NonSpaces(r2[..e]) && r2 == r2[..e] + r2[e..]
  {
    assert r2[..e] == r2[..c][..e];
  }

  /** Group 2 and what follows it, from the blank after group 1. */
  function MatchHost(dt: string, r0: string): (g: Option<Parts>)
    ensures g.Some? ==> g.value.f.datetime == dt
    ensures g.Some? ==> var f := g.value.f;
      f.hostname != [] && NonSpaces(f.hostname) && f.procName != [] && NonSpaces(f.procName)
    ensures g.Some? ==> TailShape(g.value.f.procId, g.value.w, g.value.f.message)
    ensures g.Some? ==> var v := g.value;
      r0 == " " + (v.f.hostname + (" " + (v.f.procName + TailLayout(v.f.procId, v.w, v.f.message, v.nl))))
  {
    if r0 == [] || r0[0] != ' ' then None
    else
      var r1 := r0[1..];
      var hl := LeadNonSpace(r1);
      var h0 := r1[hl..];
      if hl == 0 || h0 == [] || h0[0] != ' ' then None
      else match MatchProc(dt, r1[..hl], h0[1..])
        case None => None
        case Some(g) =>
          LeadNonSpaceRun(r1);
          HostGlue(r0, hl);
          Some(g)
  }

  lemma HostGlue(r0: string, hl: nat)
    requires |r0| > hl + 1 && r0[0] == ' ' && r0[1..][hl] == ' '
    ensures r0 == " " + (r0[1..][..hl] + (" " + r0[1..][hl..][1..]))
  {
    var r1 := r0[1..];
    var h0 := r1[hl..];
    assert h0 == " " + h0[1..];
    assert r1 == r1[..hl] + h0;
    assert r0 == " " + r1;
  }

  /** `MSG_REGEX.search(line)`. Soundness: the groups are well formed and, with
      the whitespace after the colon and an optional final newline, make up
      the line. */
  function MatchParts(s: string): (g: Option<Parts>)
    ensures g.Some? ==> WellFormed(g.value.f) && TailShape(g.value.f.procId, g.value.w, g.value.f.message)
    ensures g.Some? ==> s == Layout(g.value.f, g.value.w, g.value.nl)
  {
    match StampEnd(s)
    case None => None
    case Some(p) =>
      TakeDrop(s, p);
      MatchHost(s[..p], s[p..])
  }

  /** The five groups of `MSG_REGEX.search(line)`, if it matches. */
  function Match(s: string): (r: Option<Fields>)
    ensures r.Some? ==> WellFormed(r.value)
    ensures r.Some? ==> exists w: string, nl: bool :: Spaces(w) && s == Layout(r.value, w, nl)
  {
    match MatchParts(s)
    case None => None
    case Some(g) => Some(g.f)
  }

  /** `Syslog.parse(line)`: the groups, or ParseError when the line does not match. */
  function Parse(line: string): (r: Result<Fields>)
    ensures r.Ok? <==> Match(line).Some?
    ensures r.Ok? ==> r.value == Match(line).value
    ensures r.Err? ==> r.error.ParseError?
  {
    match Match(line)
    case None => Err(ParseError("not syslog format"))
    case Some(f) => Ok(f)
  }

  /** The record `Syslog.parse` returns. */
  function ToRecord(f: Fields): (r: Value)
    ensures r.Obj? && r.fields.Keys == {"datetime", "hostname", "proc_name", "proc_id", "message"}
    ensures r.fields["datetime"] == Str(f.datetime) && r.fields["hostname"] == Str(f.hostname)
    ensures r.fields["proc_name"] == Str(f.procName) && r.fields["proc_id"] == Str(f.procId)
    ensures r.fields["message"] == Str(f.message)
  {
    Obj(map["datetime" := Str(f.datetime), "hostname" := Str(f.hostname), "proc_name" := Str(f.procName),
            "proc_id" := Str(f.procId), "message" := Str(f.message)])
  }

  // ---------------------------------------------------------------------
  // Completeness: a well-formed line yields exactly its groups.

  /** A stamp at the start of a line is the one StampEnd finds. */
  lemma StampEndOf(dt: string, rest: string)
    requires IsStamp(dt)
    ensures StampEnd(dt + rest) == Some(|dt|)
  {
    var s := dt + rest;
    assert s[0] == dt[0] && s[1] == dt[1] && s[2] == dt[2] && s[3] == dt[3] && s[4] == dt[4] && s[5] == dt[5];
    assert forall i :: |dt| - 9 <= i < |dt| ==> s[i] == dt[i];
  }

  /** ProcSearch returns a qualifying candidate when no `[` follows it up to `hi`. */
  lemma ProcSearchFinds(r: string, hi: nat, e0: nat)
    requires 1 <= e0 <= hi < |r| && ProcOk(r[e0..])
    requires forall x :: e0 < x <= hi ==> r[x] != '['
    ensures ProcSearch(r, hi) == Some(e0)
  {
    forall x | e0 < x <= hi ensures !ProcAt(r)(x) {
      NotProc(r, x);
    }
    SearchFinds(ProcAt(r), hi, e0);
  }

  lemma ExactTail(dt: string, host: string, proc: string, pid: string, w: string, msg: string, nl: bool)
    requires TailShape(pid, w, msg)
    ensures ProcOk(TailLayout(pid, w, msg, nl))
    ensures MatchTail(dt, host, proc, TailLayout(pid, w, msg, nl)).f == Fields(dt, host, proc, pid, msg)
  {
    var r3 := TailLayout(pid, w, msg, nl);
    var nls := Newline(nl);
    var r6 := w + (msg + nls);
    var r5 := "]:" + r6;
    assert r3[1..] == pid + r5;
    LeadDigitsOf(pid, r5);
    assert (pid + r5)[|pid|..] == r5;
    assert r5[2..] == r6;
    if msg == [] {
      assert r6 == (w + nls) + [];
      assert Spaces(w + nls) by {
        forall i | 0 <= i < |w + nls| ensures IsSpace((w + nls)[i]) {
          if i < |w| { assert (w + nls)[i] == w[i]; }
        }
      }
      LeadSpaceOf(w + nls, []);
      assert r6[|r6|..] == [];
    } else {
      LeadSpaceOf(w, msg + nls);
      assert r6[|w|..] == msg + nls;
      LeadLineOf(msg, nls);
      assert (msg + nls)[..|msg|] == msg;
    }
  }

  /** Group 3, `[`, group 4 and `]:` hold no whitespace, and no `[` after
      the one that follows group 3. */
  lemma RunShape(proc: string, pid: string)
    requires NonSpaces(proc) && Digits(pid)
    ensures NonSpaces(proc + ("[" + (pid + "]:")))
    ensures forall x :: |proc| < x < |proc| + |pid| + 3 ==> (proc + ("[" + (pid + "]:")))[x] != '['
  {
    var q := pid + "]:";
    forall j | 0 <= j < |q| ensures !IsSpace(q[j]) && q[j] != '[' {
      if j < |pid| { assert q[j] == pid[j]; }
    }
    var b := "[" + q;
    forall j | 0 <= j < |b| ensures !IsSpace(b[j]) && (j > 0 ==> b[j] != '[') {
      if j > 0 { assert b[j] == q[j - 1]; }
    }
    var run := proc + b;
    forall i | 0 <= i < |run| ensures !IsSpace(run[i]) && (i > |proc| ==> run[i] != '[') {
      if i < |proc| { assert run[i] == proc[i]; } else { assert run[i] == b[i - |proc|]; }
    }
  }

  /** The run of non-whitespace at the start of group 3 and its tail ends at
      the colon, and holds no `[` after the one opening the tail. */
  lemma ProcRun(proc: string, pid: string, w: string, msg: string, nl: bool)
    requires NonSpaces(proc) && TailShape(pid, w, msg) && w != []
    ensures LeadNonSpace(proc + TailLayout(pid, w, msg, nl)) == |proc| + |pid| + 3
    ensures forall x :: |proc| < x < |proc| + |pid| + 3 ==> (proc + TailLayout(pid, w, msg, nl))[x] != '['
  {
    var rest := w + (msg + Newline(nl));
    var run := proc + ("[" + (pid + "]:"));
    RunShape(proc, pid);
    LayoutAssoc(proc, pid, rest);
    assert rest[0] == w[0];
    LeadNonSpaceOf(run, rest);
    assert forall x :: 0 <= x < |run| ==> (run + rest)[x] == run[x];
  }

  lemma LayoutAssoc(proc: string, pid: string, rest: string)
    ensures proc + ("[" + (pid + ("]:" + rest))) == (proc + ("[" + (pid + "]:"))) + rest
  {
  }

  lemma ExactProc(dt: string, host: string, proc: string, pid: string, w: string, msg: string, nl: bool)
    requires proc != [] && NonSpaces(proc) && TailShape(pid, w, msg) && w != []
    ensures MatchProc(dt, host, proc + TailLayout(pid, w, msg, nl)).Some?
    ensures MatchProc(dt, host, proc + TailLayout(pid, w, msg, nl)).value.f == Fields(dt, host, proc, pid, msg)
  {
    var t := TailLayout(pid, w, msg, nl);
    ProcRun(proc, pid, w, msg, nl);
    ExactTail(dt, host, proc, pid, w, msg, nl);
    ProcPick(dt, host, proc, t, |pid| + 3);
  }

  /** MatchProc picks group 3 as `proc` when the run of non-whitespace ends
      `k` characters into the tail and no other `[` qualifies. */
  lemma ProcPick(dt: string, host: string, proc: string, t: string, k: nat)
    requires proc != [] && 1 < k <= |t| && ProcOk(t) && LeadNonSpace(proc + t) == |proc| + k
    requires forall x :: |proc| < x < |proc| + k ==> (proc + t)[x] != '['
    ensures MatchProc(dt, host, proc + t) == Some(MatchTail(dt, host, proc, t))
  {
    var r2 := proc + t;
    assert r2[|proc|..] == t;
    assert r2[..|proc|] == proc;
    ProcSearchFinds(r2, |proc| + k - 1, |proc|);
  }

  lemma ExactHost(dt: string, host: string, r2: string)
    requires host != [] && NonSpaces(host)
    ensures MatchHost(dt, " " + (host + (" " + r2))) == MatchProc(dt, host, r2)
  {
    var r0 := " " + (host + (" " + r2));
    assert r0[1..] == host + (" " + r2);
    LeadNonSpaceOf(host, " " + r2);
    assert (host + (" " + r2))[|host|..] == " " + r2;
    assert (host + (" " + r2))[..|host|] == host;
    assert (" " + r2)[1..] == r2;
  }

  /** Completeness and exactness: a line laid out from well-formed groups,
      with some whitespace after the colon and a message that does not start
      with whitespace, yields exactly those groups. */
  lemma MatchExact(f: Fields, w: string, nl: bool)
    requires WellFormed(f) && Spaces(w) && w != []
    requires f.message == [] || !IsSpace(f.message[0])
    ensures Match(Layout(f, w, nl)) == Some(f)
  {
    var t := TailLayout(f.procId, w, f.message, nl);
    var r0 := " " + (f.hostname + (" " + (f.procName + t)));
    var s := Layout(f, w, nl);
    assert s == f.datetime + r0;
    StampEndOf(f.datetime, r0);
    assert s[..|f.datetime|] == f.datetime;
    assert s[|f.datetime|..] == r0;
    ExactHost(f.datetime, f.hostname, f.procName + t);
    ExactProc(f.datetime, f.hostname, f.procName, f.procId, w, f.message, nl);
  }

  /** The example line from the comment in `Syslog.parse`, with a message,
      written as the pieces the expression splits it into. */
  lemma ExampleLine()
    ensures Parse("Nov 21 06:00:24" + (" " + ("ip-172-31-7-118" + (" " + ("sshd" + ("[" + ("23511" + ("]:" + (" " + "test message")))))))))
         == Ok(Fields("Nov 21 06:00:24", "ip-172-31-7-118", "sshd", "23511", "test message"))
  {
    var f := Fields("Nov 21 06:00:24", "ip-172-31-7-118", "sshd", "23511", "test message");
    ExampleShape(f);
    MatchExact(f, " ", false);
    assert f.message + Newline(false) == f.message;
  }

  lemma ExampleShape(f: Fields)
    requires f == Fields("Nov 21 06:00:24", "ip-172-31-7-118", "sshd", "23511", "test message")
    ensures WellFormed(f) && !IsSpace(f.message[0])
  {
    ExampleStamp();
    ExampleWords();
    ExampleMessage();
  }

  lemma ExampleStamp()
    ensures IsStamp("Nov 21 06:00:24")
  {
    var d := "Nov 21 06:00:24";
    assert ClockAt(d, |d| - 8);
  }

  lemma ExampleWords()
    ensures "ip-172-31-7-118" != [] && NonSpaces("ip-172-31-7-118")
    ensures "sshd" != [] && NonSpaces("sshd") && "23511" != [] && Digits("23511")
  {
  }

  lemma ExampleMessage()
    ensures NoNewline("test message") && !IsSpace("test message"[0])
  {
  }
}
