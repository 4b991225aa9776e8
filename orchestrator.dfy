/** `slips.main`: choosing the stream for an object from the bucket
    mapping, and running every handler over every event's object. */
module Orchestrator {
  import opened Values
  import opened Text
  import opened Parsers
  import opened Pipeline
  import ReadOnly

  /** One entry of a bucket's format list in `BUCKET_MAPPING`. */
  datatype Rule = Rule(prefix: string, format: seq<string>)

  /** The object an event names. */
  datatype Event = Event(bucket: string, key: string)

  /** The rules whose prefix the key starts with, in their order. */
  function Matching(rules: seq<Rule>, key: string): (ms: seq<Rule>)
    ensures forall j :: 0 <= j < |ms| ==> ms[j] in rules && StartsWith(key, ms[j].prefix)
    ensures forall r :: r in rules && StartsWith(key, r.prefix) ==> r in ms
    decreases |rules|
  {
    if rules == [] then []
    else
      var rest := Matching(rules[..|rules| - 1], key);
      var last := rules[|rules| - 1];
      assert forall r :: r in rules ==> r in rules[..|rules| - 1] || r == last;
      if StartsWith(key, last.prefix) then rest + [last] else rest
  }

  /** `sorted(rules, key=len(prefix), reverse=True)`: longest prefix first,
      rules of equal length in their original order. */
  function SortByLength(rules: seq<Rule>): (s: seq<Rule>)
    ensures |s| == |rules|
    decreases |rules|
  {
    if rules == [] then [] else Insert(rules[0], SortByLength(rules[1..]))
  }

  /** Place `r` before the first rule whose prefix is not longer than its own. */
  function Insert(r: Rule, s: seq<Rule>): (t: seq<Rule>)
    ensures |t| == |s| + 1
    decreases |s|
  {
    if s == [] || |s[0].prefix| <= |r.prefix| then [r] + s else [s[0]] + Insert(r, s[1..])
  }

  predicate SortedByLength(s: seq<Rule>) {
    forall i, j :: 0 <= i < j < |s| ==> |s[j].prefix| <= |s[i].prefix|
  }

  /** `create_parser` up to the call of `Stream`: the rule it builds the
      stream from. */
  function Select(mapping: map<string, seq<Rule>>, bucket: string, key: string): (r: Result<Rule>)
    ensures (bucket !in mapping || mapping[bucket] == []) ==> r == Err(FormatError("No format config for bucket"))
    ensures bucket in mapping && mapping[bucket] != [] && Matching(mapping[bucket], key) == [] ==>
      r == Err(FormatError("No format config for object"))
    ensures r.Err? ==> r.error.FormatError?
    ensures r.Ok? ==> r.value in mapping[bucket] && StartsWith(key, r.value.prefix)
  {
    if bucket !in mapping || mapping[bucket] == [] then Err(FormatError("No format config for bucket"))
    else
      var ms := Matching(mapping[bucket], key);
      var configs := SortByLength(ms);
      if configs == [] then Err(FormatError("No format config for object"))
      else
        SortPermutes(ms);
        assert configs[0] in multiset(configs);
        Ok(configs[0])
  }

  /** `create_parser`. */
  method CreateParser(mapping: map<string, seq<Rule>>, bucket: string, key: string, table: Table) returns (r: Result<Stream>)
    ensures r.Ok? <==> Select(mapping, bucket, key).Ok? && Resolve(Select(mapping, bucket, key).value.format).Ok?
    ensures r.Err? && Select(mapping, bucket, key).Err? ==> r.error == Select(mapping, bucket, key).error
    ensures r.Err? && Select(mapping, bucket, key).Ok? ==> r.error == Resolve(Select(mapping, bucket, key).value.format).error
    ensures r.Ok? ==> fresh(r.value) && fresh(r.value.callback) && r.value.Valid() && r.value.callback.func == null
    ensures r.Ok? ==> r.value.kinds == Resolve(Select(mapping, bucket, key).value.format).value
    ensures r.Ok? ==> r.value.recvs == Receivers(table, r.value.kinds)
  {
    var rule := Select(mapping, bucket, key);
    if rule.Err? {
      return Err(rule.error);
    }
    r := NewStream(rule.value.format, table);
  }

  /** What one event does to a handler: the records it receives and the
      exception that ends `main`, if any. */
  ghost function EventOutcome(mapping: map<string, seq<Rule>>, table: Table, ev: Event, objects: (string, string) -> Bytes, env: Env): (e: Emitted)
    ensures Select(mapping, ev.bucket, ev.key).Err? ==> e == Emitted([], Some(Select(mapping, ev.bucket, ev.key).error))
    ensures e.outs != [] ==> Select(mapping, ev.bucket, ev.key).Ok? && Resolve(Select(mapping, ev.bucket, ev.key).value.format).Ok?
  {
    match Select(mapping, ev.bucket, ev.key)
    case Err(e) => Emitted([], Some(e))
    case Ok(rule) =>
      match Resolve(rule.format)
      case Err(e) => Emitted([], Some(e))
      case Ok(ks) => Outcome(ks[0], Receivers(table, ks)[1..], objects(ev.bucket, ev.key), env)
  }

  /** The events one after another, up to the first exception. */
  ghost function EventsOutcome(mapping: map<string, seq<Rule>>, table: Table, evs: seq<Event>, objects: (string, string) -> Bytes, env: Env): Emitted
    decreases |evs|
  {
    if evs == [] then Emitted([], None)
    else
      var p := EventsOutcome(mapping, table, evs[..|evs| - 1], objects, env);
      if p.fault.Some? then p
      else
        var q := EventOutcome(mapping, table, evs[|evs| - 1], objects, env);
        Emitted(p.outs + q.outs, q.fault)
  }

  /** One iteration of the inner loop of `main`: a stream is made for the
      event's object and read into the handler. */
  method ReadEvent(mapping: map<string, seq<Rule>>, table: Table, h: ReadOnly.MyTest, ev: Event, objects: (string, string) -> Bytes, env: Env)
    returns (fault: Option<Error>)
    requires h.Valid()
    modifies h
    ensures h.Valid() && fault == EventOutcome(mapping, table, ev, objects, env).fault
    ensures h.results == AddTags(old(h.results), EventOutcome(mapping, table, ev, objects, env).outs)
  {
    var stream := CreateParser(mapping, ev.bucket, ev.key, table);
    if stream.Err? {
      return Some(stream.error);
    }
    fault := stream.value.Read(objects(ev.bucket, ev.key), h, env);
  }

  /** The inner loop of `main`, over all events: it ends at the first
      exception. */
  method ReadEvents(mapping: map<string, seq<Rule>>, table: Table, h: ReadOnly.MyTest, evs: seq<Event>, objects: (string, string) -> Bytes, env: Env)
    returns (fault: Option<Error>)
    requires h.Valid()
    modifies h
    ensures h.Valid() && fault == EventsOutcome(mapping, table, evs, objects, env).fault
    ensures h.results == AddTags(old(h.results), EventsOutcome(mapping, table, evs, objects, env).outs)
  {
    var j := 0;
    while j < |evs|
      invariant j <= |evs| && h.Valid()
      invariant EventsOutcome(mapping, table, evs[..j], objects, env).fault.None?
      invariant h.results == AddTags(old(h.results), EventsOutcome(mapping, table, evs[..j], objects, env).outs)
    {
      var f := ReadNext(mapping, table, h, evs, j, objects, env, old(h.results));
      if f.Some? {
        return f;
      }
      j := j + 1;
    }
    assert evs[..j] == evs;
    fault := None;
  }

  /** One turn of the loop in `ReadEvents`: the handler has seen the first
      `j` events without an exception and now reads event `j`. */
  method ReadNext(mapping: map<string, seq<Rule>>, table: Table, h: ReadOnly.MyTest, evs: seq<Event>, j: nat, objects: (string, string) -> Bytes, env: Env,
                  ghost before: map<Option<string>, nat>)
    returns (f: Option<Error>)
    requires j < |evs| && h.Valid()
    requires EventsOutcome(mapping, table, evs[..j], objects, env).fault.None?
    requires h.results == AddTags(before, EventsOutcome(mapping, table, evs[..j], objects, env).outs)
    modifies h
    ensures h.Valid() && f == EventsOutcome(mapping, table, evs[..j + 1], objects, env).fault
    ensures h.results == AddTags(before, EventsOutcome(mapping, table, evs[..j + 1], objects, env).outs)
    ensures f.Some? ==> EventsOutcome(mapping, table, evs, objects, env) == EventsOutcome(mapping, table, evs[..j + 1], objects, env)
  {
    ghost var p := EventsOutcome(mapping, table, evs[..j], objects, env);
    ghost var q := EventOutcome(mapping, table, evs[j], objects, env);
    EventsStep(mapping, table, evs, j, objects, env);
    f := ReadEvent(mapping, table, h, evs[j], objects, env);
    AddTagsAppend(before, p.outs, q.outs);
    if f.Some? {
      EventsStop(mapping, table, evs, j + 1, objects, env);
    }
  }

  /** `json.loads(handler_args)` as `main` writes it: the loop reassigns
      `handler_args`, so every handler after the first decodes a value that
      is no longer a string. The arguments each handler's `setup` receives. */
  function ReparsedArgs(v: Value, n: nat, env: Env): (r: Result<seq<Value>>)
    ensures r.Ok? ==> |r.value| == n
    ensures n > 0 && !v.Str? ==> r == Err(TypeMismatch("loads"))
    ensures n > 0 && r.Ok? ==> v.Str? && env.loads(v.s) == Some(r.value[0])
    decreases n
  {
    if n == 0 then Ok([])
    else
      var s :- AsString(v, "loads");
      var w :- Loads(env, s);
      var rest :- ReparsedArgs(w, n - 1, env);
      Ok([w] + rest)
  }

  /** The intended reading: every handler is set up with the decoded text. */
  function HandlerArgs(text: string, n: nat, env: Env): (r: Result<seq<Value>>)
    ensures n > 0 ==> (r.Ok? <==> env.loads(text).Some?)
    ensures r.Ok? ==> |r.value| == n && forall j :: 0 <= j < n ==> r.value[j] == env.loads(text).value
  {
    if n == 0 then Ok([])
    else
      var v :- Loads(env, text);
      Ok(seq(n, j => v))
  }

  /** `args.get('HANDLER_ARGS') or '{}'`. */
  function ArgsText(arg: Option<string>): (t: string)
    ensures arg.Some? && arg.value != [] ==> t == arg.value
    ensures arg.None? || arg.value == [] ==> t == "{}"
  {
    if arg.Some? && arg.value != [] then arg.value else "{}"
  }

  /** With two handlers or more, `main` as written raises as soon as the
      second handler's turn comes, unless the arguments decode to a JSON
      string. */
  lemma ReparseFails(text: string, n: nat, env: Env)
    requires n >= 2 && env.loads(text).Some? && !env.loads(text).value.Str?
    ensures ReparsedArgs(Str(text), n, env) == Err(TypeMismatch("loads"))
  {
  }

  /** With one handler, the written and the intended readings agree. */
  lemma OneHandlerAgrees(text: string, env: Env)
    ensures ReparsedArgs(Str(text), 1, env) == HandlerArgs(text, 1, env)
  {
    match env.loads(text)
    case None =>
    case Some(v) =>
      assert ReparsedArgs(v, 0, env) == Ok([]);
      assert seq(1, j => v) == [v] + [];
  }

  /** The body of the handler loop of `main` for one handler, given the
      text of its arguments: `setup`, every event, then `result()`. */
  method RunHandler(mapping: map<string, seq<Rule>>, table: Table, text: string, h: ReadOnly.MyTest,
                    evs: seq<Event>, objects: (string, string) -> Bytes, env: Env)
    returns (r: Result<map<Option<string>, nat>>)
    requires h.Valid()
    modifies h
    ensures r.Ok? <==> env.loads(text).Some? && EventsOutcome(mapping, table, evs, objects, env).fault.None?
    ensures r.Err? && env.loads(text).None? ==> r.error == JsonDecodeError
    ensures r.Err? && env.loads(text).Some? ==> EventsOutcome(mapping, table, evs, objects, env).fault == Some(r.error)
    ensures r.Ok? ==> r.value == AddTags(old(h.results), EventsOutcome(mapping, table, evs, objects, env).outs)
  {
    var args := Loads(env, text);
    if args.Err? {
      return Err(args.error);
    }
    h.Setup(args.value);
    var f := ReadEvents(mapping, table, h, evs, objects, env);
    if f.Some? {
      return Err(f.value);
    }
    var res := h.Result();
    r := Ok(res);
  }

  /** `main`, with handler arguments decoded for every handler from the
      original text: each handler is set up, reads every event's object and
      reports its counts under its name. The handlers and their names are
      what `load_handlers` would find; `table` is the class table the
      streams are built from, which `Run` fixes. */
  method RunWith(mapping: map<string, seq<Rule>>, table: Table, handlerArgs: Option<string>, names: seq<string>, handlers: seq<ReadOnly.MyTest>,
             evs: seq<Event>, objects: (string, string) -> Bytes, env: Env)
    returns (r: Result<map<string, map<Option<string>, nat>>>)
    requires |names| == |handlers|
    requires forall i, j :: 0 <= i < j < |handlers| ==> handlers[i] != handlers[j] && names[i] != names[j]
    requires forall i :: 0 <= i < |handlers| ==> handlers[i].Valid()
    modifies handlers
    ensures r.Ok? ==> r.value.Keys == set i | 0 <= i < |names| :: names[i]
    ensures r.Ok? ==> forall i :: 0 <= i < |handlers| ==>
      r.value[names[i]] == AddTags(old(handlers[i].results), EventsOutcome(mapping, table, evs, objects, env).outs)
    ensures |handlers| > 0 ==> (r.Ok? <==> HandlerArgs(ArgsText(handlerArgs), |handlers|, env).Ok? && EventsOutcome(mapping, table, evs, objects, env).fault.None?)
    ensures r.Err? && HandlerArgs(ArgsText(handlerArgs), |handlers|, env).Err? ==> r.error == JsonDecodeError
    ensures r.Err? && HandlerArgs(ArgsText(handlerArgs), |handlers|, env).Ok? ==> EventsOutcome(mapping, table, evs, objects, env).fault == Some(r.error)
  {
    var text := ArgsText(handlerArgs);
    ghost var e := EventsOutcome(mapping, table, evs, objects, env);
    ghost var initial := seq(|handlers|, k requires 0 <= k < |handlers| reads handlers => handlers[k].results);
    var results: map<string, map<Option<string>, nat>> := map[];
    var i := 0;
    while i < |handlers|
      invariant i <= |handlers|
      invariant Reported(results, names, initial, e.outs, i) && Pending(handlers, initial, i)
      invariant i > 0 ==> env.loads(text).Some? && e.fault.None?
    {
      var res := RunNext(mapping, table, text, names, handlers, i, evs, objects, env, results, initial);
      if res.Err? {
        return Err(res.error);
      }
      results := res.value;
      i := i + 1;
    }
    r := Ok(results);
  }

  /** The handlers from the `i`-th on have not run yet. */
  ghost predicate Pending(handlers: seq<ReadOnly.MyTest>, initial: seq<map<Option<string>, nat>>, i: nat)
    reads handlers
  {
    |initial| == |handlers| && forall k :: i <= k < |handlers| ==> handlers[k].Valid() && handlers[k].results == initial[k]
  }

  /** One turn of the handler loop of `main`: handler `i` runs over every
      event and its counts join those of the handlers before it. */
  method RunNext(mapping: map<string, seq<Rule>>, table: Table, text: string, names: seq<string>, handlers: seq<ReadOnly.MyTest>, i: nat,
                 evs: seq<Event>, objects: (string, string) -> Bytes, env: Env,
                 results: map<string, map<Option<string>, nat>>, ghost initial: seq<map<Option<string>, nat>>)
    returns (r: Result<map<string, map<Option<string>, nat>>>)
    requires i < |handlers| == |names|
    requires forall k :: 0 <= k < i ==> names[k] != names[i]
    requires forall k :: i < k < |handlers| ==> handlers[k] != handlers[i]
    requires Reported(results, names, initial, EventsOutcome(mapping, table, evs, objects, env).outs, i) && Pending(handlers, initial, i)
    modifies handlers[i]
    ensures r.Ok? ==> env.loads(text).Some? && EventsOutcome(mapping, table, evs, objects, env).fault.None?
    ensures r.Ok? ==> Reported(r.value, names, initial, EventsOutcome(mapping, table, evs, objects, env).outs, i + 1) && Pending(handlers, initial, i + 1)
    ensures r.Err? && env.loads(text).None? ==> r.error == JsonDecodeError
    ensures r.Err? && env.loads(text).Some? ==> EventsOutcome(mapping, table, evs, objects, env).fault == Some(r.error)
  {
    var res := RunHandler(mapping, table, text, handlers[i], evs, objects, env);
    if res.Err? {
      return Err(res.error);
    }
    ReportedStep(results, names, initial, EventsOutcome(mapping, table, evs, objects, env).outs, i, res.value);
    r := Ok(results[names[i] := res.value]);
  }

  /** The counts of the first `i` handlers are in, under their names. */
  ghost predicate Reported(results: map<string, map<Option<string>, nat>>, names: seq<string>,
                           initial: seq<map<Option<string>, nat>>, outs: seq<Emission>, i: nat)
  {
    i <= |names| && i <= |initial|
    && results.Keys == (set k | 0 <= k < i :: names[k])
    && forall k :: 0 <= k < i ==> results[names[k]] == AddTags(initial[k], outs)
  }

  lemma ReportedStep(results: map<string, map<Option<string>, nat>>, names: seq<string>,
                     initial: seq<map<Option<string>, nat>>, outs: seq<Emission>, i: nat, counts: map<Option<string>, nat>)
    requires Reported(results, names, initial, outs, i) && i < |names| && i < |initial|
    requires forall k :: 0 <= k < i ==> names[k] != names[i]
    requires counts == AddTags(initial[i], outs)
    ensures Reported(results[names[i] := counts], names, initial, outs, i + 1)
  {
    var r := results[names[i] := counts];
    assert r.Keys == (set k | 0 <= k < i + 1 :: names[k]);
    forall k | 0 <= k < i + 1
      ensures r[names[k]] == AddTags(initial[k], outs)
    {
      if k < i {
        assert names[k] != names[i];
      }
    }
  }

  /** `main` over the stage classes of this system. */
  method Run(mapping: map<string, seq<Rule>>, handlerArgs: Option<string>, names: seq<string>, handlers: seq<ReadOnly.MyTest>,
             evs: seq<Event>, objects: (string, string) -> Bytes, env: Env)
    returns (r: Result<map<string, map<Option<string>, nat>>>)
    requires |names| == |handlers|
    requires forall i, j :: 0 <= i < j < |handlers| ==> handlers[i] != handlers[j] && names[i] != names[j]
    requires forall i :: 0 <= i < |handlers| ==> handlers[i].Valid()
    modifies handlers
    ensures r.Ok? ==> r.value.Keys == set i | 0 <= i < |names| :: names[i]
    ensures r.Ok? ==> forall i :: 0 <= i < |handlers| ==>
      r.value[names[i]] == AddTags(old(handlers[i].results), EventsOutcome(mapping, ReceiverOf, evs, objects, env).outs)
    ensures |handlers| > 0 ==> (r.Ok? <==> HandlerArgs(ArgsText(handlerArgs), |handlers|, env).Ok? && EventsOutcome(mapping, ReceiverOf, evs, objects, env).fault.None?)
  {
    r := RunWith(mapping, ReceiverOf, handlerArgs, names, handlers, evs, objects, env);
  }

  // ---------------------------------------------------------------------
  // Properties

  lemma EventsStep(mapping: map<string, seq<Rule>>, table: Table, evs: seq<Event>, j: nat, objects: (string, string) -> Bytes, env: Env)
    requires j < |evs| && EventsOutcome(mapping, table, evs[..j], objects, env).fault.None?
    ensures EventsOutcome(mapping, table, evs[..j + 1], objects, env) ==
      Emitted(EventsOutcome(mapping, table, evs[..j], objects, env).outs + EventOutcome(mapping, table, evs[j], objects, env).outs,
              EventOutcome(mapping, table, evs[j], objects, env).fault)
  {
    assert evs[..j + 1][..j] == evs[..j];
  }

  lemma EventsStop(mapping: map<string, seq<Rule>>, table: Table, evs: seq<Event>, n: nat, objects: (string, string) -> Bytes, env: Env)
    requires n <= |evs| && EventsOutcome(mapping, table, evs[..n], objects, env).fault.Some?
    ensures EventsOutcome(mapping, table, evs, objects, env) == EventsOutcome(mapping, table, evs[..n], objects, env)
    decreases |evs| - n
  {
    if n < |evs| {
      assert evs[..n + 1][..n] == evs[..n];
      EventsStop(mapping, table, evs, n + 1, objects, env);
    } else {
      assert evs[..n] == evs;
    }
  }

  /** The insertion adds `r` and keeps every rule of `s`. */
  lemma {:induction false} InsertPermutes(r: Rule, s: seq<Rule>)
    ensures multiset(Insert(r, s)) == multiset(s) + multiset{r}
    decreases |s|
  {
    if !(s == [] || |s[0].prefix| <= |r.prefix|) {
      InsertPermutes(r, s[1..]);
      assert s == [s[0]] + s[1..];
    }
  }

  /** Sorting reorders the rules and neither drops nor adds one. */
  lemma {:induction false} SortPermutes(rules: seq<Rule>)
    ensures multiset(SortByLength(rules)) == multiset(rules)
    decreases |rules|
  {
    if rules != [] {
      SortPermutes(rules[1..]);
      InsertPermutes(rules[0], SortByLength(rules[1..]));
      assert rules == [rules[0]] + rules[1..];
    }
  }

  /** The insertion keeps the order by length. */
  lemma {:induction false} InsertSorted(r: Rule, s: seq<Rule>)
    requires SortedByLength(s)
    ensures SortedByLength(Insert(r, s))
    decreases |s|
  {
    if !(s == [] || |s[0].prefix| <= |r.prefix|) {
      InsertSorted(r, s[1..]);
      var t := Insert(r, s[1..]);
      InsertPermutes(r, s[1..]);
      forall j | 0 <= j < |t| ensures |t[j].prefix| <= |s[0].prefix| {
        assert t[j] in multiset(s[1..]) + multiset{r};
        if t[j] != r {
          assert t[j] in s[1..];
        }
      }
      ConsSorted(s[0], t);
    }
  }

  /** A rule at least as long as all of a sorted list can go before it. */
  lemma ConsSorted(x: Rule, t: seq<Rule>)
    requires SortedByLength(t) && forall j :: 0 <= j < |t| ==> |t[j].prefix| <= |x.prefix|
    ensures SortedByLength([x] + t)
  {
    var u := [x] + t;
    forall i, j | 0 <= i < j < |u| ensures |u[j].prefix| <= |u[i].prefix| {
      assert u[j] == t[j - 1];
      if i > 0 {
        assert u[i] == t[i - 1];
      }
    }
  }

  lemma {:induction false} SortSorted(rules: seq<Rule>)
    ensures SortedByLength(SortByLength(rules))
    decreases |rules|
  {
    if rules != [] {
      SortSorted(rules[1..]);
      InsertSorted(rules[0], SortByLength(rules[1..]));
    }
  }

  /** The first rule after sorting is the first of the longest prefixes. */
  lemma {:induction false} SortHead(rules: seq<Rule>) returns (k: nat)
    requires rules != []
    ensures k < |rules| && SortByLength(rules)[0] == rules[k]
    ensures forall j :: 0 <= j < |rules| ==> |rules[j].prefix| <= |rules[k].prefix|
    ensures forall j :: 0 <= j < k ==> |rules[j].prefix| < |rules[k].prefix|
    decreases |rules|
  {
    if |rules| == 1 {
      k := 0;
    } else {
      var k' := SortHead(rules[1..]);
      var s := SortByLength(rules[1..]);
      assert SortByLength(rules) == Insert(rules[0], s);
      InsertHead(rules[0], s);
      if |s[0].prefix| <= |rules[0].prefix| {
        k := 0;
      } else {
        k := k' + 1;
        assert rules[k] == rules[1..][k'];
      }
      TailIndex(rules);
    }
  }

  /** What the insertion puts first. */
  lemma InsertHead(r: Rule, s: seq<Rule>)
    ensures Insert(r, s)[0] == if s == [] || |s[0].prefix| <= |r.prefix| then r else s[0]
  {
  }

  /** Every rule after the first is a rule of the tail. */
  lemma TailIndex(rules: seq<Rule>)
    requires rules != []
    ensures forall j :: 0 < j < |rules| ==> rules[j] == rules[1..][j - 1]
  {
  }

  /** `create_parser` uses the rule with the longest matching prefix, the
      first one listed when several are equally long. */
  lemma SelectLongest(mapping: map<string, seq<Rule>>, bucket: string, key: string) returns (k: nat)
    requires Select(mapping, bucket, key).Ok?
    ensures var ms := Matching(mapping[bucket], key);
      k < |ms| && ms[k] == Select(mapping, bucket, key).value
      && (forall j :: 0 <= j < |ms| ==> |ms[j].prefix| <= |ms[k].prefix|)
      && (forall j :: 0 <= j < k ==> |ms[j].prefix| < |ms[k].prefix|)
  {
    k := SortHead(Matching(mapping[bucket], key));
  }
}
