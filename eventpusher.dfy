/** `slips.event_pusher`: S3 object events are routed by a list of
    policies to the fast or the slow Kinesis stream, or dropped, and each
    stream receives its records in one batch. */
module EventPusher {
  import opened Values
  import opened Text
  import opened Utils

  /** One routing policy. `bucket` and `prefix` are optional conditions;
      `dest` names a route. */
  datatype Policy = Policy(bucket: Option<string>, prefix: Option<string>, dest: Option<string>)

  /** The route map of `main`: the two Kinesis stream names read from the
      environment, which may be unset, and `drop`. */
  function Routes(fast: Option<string>, slow: Option<string>): (routes: map<string, Option<string>>)
    ensures routes.Keys == {"fast", "slow", "drop"}
    ensures routes["fast"] == fast && routes["slow"] == slow && routes["drop"] == None
  {
    map["fast" := fast, "slow" := slow, "drop" := None]
  }

  /** Whether a policy's conditions hold for an event. A condition absent
      from the policy holds for every event. */
  function Matches(ev: S3Record, p: Policy): (r: Result<bool>)
    ensures p.bucket.None? && p.prefix.None? ==> r == Ok(true)
    ensures r == Ok(true) ==> p.bucket.None? || ("bucket_name" in ev && ev["bucket_name"] == Str(p.bucket.value))
    ensures r == Ok(true) ==> p.prefix.None? || ("object_key" in ev && ev["object_key"].Str? && StartsWith(ev["object_key"].s, p.prefix.value))
    ensures r == Ok(false) ==> (p.bucket.Some? && "bucket_name" in ev && ev["bucket_name"] != Str(p.bucket.value))
                               || (p.prefix.Some? && "object_key" in ev && ev["object_key"].Str? && !StartsWith(ev["object_key"].s, p.prefix.value))
  {
    if p.bucket.Some? && "bucket_name" !in ev then Err(KeyError("bucket_name"))
    else if p.bucket.Some? && ev["bucket_name"] != Str(p.bucket.value) then Ok(false)
    else if p.prefix.Some? && "object_key" !in ev then Err(KeyError("object_key"))
    else if p.prefix.Some? && !ev["object_key"].Str? then Err(TypeMismatch("startswith"))
    else if p.prefix.Some? && !StartsWith(ev["object_key"].s, p.prefix.value) then Ok(false)
    else Ok(true)
  }

  /** `routing(ev, policies, routes)`: the route of the first policy whose
      conditions hold; that policy's `dest` must be a route. */
  function Routing(ev: S3Record, policies: seq<Policy>, routes: map<string, Option<string>>): (r: Result<Option<string>>)
    ensures r.Ok? ==> exists d :: d in routes && r.value == routes[d]
    ensures policies == [] ==> r == Err(Failure("No route"))
    ensures r.Ok? ==> Chosen(ev, policies, routes, r.value)
    decreases |policies|
  {
    if policies == [] then Err(Failure("No route"))
    else
      var p := policies[0];
      var m :- Matches(ev, p);
      if !m then Routing(ev, policies[1..], routes)
      else if p.dest.None? then Err(KeyError("dest"))
      else if p.dest.value !in routes then Err(Failure("No destination"))
      else Ok(routes[p.dest.value])
  }

  /** `route` is the route of some policy whose conditions hold on `ev`. */
  predicate Chosen(ev: S3Record, policies: seq<Policy>, routes: map<string, Option<string>>, route: Option<string>) {
    exists j :: 0 <= j < |policies| && Matches(ev, policies[j]) == Ok(true)
                && policies[j].dest.Some? && policies[j].dest.value in routes
                && route == routes[policies[j].dest.value]
  }

  /** A destination `main` queues to: a route that is set and not empty
      (`if not dest` drops the event otherwise). */
  predicate Queued(dest: Option<string>) {
    dest.Some? && dest.value != []
  }

  /** `ev['dest_stream'] = dest`. */
  function Tagged(ev: S3Record, dest: string): (r: S3Record)
    ensures r.Keys == ev.Keys + {"dest_stream"} && r["dest_stream"] == Str(dest)
  {
    ev["dest_stream" := Str(dest)]
  }

  /** The routes of the events, in order, up to the first that raises. */
  function Dests(evs: seq<S3Record>, policies: seq<Policy>, routes: map<string, Option<string>>): (r: Result<seq<Option<string>>>)
    ensures r.Ok? <==> forall j :: 0 <= j < |evs| ==> Routing(evs[j], policies, routes).Ok?
    ensures r.Ok? ==> |r.value| == |evs| && forall j :: 0 <= j < |evs| ==> r.value[j] == Routing(evs[j], policies, routes).value
    decreases |evs|
  {
    if evs == [] then Ok([])
    else
      var init :- Dests(evs[..|evs| - 1], policies, routes);
      var d :- Routing(evs[|evs| - 1], policies, routes);
      assert forall j :: 0 <= j < |evs| - 1 ==> evs[..|evs| - 1][j] == evs[j];
      Ok(init + [d])
  }

  /** The queue of stream `d`: the events routed to it, tagged with it, in
      the order they arrived. */
  function QueueOf(evs: seq<S3Record>, dests: seq<Option<string>>, d: string): (q: seq<S3Record>)
    requires |dests| == |evs|
    ensures |q| <= |evs|
    ensures forall k :: 0 <= k < |q| ==> "dest_stream" in q[k] && q[k]["dest_stream"] == Str(d)
    decreases |evs|
  {
    if evs == [] then []
    else
      var n := |evs| - 1;
      var init := QueueOf(evs[..n], dests[..n], d);
      if Queued(dests[n]) && dests[n].value == d then init + [Tagged(evs[n], d)] else init
  }

  /** The streams that receive records. */
  function Streams(dests: seq<Option<string>>): set<string> {
    set j | 0 <= j < |dests| && Queued(dests[j]) :: dests[j].value
  }

  /** The queues after the events, built one event at a time. */
  function Batches(evs: seq<S3Record>, dests: seq<Option<string>>): map<string, seq<S3Record>>
    requires |dests| == |evs|
    decreases |evs|
  {
    if evs == [] then map[]
    else
      var n := |evs| - 1;
      var prev := Batches(evs[..n], dests[..n]);
      if !Queued(dests[n]) then prev
      else
        var d := dests[n].value;
        prev[d := (if d in prev then prev[d] else []) + [Tagged(evs[n], d)]]
  }

  /** One more event extends the queues by at most that event. */
  lemma BatchesStep(evs: seq<S3Record>, j: nat, dests: seq<Option<string>>, dest: Option<string>)
    requires j < |evs| && |dests| == j
    ensures var prev := Batches(evs[..j], dests);
      Batches(evs[..j + 1], dests + [dest]) ==
        if !Queued(dest) then prev
        else prev[dest.value := (if dest.value in prev then prev[dest.value] else []) + [Tagged(evs[j], dest.value)]]
  {
    assert evs[..j + 1][..j] == evs[..j] && (dests + [dest])[..j] == dests;
  }

  /** What `main` sends: the batch of records for each stream, and the
      result it returns, the number of records put to each stream. */
  datatype Sent = Sent(queues: map<string, seq<S3Record>>, counts: map<string, nat>)

  /** `main(args, event)` after the routing policy is decoded: the events
      `extract_s3_event` yields are routed as they arrive, an exception from
      either stops everything before any record is put, and then every
      non-empty queue is put to its stream. */
  method Push(policies: seq<Policy>, routes: map<string, Option<string>>, y: Yielded<S3Record>) returns (r: Result<Sent>)
    ensures Dests(y.items, policies, routes).Err? ==> r == Err(Dests(y.items, policies, routes).error)
    ensures Dests(y.items, policies, routes).Ok? && y.fault.Some? ==> r == Err(y.fault.value)
    ensures r.Ok? <==> Dests(y.items, policies, routes).Ok? && y.fault.None?
    ensures r.Ok? ==> var dests := Dests(y.items, policies, routes).value;
      r.value.queues.Keys == Streams(dests) && r.value.counts.Keys == Streams(dests)
      && (forall d :: d in Streams(dests) ==> r.value.queues[d] == QueueOf(y.items, dests, d))
      && (forall d :: d in Streams(dests) ==> r.value.counts[d] == |QueueOf(y.items, dests, d)|)
  {
    var queue := Enqueue(policies, routes, y.items);
    if queue.Err? {
      return Err(queue.error);
    }
    if y.fault.Some? {
      return Err(y.fault.value);
    }
    BatchesQueues(y.items, Dests(y.items, policies, routes).value);
    var counts := Tally(queue.value);
    r := Ok(Sent(queue.value, counts));
  }

  /** The first loop of `main`: each event is routed and, unless its route
      is unset or `drop`, appended to the queue of its stream. */
  method Enqueue(policies: seq<Policy>, routes: map<string, Option<string>>, evs: seq<S3Record>)
    returns (r: Result<map<string, seq<S3Record>>>)
    ensures r.Ok? <==> Dests(evs, policies, routes).Ok?
    ensures r.Err? ==> r.error == Dests(evs, policies, routes).error
    ensures r.Ok? ==> r.value == Batches(evs, Dests(evs, policies, routes).value)
  {
    var queue: map<string, seq<S3Record>> := map[];
    ghost var dests: seq<Option<string>> := [];
    var j := 0;
    while j < |evs|
      invariant j <= |evs| && Dests(evs[..j], policies, routes) == Ok(dests)
      invariant queue == Batches(evs[..j], dests)
    {
      var ev := evs[j];
      var dest := Routing(ev, policies, routes);
      DestsStep(evs, j, policies, routes);
      if dest.Err? {
        DestsStop(evs, j, policies, routes);
        return Err(dest.error);
      }
      BatchesStep(evs, j, dests, dest.value);
      if Queued(dest.value) {
        var d := dest.value.value;
        var q := if d in queue then queue[d] else [];
        queue := queue[d := q + [Tagged(ev, d)]];
      }
      dests := dests + [dest.value];
      j := j + 1;
    }
    assert evs[..j] == evs;
    r := Ok(queue);
  }

  /** `results[d]` on a `defaultdict(int)`. */
  function CountOf(counts: map<string, nat>, d: string): nat {
    if d in counts then counts[d] else 0
  }

  /** The second loop of `main`: every queue is put to its stream, which
      adds its length to the stream's count; the counts start at zero. */
  method Tally(queue: map<string, seq<S3Record>>) returns (counts: map<string, nat>)
    ensures counts.Keys == queue.Keys
    ensures forall d :: d in queue ==> counts[d] == |queue[d]|
  {
    counts := map[];
    var pending := queue.Keys;
    while pending != {}
      invariant pending <= queue.Keys && counts.Keys == queue.Keys - pending
      invariant forall d :: d in counts ==> counts[d] == |queue[d]|
      decreases |pending|
    {
      var d :| d in pending;
      counts := counts[d := CountOf(counts, d) + |queue[d]|];
      pending := pending - {d};
    }
  }

  // ---------------------------------------------------------------------
  // Properties

  lemma DestsStep(evs: seq<S3Record>, j: nat, policies: seq<Policy>, routes: map<string, Option<string>>)
    requires j < |evs| && Dests(evs[..j], policies, routes).Ok?
    ensures Dests(evs[..j + 1], policies, routes) ==
      match Routing(evs[j], policies, routes)
      case Ok(d) => Ok(Dests(evs[..j], policies, routes).value + [d])
      case Err(e) => Err(e)
  {
    assert evs[..j + 1][..j] == evs[..j];
  }

  lemma DestsStop(evs: seq<S3Record>, j: nat, policies: seq<Policy>, routes: map<string, Option<string>>)
    requires j < |evs| && Routing(evs[j], policies, routes).Err? && Dests(evs[..j], policies, routes).Ok?
    ensures Dests(evs, policies, routes).Err?
    ensures Dests(evs, policies, routes).error == Routing(evs[j], policies, routes).error
  {
    DestsFirstError(evs, j, policies, routes);
  }

  /** The error of a walk over the routes is that of the first event that
      raises. */
  lemma {:induction false} DestsFirstError(evs: seq<S3Record>, j: nat, policies: seq<Policy>, routes: map<string, Option<string>>)
    requires j < |evs| && Routing(evs[j], policies, routes).Err?
    requires forall k :: 0 <= k < j ==> Routing(evs[k], policies, routes).Ok?
    ensures Dests(evs, policies, routes) == Err(Routing(evs[j], policies, routes).error)
    decreases |evs|
  {
    var n := |evs| - 1;
    if j < n {
      assert forall k :: 0 <= k < j ==> evs[..n][k] == evs[k];
      DestsFirstError(evs[..n], j, policies, routes);
    } else {
      assert forall k :: 0 <= k < n ==> evs[..n][k] == evs[k];
    }
  }

  /** The queues built one event at a time are the queues of the streams
      that receive records. */
  lemma {:induction false} BatchesQueues(evs: seq<S3Record>, dests: seq<Option<string>>)
    requires |dests| == |evs|
    ensures Batches(evs, dests).Keys == Streams(dests)
    ensures forall d :: d in Streams(dests) ==> Batches(evs, dests)[d] == QueueOf(evs, dests, d)
    decreases |evs|
  {
    if evs != [] {
      var n := |evs| - 1;
      BatchesQueues(evs[..n], dests[..n]);
      assert dests == dests[..n] + [dests[n]];
      StreamsSnoc(dests[..n], dests[n]);
      forall d | d in Streams(dests) && d !in Streams(dests[..n]) ensures QueueOf(evs[..n], dests[..n], d) == [] {
        QueueEmpty(evs[..n], dests[..n], d);
      }
    }
  }

  /** A stream no event is routed to has an empty queue. */
  lemma {:induction false} QueueEmpty(evs: seq<S3Record>, dests: seq<Option<string>>, d: string)
    requires |dests| == |evs| && d !in Streams(dests)
    ensures QueueOf(evs, dests, d) == []
    decreases |evs|
  {
    if evs != [] {
      var n := |evs| - 1;
      assert dests == dests[..n] + [dests[n]];
      StreamsSnoc(dests[..n], dests[n]);
      QueueEmpty(evs[..n], dests[..n], d);
    }
  }

  lemma StreamsSnoc(dests: seq<Option<string>>, d: Option<string>)
    ensures Streams(dests + [d]) == Streams(dests) + (if Queued(d) then {d.value} else {})
  {
    var ds := dests + [d];
    assert forall j :: 0 <= j < |dests| ==> ds[j] == dests[j];
    assert ds[|dests|] == d;
  }

  /** The policy that decides: the first whose conditions hold, found
      after every policy before it was checked and did not hold. */
  lemma {:induction false} RoutingFirst(ev: S3Record, policies: seq<Policy>, routes: map<string, Option<string>>) returns (k: nat)
    requires Routing(ev, policies, routes).Ok?
    ensures k < |policies| && Matches(ev, policies[k]) == Ok(true)
    ensures forall j :: 0 <= j < k ==> Matches(ev, policies[j]) == Ok(false)
    ensures policies[k].dest.Some? && policies[k].dest.value in routes
    ensures Routing(ev, policies, routes).value == routes[policies[k].dest.value]
    decreases |policies|
  {
    if Matches(ev, policies[0]) == Ok(true) {
      k := 0;
    } else {
      var k' := RoutingFirst(ev, policies[1..], routes);
      k := k' + 1;
      forall j | 0 <= j < k ensures Matches(ev, policies[j]) == Ok(false) {
        if j > 0 { assert policies[j] == policies[1..][j - 1]; }
      }
    }
  }

  /** When no policy's conditions hold, the event has no route. */
  lemma {:induction false} NoRoute(ev: S3Record, policies: seq<Policy>, routes: map<string, Option<string>>)
    requires forall j :: 0 <= j < |policies| ==> Matches(ev, policies[j]) == Ok(false)
    ensures Routing(ev, policies, routes) == Err(Failure("No route"))
    decreases |policies|
  {
    if policies != [] {
      assert forall j :: 0 <= j < |policies| - 1 ==> policies[1..][j] == policies[j + 1];
      NoRoute(ev, policies[1..], routes);
    }
  }

  /** A matching policy whose `dest` is not a route raises at once, whatever
      the policies after it say. */
  lemma BadDest(ev: S3Record, p: Policy, rest: seq<Policy>, routes: map<string, Option<string>>)
    requires Matches(ev, p) == Ok(true) && p.dest.Some? && p.dest.value !in routes
    ensures Routing(ev, [p] + rest, routes) == Err(Failure("No destination"))
  {
  }

  /** An event whose first matching policy sends it to `drop` is routed
      to no stream and queued nowhere. */
  lemma {:induction false} DropSkipped(ev: S3Record, policies: seq<Policy>, fast: Option<string>, slow: Option<string>, k: nat)
    requires k < |policies| && Matches(ev, policies[k]) == Ok(true) && policies[k].dest == Some("drop")
    requires forall j :: 0 <= j < k ==> Matches(ev, policies[j]) == Ok(false)
    ensures Routing(ev, policies, Routes(fast, slow)) == Ok(None) && !Queued(None)
    decreases k
  {
    if k > 0 {
      assert forall j :: 0 <= j < k - 1 ==> policies[1..][j] == policies[j + 1];
      DropSkipped(ev, policies[1..], fast, slow, k - 1);
    }
  }

  /** Every record in a queue is a tagged event that was routed there. */
  lemma {:induction false} QueueMembers(evs: seq<S3Record>, dests: seq<Option<string>>, d: string)
    requires |dests| == |evs|
    ensures forall x :: x in QueueOf(evs, dests, d) ==> exists i :: 0 <= i < |evs| && dests[i] == Some(d) && x == Tagged(evs[i], d)
    decreases |evs|
  {
    if evs != [] {
      var n := |evs| - 1;
      QueueMembers(evs[..n], dests[..n], d);
      forall x | x in QueueOf(evs, dests, d) ensures exists i :: 0 <= i < |evs| && dests[i] == Some(d) && x == Tagged(evs[i], d) {
        if x in QueueOf(evs[..n], dests[..n], d) {
          var i :| 0 <= i < n && dests[..n][i] == Some(d) && x == Tagged(evs[..n][i], d);
          assert dests[i] == Some(d) && evs[i] == evs[..n][i];
        } else {
          assert x == Tagged(evs[n], d);
        }
      }
    }
  }
}
