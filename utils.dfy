/** `slips.utils`: unwrapping the AWS event a Lambda function receives into
    the records it carries, and defanging URLs for display.

    The extractors are generators. A walk is modelled by the records it
    yields before it stops and the exception it stops with, if any, so a
    consumer that acts on each record as it arrives can be described
    exactly. */
module Utils {
  import opened Values
  import opened Text
  import opened Parsers

  /** What a generator yields before it ends, and the exception it ends
      with, if any. */
  datatype Yielded<T> = Yielded(items: seq<T>, fault: Option<Error>)

  /** Join two walks: the second runs only if the first did not raise. */
  function Then<T>(a: Yielded<T>, b: Yielded<T>): Yielded<T> {
    if a.fault.Some? then a else Yielded(a.items + b.items, b.fault)
  }

  lemma ThenAssoc<T>(a: Yielded<T>, b: Yielded<T>, c: Yielded<T>)
    ensures Then(Then(a, b), c) == Then(a, Then(b, c))
  {
    if a.fault.None? && b.fault.None? {
      assert (a.items + b.items) + c.items == a.items + (b.items + c.items);
    }
  }

  /** A walk that raises before yielding anything. */
  function Raise<T>(e: Error): Yielded<T> {
    Yielded([], Some(e))
  }

  /** `for record in event.get('Records', [])`: `event` must be a dict; a
      list is walked item by item, an empty string or dict yields nothing,
      and the items of a non-empty string or dict are strings, whose missing
      `get` fails on the first one. */
  function Records(event: Value): (r: Result<seq<Value>>)
    ensures event.Obj? && "Records" !in event.fields ==> r == Ok([])
    ensures event.Obj? && "Records" in event.fields && event.fields["Records"].Arr? ==> r == Ok(event.fields["Records"].items)
    ensures !event.Obj? ==> r.Err?
  {
    var v :- GetOr(event, "Records", Arr([]));
    match v
    case Arr(items) => Ok(items)
    case Str(s) => if s == [] then Ok([]) else Err(TypeMismatch("get"))
    case Obj(m) => if m == map[] then Ok([]) else Err(TypeMismatch("get"))
    case _ => Err(TypeMismatch("iter"))
  }

  /** `record.get('eventSource') or record.get('EventSource')`. */
  function EventSource(record: Value): (r: Result<Value>)
    ensures record.Obj? <==> r.Ok?
    ensures record.Obj? && "eventSource" in record.fields && Truthy(record.fields["eventSource"]) ==>
      r.value == record.fields["eventSource"]
    ensures record.Obj? && "eventSource" !in record.fields && "EventSource" in record.fields ==>
      r.value == record.fields["EventSource"]
    ensures record.Obj? && Truthy(Lookup(record, "eventSource")) ==> r.value == Lookup(record, "eventSource")
    ensures record.Obj? && !Truthy(Lookup(record, "eventSource")) ==> r.value == Lookup(record, "EventSource")
  {
    var a :- Get(record, "eventSource");
    if Truthy(a) then Ok(a) else Get(record, "EventSource")
  }

  // ---------------------------------------------------------------------
  // to_s3_record

  /** A record in the form the rest of the system passes S3 events on. */
  type S3Record = map<string, Value>

  /** The eight fields of an S3 record. */
  const S3Fields: set<string> := {"aws_region", "event_time", "event_name", "bucket_name", "bucket_arn",
                                  "object_key", "object_size", "object_etag"}

  /** The sub-object `s3[a]` has field `b`. */
  predicate HasPath(s3: Value, a: string, b: string) {
    s3.Obj? && a in s3.fields && s3.fields[a].Obj? && b in s3.fields[a].fields
  }

  predicate HasRecordFields(record: Value) {
    record.Obj? && "awsRegion" in record.fields && "eventTime" in record.fields && "eventName" in record.fields
  }

  predicate HasS3Fields(s3: Value) {
    HasPath(s3, "bucket", "name") && HasPath(s3, "bucket", "arn")
    && HasPath(s3, "object", "key") && HasPath(s3, "object", "size") && HasPath(s3, "object", "eTag")
  }

  /** `to_s3_record(record, s3event)`: the fields are read in the order the
      dict literal lists them, and the first one missing raises. */
  function ToS3Record(record: Value, s3: Value): (r: Result<S3Record>)
    ensures r.Ok? <==> HasRecordFields(record) && HasS3Fields(s3)
    ensures r.Ok? ==> r.value.Keys == S3Fields
    ensures r.Ok? ==> (r.value["aws_region"] == record.fields["awsRegion"] && r.value["event_time"] == record.fields["eventTime"]
                       && r.value["event_name"] == record.fields["eventName"])
    ensures r.Ok? ==> r.value["bucket_name"] == s3.fields["bucket"].fields["name"] && r.value["bucket_arn"] == s3.fields["bucket"].fields["arn"]
    ensures r.Ok? ==> (r.value["object_key"] == s3.fields["object"].fields["key"] && r.value["object_size"] == s3.fields["object"].fields["size"]
                       && r.value["object_etag"] == s3.fields["object"].fields["eTag"])
    ensures record.Obj? && "awsRegion" !in record.fields ==> r == Err(KeyError("awsRegion"))
  {
    var region :- Item(record, "awsRegion");
    var time :- Item(record, "eventTime");
    var name :- Item(record, "eventName");
    var bucket :- Item(s3, "bucket");
    var bucketName :- Item(bucket, "name");
    var bucketArn :- Item(bucket, "arn");
    var obj :- Item(s3, "object");
    var key :- Item(obj, "key");
    var size :- Item(obj, "size");
    var etag :- Item(obj, "eTag");
    Ok(map["aws_region" := region, "event_time" := time, "event_name" := name, "bucket_name" := bucketName,
           "bucket_arn" := bucketArn, "object_key" := key, "object_size" := size, "object_etag" := etag])
  }

  // ---------------------------------------------------------------------
  // extract_s3_event

  /** `extract_s3_event(event)`. An SNS record carries another event as a
      JSON text and is expanded by a nested call; `depth` is how many
      nested calls the interpreter's recursion limit still allows. */
  function S3Events(event: Value, depth: nat, env: Env): (y: Yielded<S3Record>)
    ensures forall r :: r in y.items ==> r.Keys == S3Fields
    ensures Records(event).Err? ==> y == Raise(Records(event).error)
    ensures event.Obj? && "Records" !in event.fields ==> y == Yielded([], None)
    decreases depth, 1, 0
  {
    match Records(event)
    case Err(e) => Raise(e)
    case Ok(recs) => S3Records(recs, depth, env)
  }

  /** The loop of `extract_s3_event` over a list of records. */
  function S3Records(recs: seq<Value>, depth: nat, env: Env): (y: Yielded<S3Record>)
    ensures forall r :: r in y.items ==> r.Keys == S3Fields
    ensures recs == [] ==> y == Yielded([], None)
    decreases depth, 0, |recs|
  {
    if recs == [] then Yielded([], None)
    else Then(S3Record1(recs[0], depth, env), S3Records(recs[1..], depth, env))
  }

  /** One record of an event: an S3 record yields itself, an SNS record the
      records of the event in its message, any other source raises. */
  function S3Record1(record: Value, depth: nat, env: Env): (y: Yielded<S3Record>)
    ensures EventSource(record) == Ok(Str("aws:s3")) ==>
      y == match ToS3Record(record, Lookup(record, "s3")) case Ok(r) => Yielded([r], None) case Err(e) => Raise(e)
    ensures EventSource(record).Ok? && EventSource(record).value != Str("aws:s3") && EventSource(record).value != Str("aws:sns") ==>
      y == Raise(Failure("Unsupported event source"))
    ensures forall r :: r in y.items ==> r.Keys == S3Fields
    ensures EventSource(record) == Ok(Str("aws:sns")) && record.Obj? && SnsMessage(record, env).Err? ==> y == Raise(SnsMessage(record, env).error)
    ensures EventSource(record) == Ok(Str("aws:sns")) && record.Obj? && SnsMessage(record, env).Ok? && depth == 0 ==> y == Raise(RecursionError)
    decreases depth, 0, 0
  {
    match EventSource(record)
    case Err(e) => Raise(e)
    case Ok(src) =>
      if src == Str("aws:sns") then
        match SnsMessage(record, env)
        case Err(e) => Raise(e)
        case Ok(inner) => if depth == 0 then Raise(RecursionError) else S3Events(inner, depth - 1, env)
      else if src == Str("aws:s3") then
        (match ToS3Record(record, Lookup(record, "s3")) case Ok(r) => Yielded([r], None) case Err(e) => Raise(e))
      else Raise(Failure("Unsupported event source"))
  }

  /** `json.loads(record.get('Sns', {}).get('Message'))`. */
  function SnsMessage(record: Value, env: Env): (r: Result<Value>)
    requires record.Obj?
    ensures r.Ok? ==> "Sns" in record.fields && record.fields["Sns"].Obj? && "Message" in record.fields["Sns"].fields
    ensures r.Ok? ==> record.fields["Sns"].fields["Message"].Str? && env.loads(record.fields["Sns"].fields["Message"].s) == Some(r.value)
  {
    var sns := GetOr(record, "Sns", Obj(map[])).value;
    var msg :- Get(sns, "Message");
    var text :- AsString(msg, "loads");
    Loads(env, text)
  }

  // ---------------------------------------------------------------------
  // extract_dlq_event

  /** `extract_dlq_event(event)`: each SNS record yields its decoded message
      (`'{}'` when absent) and its message attributes (`{}` when absent);
      any other source raises. */
  function DlqEvents(event: Value, env: Env): (y: Yielded<(Value, Value)>)
    ensures Records(event).Err? ==> y == Raise(Records(event).error)
    ensures Records(event).Ok? ==> |y.items| <= |Records(event).value| && (y.fault.None? <==> |y.items| == |Records(event).value|)
    ensures Records(event).Ok? ==> forall i :: 0 <= i < |y.items| ==> DlqRecord(Records(event).value[i], env) == Ok(y.items[i])
    ensures Records(event).Ok? && y.fault.Some? ==> DlqRecord(Records(event).value[|y.items|], env) == Err(y.fault.value)
  {
    match Records(event)
    case Err(e) => Raise(e)
    case Ok(recs) => DlqRecords(recs, env)
  }

  /** The loop of `extract_dlq_event`: the pairs of the records before the
      first one that raises, then that record's exception. */
  function DlqRecords(recs: seq<Value>, env: Env): (y: Yielded<(Value, Value)>)
    ensures |y.items| <= |recs| && (y.fault.None? <==> |y.items| == |recs|)
    ensures forall i :: 0 <= i < |y.items| ==> DlqRecord(recs[i], env) == Ok(y.items[i])
    ensures y.fault.Some? ==> DlqRecord(recs[|y.items|], env) == Err(y.fault.value)
    decreases |recs|
  {
    if recs == [] then Yielded([], None)
    else
      var first := match DlqRecord(recs[0], env) case Ok(p) => Yielded([p], None) case Err(e) => Raise(e);
      var rest := DlqRecords(recs[1..], env);
      assert forall i :: 1 <= i < |recs| ==> recs[i] == recs[1..][i - 1];
      Then(first, rest)
  }

  /** The `Sns` part of a record, `{}` when absent. */
  function SnsPart(record: Value): Value
    requires record.Obj?
  {
    if "Sns" in record.fields then record.fields["Sns"] else Obj(map[])
  }

  /** The `Message` of an `Sns` part, `'{}'` when absent. */
  function SnsText(sns: Value): Value
    requires sns.Obj?
  {
    if "Message" in sns.fields then sns.fields["Message"] else Str("{}")
  }

  /** The `MessageAttributes` of an `Sns` part, `{}` when absent. */
  function SnsAttributes(sns: Value): Value
    requires sns.Obj?
  {
    if "MessageAttributes" in sns.fields then sns.fields["MessageAttributes"] else Obj(map[])
  }

  /** One record of `extract_dlq_event`: an SNS record gives the decoded
      message and the attributes, in that order of evaluation. */
  function DlqRecord(record: Value, env: Env): (r: Result<(Value, Value)>)
    ensures EventSource(record).Err? ==> r == Err(EventSource(record).error)
    ensures EventSource(record).Ok? && EventSource(record).value != Str("aws:sns") ==> r == Err(Failure("Unsupported event source"))
    ensures r.Ok? ==> EventSource(record) == Ok(Str("aws:sns"))
    ensures r.Ok? && "Sns" !in record.fields ==> env.loads("{}") == Some(r.value.0) && r.value.1 == Obj(map[])
    ensures EventSource(record) == Ok(Str("aws:sns")) && !SnsPart(record).Obj? ==> r == Err(TypeMismatch("get"))
    ensures EventSource(record) == Ok(Str("aws:sns")) && SnsPart(record).Obj? && !SnsText(SnsPart(record)).Str? ==>
      r == Err(TypeMismatch("loads"))
    ensures EventSource(record) == Ok(Str("aws:sns")) && SnsPart(record).Obj? && SnsText(SnsPart(record)).Str? ==>
      var text := SnsText(SnsPart(record)).s;
      r == if env.loads(text).Some? then Ok((env.loads(text).value, SnsAttributes(SnsPart(record)))) else Err(JsonDecodeError)
  {
    var src :- EventSource(record);
    if src != Str("aws:sns") then Err(Failure("Unsupported event source"))
    else
      var sns := GetOr(record, "Sns", Obj(map[])).value;
      var msg :- GetOr(sns, "Message", Str("{}"));
      var text :- AsString(msg, "loads");
      var data :- Loads(env, text);
      var attrs := GetOr(sns, "MessageAttributes", Obj(map[])).value;
      Ok((data, attrs))
  }

  // ---------------------------------------------------------------------
  // extract_kinesis_event

  /** The records `extract_kinesis_event` decodes: from Kinesis, with a
      payload. */
  predicate IsKinesis(record: Value)
    requires record.Obj?
  {
    ("eventSource" in record.fields && record.fields["eventSource"] == Str("aws:kinesis"))
    && "kinesis" in record.fields && Truthy(record.fields["kinesis"])
  }

  /** `json.loads(base64.b64decode(kinesis['data']))` for the `kinesis`
      part of a record. `b64` is `base64.b64decode`, which is not part of
      this model. */
  function KinesisPayload(k: Value, b64: string -> Option<Bytes>, env: Env): (r: Result<Value>)
    ensures !k.Obj? ==> r == Err(TypeMismatch("subscript"))
    ensures k.Obj? && "data" !in k.fields ==> r == Err(KeyError("data"))
    ensures k.Obj? && "data" in k.fields && !k.fields["data"].Str? ==> r == Err(TypeMismatch("b64decode"))
    ensures k.Obj? && "data" in k.fields && k.fields["data"].Str? ==>
      var raw := b64(k.fields["data"].s);
      r == if raw.None? then Err(Base64Error)
           else if env.decode(raw.value).None? then Err(UnicodeDecodeError)
           else if env.loads(env.decode(raw.value).value).None? then Err(JsonDecodeError)
           else Ok(env.loads(env.decode(raw.value).value).value)
  {
    var data :- Item(k, "data");
    var encoded :- AsString(data, "b64decode");
    var raw :- match b64(encoded) case Some(b) => Ok(b) case None => Err(Base64Error);
    var text :- match env.decode(raw) case Some(t) => Ok(t) case None => Err(UnicodeDecodeError);
    Loads(env, text)
  }

  /** One record of `extract_kinesis_event`: `None` when it is skipped,
      otherwise the JSON document in its base64 `data`. */
  function KinesisRecord(record: Value, b64: string -> Option<Bytes>, env: Env): (r: Result<Option<Value>>)
    ensures !record.Obj? ==> r == Err(TypeMismatch("get"))
    ensures record.Obj? && !IsKinesis(record) ==> r == Ok(None)
    ensures r.Ok? && r.value.Some? ==> record.Obj? && IsKinesis(record)
    ensures record.Obj? && IsKinesis(record) ==>
      (r.Ok? <==> KinesisPayload(record.fields["kinesis"], b64, env).Ok?)
    ensures record.Obj? && IsKinesis(record) && r.Ok? ==> r.value == Some(KinesisPayload(record.fields["kinesis"], b64, env).value)
    ensures record.Obj? && IsKinesis(record) && r.Err? ==> r.error == KinesisPayload(record.fields["kinesis"], b64, env).error
    ensures r.Ok? && r.value.Some? ==>
      var k := record.fields["kinesis"];
      k.Obj? && "data" in k.fields && k.fields["data"].Str? && b64(k.fields["data"].s).Some?
      && env.decode(b64(k.fields["data"].s).value).Some?
      && env.loads(env.decode(b64(k.fields["data"].s).value).value) == Some(r.value.value)
  {
    var k :- Get(record, "kinesis");
    var src := Get(record, "eventSource").value;
    if !(src == Str("aws:kinesis") && Truthy(k)) then Ok(None)
    else
      var doc :- KinesisPayload(k, b64, env);
      Ok(Some(doc))
  }

  /** The position of the first record whose decoding raises, or the
      number of records when none does. */
  function FirstKinesisFault(recs: seq<Value>, b64: string -> Option<Bytes>, env: Env): (n: nat)
    ensures n <= |recs|
    ensures forall j :: 0 <= j < n ==> KinesisRecord(recs[j], b64, env).Ok?
    ensures n < |recs| ==> KinesisRecord(recs[n], b64, env).Err?
    decreases |recs|
  {
    if recs == [] || KinesisRecord(recs[0], b64, env).Err? then 0
    else
      var n := FirstKinesisFault(recs[1..], b64, env);
      assert forall j :: 1 <= j < 1 + n ==> recs[j] == recs[1..][j - 1];
      1 + n
  }

  /** `extract_kinesis_event(event)`: the payloads of the records before the
      first one that raises, then that record's exception. */
  function KinesisEvents(event: Value, b64: string -> Option<Bytes>, env: Env): (y: Yielded<Value>)
    ensures Records(event).Err? ==> y == Raise(Records(event).error)
    ensures Records(event).Ok? ==>
      var recs := Records(event).value;
      var n := FirstKinesisFault(recs, b64, env);
      y.items == Payloads(recs[..n], b64, env)
      && y.fault == (if n < |recs| then Some(KinesisRecord(recs[n], b64, env).error) else None)
  {
    match Records(event)
    case Err(e) => Raise(e)
    case Ok(recs) => KinesisRecords(recs, b64, env)
  }

  /** The loop of `extract_kinesis_event` over a list of records. */
  function KinesisRecords(recs: seq<Value>, b64: string -> Option<Bytes>, env: Env): (y: Yielded<Value>)
    ensures var n := FirstKinesisFault(recs, b64, env);
      y.items == Payloads(recs[..n], b64, env)
      && y.fault == (if n < |recs| then Some(KinesisRecord(recs[n], b64, env).error) else None)
    decreases |recs|
  {
    if recs == [] then Yielded([], None)
    else
      var first := match KinesisRecord(recs[0], b64, env)
        case Ok(None) => Yielded([], None)
        case Ok(Some(d)) => Yielded([d], None)
        case Err(e) => Raise(e);
      var rest := KinesisRecords(recs[1..], b64, env);
      if KinesisRecord(recs[0], b64, env).Ok? then
        var n := FirstKinesisFault(recs[1..], b64, env);
        assert recs[..1 + n][1..] == recs[1..][..n];
        assert recs[..1 + n][0] == recs[0];
        Then(first, rest)
      else
        Then(first, rest)
  }

  // ---------------------------------------------------------------------
  // escape_url

  /** `escape_url(s)`: a falsy value reads `(none)`; a string has every `.`
      bracketed and every `http` turned into `hxxp`. */
  function EscapeUrl(s: Value): (r: Result<string>)
    ensures !Truthy(s) ==> r == Ok("(none)")
    ensures Truthy(s) && !s.Str? ==> r.Err?
    ensures Truthy(s) && s.Str? ==> r.Ok? && !Occurs("http", r.value)
    ensures Truthy(s) && s.Str? ==> r == Ok(Defanged(Bracketed(s.s)))
    ensures Truthy(s) && s.Str? ==> |r.value| == |s.s| + 2 * Dots(s.s)
  {
    if !Truthy(s) then Ok("(none)")
    else if !s.Str? then Err(TypeMismatch("replace"))
    else
      var r := Replace(Replace(s.s, ".", "[.]"), "http", "hxxp");
      NoHttp(Replace(s.s, ".", "[.]"));
      BracketedIsReplace(s.s);
      DefangedLength(Bracketed(s.s));
      BracketedLength(s.s);
      Ok(r)
  }

  /** The text with every `.` written `[.]` and every other character kept. */
  function Bracketed(s: string): (r: string)
    ensures forall i :: 0 <= i < |r| && r[i] == '.' ==> 0 < i < |r| - 1 && r[i - 1] == '[' && r[i + 1] == ']'
    decreases |s|
  {
    if s == [] then []
    else
      var rest := Bracketed(s[1..]);
      if s[0] == '.' then
        assert forall i :: 3 <= i < |"[.]" + rest| ==> ("[.]" + rest)[i] == rest[i - 3];
        "[.]" + rest
      else
        assert forall i :: 1 <= i < |[s[0]] + rest| ==> ([s[0]] + rest)[i] == rest[i - 1];
        [s[0]] + rest
  }

  /** The number of dots in a text. */
  function Dots(s: string): nat
    decreases |s|
  {
    if s == [] then 0 else (if s[0] == '.' then 1 else 0) + Dots(s[1..])
  }

  // ---------------------------------------------------------------------
  // Properties

  /** A walk over concatenated records is the walk over the first part,
      then, if that did not raise, the walk over the second. */
  lemma {:induction false} S3RecordsAppend(a: seq<Value>, b: seq<Value>, depth: nat, env: Env)
    ensures S3Records(a + b, depth, env) == Then(S3Records(a, depth, env), S3Records(b, depth, env))
    decreases |a|
  {
    if a == [] {
      assert a + b == b;
    } else {
      assert (a + b)[0] == a[0] && (a + b)[1..] == a[1..] + b;
      S3RecordsAppend(a[1..], b, depth, env);
      ThenAssoc(S3Record1(a[0], depth, env), S3Records(a[1..], depth, env), S3Records(b, depth, env));
    }
  }

  /** A record from S3 with every field `to_s3_record` reads. */
  predicate IsS3Record(record: Value) {
    EventSource(record) == Ok(Str("aws:s3")) && HasRecordFields(record) && HasS3Fields(Lookup(record, "s3"))
  }

  /** The S3 records of a list of complete S3 records, one for each. */
  function Converted(recs: seq<Value>): (rs: seq<S3Record>)
    requires forall j :: 0 <= j < |recs| ==> IsS3Record(recs[j])
    ensures |rs| == |recs|
    decreases |recs|
  {
    if recs == [] then []
    else
      assert IsS3Record(recs[0]);
      [ToS3Record(recs[0], Lookup(recs[0], "s3")).value] + Converted(recs[1..])
  }

  /** Records that are all complete S3 records yield one record each, in
      order, whatever the recursion limit. */
  lemma {:induction false} S3RecordsDirect(recs: seq<Value>, depth: nat, env: Env)
    requires forall j :: 0 <= j < |recs| ==> IsS3Record(recs[j])
    ensures S3Records(recs, depth, env) == Yielded(Converted(recs), None)
    decreases |recs|
  {
    if recs != [] {
      S3RecordsDirect(recs[1..], depth, env);
      assert S3Record1(recs[0], depth, env) == Yielded([ToS3Record(recs[0], Lookup(recs[0], "s3")).value], None);
    }
  }

  /** An SNS record yields the records of the event in its message. */
  lemma SnsExpands(record: Value, depth: nat, env: Env)
    requires EventSource(record) == Ok(Str("aws:sns")) && depth > 0
    requires SnsMessage(record, env).Ok?
    ensures S3Record1(record, depth, env) == S3Events(SnsMessage(record, env).value, depth - 1, env)
  {
  }

  /** An event with no `Records` yields nothing, from every extractor. */
  lemma NoRecords(event: Value, depth: nat, b64: string -> Option<Bytes>, env: Env)
    requires event.Obj? && "Records" !in event.fields
    ensures S3Events(event, depth, env) == Yielded([], None)
    ensures DlqEvents(event, env) == Yielded([], None)
    ensures KinesisEvents(event, b64, env) == Yielded([], None)
  {
  }

  /** `extract_dlq_event` yields one pair per record when it does not
      raise. */
  lemma {:induction false} DlqCount(recs: seq<Value>, env: Env)
    ensures |DlqRecords(recs, env).items| <= |recs|
    ensures DlqRecords(recs, env).fault.None? ==> |DlqRecords(recs, env).items| == |recs|
    ensures DlqRecords(recs, env).fault.None? ==> forall j :: 0 <= j < |recs| ==> DlqRecord(recs[j], env).Ok?
    decreases |recs|
  {
    if recs != [] {
      DlqCount(recs[1..], env);
      if DlqRecords(recs, env).fault.None? {
        forall j | 0 <= j < |recs| ensures DlqRecord(recs[j], env).Ok? {
          if j > 0 { assert recs[j] == recs[1..][j - 1]; }
        }
      }
    }
  }

  /** When no record raises, `extract_dlq_event` yields the pair of every
      record, in order. */
  lemma DlqAll(recs: seq<Value>, env: Env)
    requires forall j :: 0 <= j < |recs| ==> DlqRecord(recs[j], env).Ok?
    ensures DlqRecords(recs, env) == Yielded(seq(|recs|, j requires 0 <= j < |recs| => DlqRecord(recs[j], env).value), None)
  {
  }

  /** `extract_kinesis_event` yields exactly the payloads of the Kinesis
      records, in order, and skips every other record. */
  lemma {:induction false} KinesisFilter(recs: seq<Value>, b64: string -> Option<Bytes>, env: Env)
    requires forall j :: 0 <= j < |recs| ==> KinesisRecord(recs[j], b64, env).Ok?
    ensures KinesisRecords(recs, b64, env) == Yielded(Payloads(recs, b64, env), None)
    decreases |recs|
  {
    if recs != [] {
      KinesisFilter(recs[1..], b64, env);
    }
  }

  /** The decoded payloads of the records that are not skipped. */
  function Payloads(recs: seq<Value>, b64: string -> Option<Bytes>, env: Env): (ps: seq<Value>)
    requires forall j :: 0 <= j < |recs| ==> KinesisRecord(recs[j], b64, env).Ok?
    ensures |ps| <= |recs|
    decreases |recs|
  {
    if recs == [] then []
    else
      var rest := Payloads(recs[1..], b64, env);
      match KinesisRecord(recs[0], b64, env).value
      case None => rest
      case Some(d) => [d] + rest
  }

  /** One character that cannot begin `http` before `t`, or begins `h`
      followed by something other than `t`, adds no occurrence. */
  lemma OccursCons(c: char, t: string)
    requires c != 'h' || (t != [] && t[0] != 't')
    ensures Occurs("http", [c] + t) == Occurs("http", t)
  {
    assert ([c] + t)[1..] == t;
    assert |[c] + t| < 4 || ([c] + t)[..4] != "http" by {
      if |[c] + t| >= 4 {
        assert ([c] + t)[..4][0] == c && ([c] + t)[..4][1] == t[0];
      }
    }
  }

  /** What `s.replace('http', 'hxxp')` produces. */
  function Defanged(s: string): string {
    Replace(s, "http", "hxxp")
  }

  /** `s.replace('.', '[.]')` is the bracketing of every dot. */
  lemma {:induction false} BracketedIsReplace(s: string)
    ensures Replace(s, ".", "[.]") == Bracketed(s)
    decreases |s|
  {
    if s != [] {
      BracketedIsReplace(s[1..]);
      assert StartsWith(s, ".") <==> s[0] == '.';
    }
  }

  /** Bracketing adds two characters per dot. */
  lemma {:induction false} BracketedLength(s: string)
    ensures |Bracketed(s)| == |s| + 2 * Dots(s)
    decreases |s|
  {
    if s != [] {
      BracketedLength(s[1..]);
    }
  }

  /** `hxxp` is as long as `http`, so defanging keeps the length. */
  lemma {:induction false} DefangedLength(s: string)
    ensures |Defanged(s)| == |s|
    decreases |s|
  {
    if s != [] {
      if StartsWith(s, "http") {
        DefangedLength(s[4..]);
      } else {
        DefangedLength(s[1..]);
      }
    }
  }

  /** A text with no dot and no `http` is escaped to itself. */
  lemma EscapePlain(s: string)
    requires s != [] && '.' !in s && !Occurs("http", s)
    ensures EscapeUrl(Str(s)) == Ok(s)
  {
    BracketedPlain(s);
    DefangedPlain(s);
  }

  lemma {:induction false} BracketedPlain(s: string)
    requires '.' !in s
    ensures Bracketed(s) == s
    decreases |s|
  {
    if s != [] {
      assert s[0] != '.' && '.' !in s[1..];
      BracketedPlain(s[1..]);
      assert [s[0]] + s[1..] == s;
    }
  }

  lemma {:induction false} DefangedPlain(s: string)
    requires !Occurs("http", s)
    ensures Defanged(s) == s
    decreases |s|
  {
    if s != [] {
      DefangedPlain(s[1..]);
      assert [s[0]] + s[1..] == s;
    }
  }

  /** A prefix free of `h` that the result starts with was already in the
      input. */
  lemma {:induction false} KeepsPlain(t: string, q: string)
    requires forall i :: 0 <= i < |q| ==> q[i] != 'h'
    requires StartsWith(Defanged(t), q)
    ensures StartsWith(t, q)
    decreases |q|
  {
    if q != [] {
      assert Defanged(t)[0] == q[0];
      assert t != [] && !StartsWith(t, "http");
      assert Defanged(t) == [t[0]] + Defanged(t[1..]);
      assert Defanged(t)[1..] == Defanged(t[1..]);
      KeepsPlain(t[1..], q[1..]);
    }
  }

  /** The defanged text contains no `http`, even where a replacement meets
      the text around it. */
  lemma {:induction false} NoHttp(s: string)
    ensures !Occurs("http", Defanged(s))
    decreases |s|
  {
    if s == [] {
    } else if StartsWith(s, "http") {
      NoHttp(s[4..]);
      ReplacedHead(s);
    } else {
      NoHttp(s[1..]);
      KeptHead(s);
    }
  }

  /** A leading `http` turns into `hxxp`, which starts no `http` before the rest. */
  lemma ReplacedHead(s: string)
    requires StartsWith(s, "http") && !Occurs("http", Defanged(s[4..]))
    ensures !Occurs("http", Defanged(s))
  {
    var t := Defanged(s[4..]);
    var x := "hxxp" + t;
    assert Defanged(s) == x;
    assert x[1..] == "xxp" + t && x[2..] == "xp" + t && x[3..] == "p" + t && x[4..] == t;
    OccursCons('p', t);
    OccursCons('x', "p" + t);
    OccursCons('x', "xp" + t);
    OccursCons('h', "xxp" + t);
  }

  /** A character kept as it is adds no `http` before the rest. */
  lemma KeptHead(s: string)
    requires s != [] && !StartsWith(s, "http") && !Occurs("http", Defanged(s[1..]))
    ensures !Occurs("http", Defanged(s))
  {
    var t := Defanged(s[1..]);
    assert Defanged(s) == [s[0]] + t;
    assert ([s[0]] + t)[1..] == t;
    HeadKept(s);
  }

  /** A character kept as it is cannot start an `http` with what the rest
      turns into. */
  lemma HeadKept(s: string)
    requires s != [] && !StartsWith(s, "http")
    ensures !StartsWith([s[0]] + Defanged(s[1..]), "http")
  {
    var t := Defanged(s[1..]);
    var u := [s[0]] + t;
    if StartsWith(u, "http") {
      assert u[..4] == "http";
      assert u[1..4] == t[..3];
      assert StartsWith(t, "ttp");
      KeepsPlain(s[1..], "ttp");
      assert false;
    }
  }
}
