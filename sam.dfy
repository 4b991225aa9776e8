/** `slips.sam`: the SAM (CloudFormation) template of a deployment. The
    deployment configuration is a JSON-like value; the template is built as
    typed records, one per kind of resource, holding what `obj2yml` would
    write out. Every builder starts from a deep copy of `FUNC_TEMPLATE`,
    which is a value here (`FuncTemplate(codeUri)`); `FUNC_TEMPLATE` itself
    is the state of a `Generator`, whose `Build` is the one place that
    changes it. */
module Sam {
  import opened Values
  import opened Text

  // ---------------------------------------------------------------------
  // The template

  /** What invokes a function: an SNS topic, or a Kinesis stream read from
      a starting position in batches. */
  datatype Event =
    | SnsEvent(topic: Value)
    | KinesisEvent(stream: Value, startingPosition: string, batchSize: Value)

  /** `VpcConfig`. */
  datatype Vpc = Vpc(securityGroupIds: Value, subnetIds: Value)

  /** The `Properties` of a serverless function. `None` stands for a key
      the function does not have; `deadLetterQueue` is the `TargetArn` of
      an SNS dead letter queue. */
  datatype Function = Function(
    codeUri: Value, handler: Value, runtime: string, role: Value, memorySize: int, timeout: int,
    variables: map<string, Value>, events: Option<map<string, Event>>,
    deadLetterQueue: Option<Value>, concurrency: Option<Value>, vpc: Option<Vpc>)

  /** A resource of the template; `NoResource` is the `None` that stands in
      for a stream that exists already. */
  datatype Resource =
    | Lambda(func: Function)
    | KinesisStream(retentionHours: int, shardCount: int)
    | DynamoTable(hashKey: string, readCapacity: int, writeCapacity: int)
    | SnsTopic
    | NoResource

  /** The whole SAM template. */
  datatype Template = Template(formatVersion: string, transform: string, description: Value, resources: map<string, Resource>)

  /** `FUNC_TEMPLATE` whose `CodeUri` is `codeUri`. */
  function FuncTemplate(codeUri: Value): Function {
    Function(codeUri, Null, "python3.6", Null, 128, 300, map[], None, None, None, None)
  }

  /** `{'Fn::Sub': s}`. */
  function Sub(s: string): Value {
    Obj(map["Fn::Sub" := Str(s)])
  }

  /** `build_kinesis_stream`. */
  function BuildKinesisStream(): Resource {
    KinesisStream(48, 1)
  }

  /** `build_error_table`: a table keyed by `request_id`. */
  function BuildErrorTable(): Resource {
    DynamoTable("request_id", 10, 10)
  }

  /** `build_error_notification_sns`. */
  function BuildErrorNotify(): Resource {
    SnsTopic
  }

  /** `conf['role_arn'][name]`. */
  function RoleOf(conf: Value, name: string): Result<Value> {
    var roles :- Item(conf, "role_arn");
    Item(roles, name)
  }

  // ---------------------------------------------------------------------
  // Function builders

  /** `for x in topics` where every `x` is then subscripted with a string:
      the elements of a list; an empty dict or string has none, and the
      keys or characters of a non-empty one cannot be subscripted. */
  function Iterated(topics: Value): (r: Result<seq<Value>>)
    ensures topics.Arr? ==> r == Ok(topics.items)
    ensures (topics.Null? || topics.Bool? || topics.Num?) ==> r.Err?
  {
    match topics
    case Arr(xs) => Ok(xs)
    case Obj(m) => if m == map[] then Ok([]) else Err(TypeMismatch("subscript"))
    case Str(s) => if s == [] then Ok([]) else Err(TypeMismatch("subscript"))
    case _ => Err(TypeMismatch("iter"))
  }

  /** `dict([(x['name'], {...}) for x in topics])`: a later topic of the
      same name replaces an earlier one. */
  function TopicEvents(topics: seq<Value>): (r: Result<map<string, Event>>)
    ensures r.Ok? <==> forall i :: 0 <= i < |topics| ==> IsTopic(topics[i])
    decreases |topics|
  {
    if topics == [] then Ok(map[])
    else
      var n := |topics| - 1;
      var m :- TopicEvents(topics[..n]);
      var name :- Item(topics[n], "name");
      var arn :- Item(topics[n], "arn");
      var key :- AsString(name, "key");
      Ok(m[key := SnsEvent(arn)])
  }

  /** A topic entry with a string name and an ARN. */
  predicate IsTopic(x: Value) {
    x.Obj? && "name" in x.fields && x.fields["name"].Str? && "arn" in x.fields
  }

  function TopicName(x: Value): string
    requires IsTopic(x)
  {
    x.fields["name"].s
  }

  /** `build_event_pusher`: the pusher forwards to the two streams under the
      routing policy and is invoked by every processor topic. */
  function EventPusher(codeUri: Value, processor: Value, routing: Value, fast: Value, slow: Value,
                       dumps: Value -> string): (r: Result<Function>)
    ensures r.Ok? ==> RoleOf(processor, "event_pusher").Ok? && r.value.role == RoleOf(processor, "event_pusher").value
    ensures r.Ok? ==> r.value.codeUri == codeUri && r.value.runtime == "python3.6" && r.value.handler == Str("event_pusher.lambda_handler")
    ensures r.Ok? ==> r.value.variables == map["DST_KINESIS_STREAM_FAST" := fast, "DST_KINESIS_STREAM_SLOW" := slow,
                                                 "ROUTING_POLICY" := Str(dumps(routing))]
    ensures r.Ok? ==> processor.Obj? && "sns_topics" in processor.fields
    ensures r.Ok? && processor.fields["sns_topics"].Arr? ==>
      TopicEvents(processor.fields["sns_topics"].items).Ok? &&
      r.value.events == Some(TopicEvents(processor.fields["sns_topics"].items).value)
    ensures RoleOf(processor, "event_pusher").Err? ==> r == Err(RoleOf(processor, "event_pusher").error)
  {
    var vars := map["DST_KINESIS_STREAM_FAST" := fast, "DST_KINESIS_STREAM_SLOW" := slow,
                    "ROUTING_POLICY" := Str(dumps(routing))];
    var role :- RoleOf(processor, "event_pusher");
    var topics :- Item(processor, "sns_topics");
    var xs :- Iterated(topics);
    var events :- TopicEvents(xs);
    Ok(FuncTemplate(codeUri).(variables := vars, role := role, handler := Str("event_pusher.lambda_handler"),
                               events := Some(events)))
  }

  /** `build_dispatcher`: the dispatcher of one lane is invoked by its
      stream, read from the oldest record; its delay defaults to 0 and its
      batch size to 1. */
  function Dispatcher(codeUri: Value, base: Value, backend: Value, lane: Value, streamArn: Value): (r: Result<Function>)
    ensures r.Ok? ==> r.value.variables.Keys == {"FUNC_NAME", "DELAY", "REGION"} && r.value.variables["FUNC_NAME"] == Sub("${MainFunc}")
    ensures lane.Obj? && r.Ok? ==>
      r.value.variables["DELAY"] == (if "delay" in lane.fields then lane.fields["delay"] else Num(0)) &&
      r.value.events == Some(map["StreamEvent" := KinesisEvent(streamArn, "TRIM_HORIZON",
                                   if "batch_size" in lane.fields then lane.fields["batch_size"] else Num(1))])
    ensures r.Ok? ==> r.value.codeUri == codeUri && r.value.handler == Str("dispatcher.lambda_handler")
    ensures r.Ok? ==> RoleOf(backend, "dispatcher").Ok? && r.value.role == RoleOf(backend, "dispatcher").value
    ensures !lane.Obj? ==> r.Err?
  {
    var delay :- GetOr(lane, "delay", Num(0));
    var aws :- Item(base, "aws");
    var region :- Item(aws, "region");
    var role :- RoleOf(backend, "dispatcher");
    var batch := GetOr(lane, "batch_size", Num(1)).value;
    var vars := map["FUNC_NAME" := Sub("${MainFunc}"), "DELAY" := delay, "REGION" := region];
    Ok(FuncTemplate(codeUri).(variables := vars, role := role, handler := Str("dispatcher.lambda_handler"),
                               events := Some(map["StreamEvent" := KinesisEvent(streamArn, "TRIM_HORIZON", batch)])))
  }

  /** Whether `build_main_func` puts the function into a VPC: both VPC
      settings must be given. */
  function VpcOf(base: Value): (r: Result<Option<Vpc>>)
    ensures base.Obj? && "aws" in base.fields && base.fields["aws"].Obj? ==>
      r.Ok? && (r.value.Some? <==> "security_group_ids" in base.fields["aws"].fields && "subnet_ids" in base.fields["aws"].fields)
    ensures r.Ok? && r.value.Some? ==>
      base.Obj? && "aws" in base.fields && base.fields["aws"].Obj? &&
      "security_group_ids" in base.fields["aws"].fields && "subnet_ids" in base.fields["aws"].fields
    ensures r.Ok? && r.value.Some? ==>
      r.value.value == Vpc(base.fields["aws"].fields["security_group_ids"], base.fields["aws"].fields["subnet_ids"])
  {
    var aws :- Item(base, "aws");
    var hasGroups :- Contains(aws, "security_group_ids");
    if !hasGroups then Ok(None)
    else
      var hasSubnets :- Contains(aws, "subnet_ids");
      if !hasSubnets then Ok(None)
      else
        var groups :- Item(aws, "security_group_ids");
        var subnets := aws.fields["subnet_ids"];
        Ok(Some(Vpc(groups, subnets)))
  }

  /** `build_main_func`: the main function runs the handler with its
      arguments and the bucket mapping, sends failures to the dead letter
      topic, gets 1024 MB, and reserves 5 concurrent executions unless told
      otherwise. */
  function MainFunc(codeUri: Value, base: Value, bucketMapping: Value, handler: Value, snsTopicArn: Value,
                    dumps: Value -> string): (r: Result<Function>)
    ensures r.Ok? ==> handler.Obj? && "path" in handler.fields && "role_arn" in handler.fields
    ensures r.Ok? ==>
      r.value.concurrency == Some(if "concurrency" in handler.fields then handler.fields["concurrency"] else Num(5)) &&
      r.value.variables == map["HANDLER_PATH" := handler.fields["path"],
                               "HANDLER_ARGS" := Str(dumps(if "args" in handler.fields then handler.fields["args"] else Obj(map[]))),
                               "BUCKET_MAPPING" := Str(dumps(bucketMapping))] &&
      r.value.role == handler.fields["role_arn"]
    ensures r.Ok? ==> r.value.memorySize == 1024 && r.value.codeUri == codeUri && r.value.timeout == 300
    ensures r.Ok? ==> r.value.deadLetterQueue == Some(snsTopicArn) && r.value.events.None?
    ensures r.Ok? ==> VpcOf(base).Ok? && r.value.vpc == VpcOf(base).value
    ensures !handler.Obj? ==> r.Err?
  {
    var args :- GetOr(handler, "args", Obj(map[]));
    var role :- Item(handler, "role_arn");
    var path :- Item(handler, "path");
    var concurrency := GetOr(handler, "concurrency", Num(5)).value;
    var vars := map["HANDLER_PATH" := path, "HANDLER_ARGS" := Str(dumps(args)), "BUCKET_MAPPING" := Str(dumps(bucketMapping))];
    var vpc :- VpcOf(base);
    Ok(FuncTemplate(codeUri).(role := role, handler := Str("main.lambda_handler"), variables := vars,
                               deadLetterQueue := Some(snsTopicArn), memorySize := 1024,
                               concurrency := Some(concurrency), vpc := vpc))
  }

  /** `build_reporter`: the reporter records main-function failures from
      the dead letter topic in the error table. */
  function Reporter(codeUri: Value, processor: Value, snsTopicArn: Value, tableName: Value): (r: Result<Function>)
    ensures r.Ok? <==> RoleOf(processor, "reporter").Ok?
    ensures r.Ok? ==> r.value.variables == map["ERROR_TABLE" := tableName] && r.value.codeUri == codeUri
    ensures r.Ok? ==> r.value.events == Some(map["FailedMainFunc" := SnsEvent(snsTopicArn)])
  {
    var role :- RoleOf(processor, "reporter");
    Ok(FuncTemplate(codeUri).(role := role, handler := Str("reporter.lambda_handler"),
                               variables := map["ERROR_TABLE" := tableName],
                               events := Some(map["FailedMainFunc" := SnsEvent(snsTopicArn)])))
  }

  /** `build_drain`: the drain reads the error table and has no events. */
  function Drain(codeUri: Value, processor: Value, tableName: Value): (r: Result<Function>)
    ensures r.Ok? <==> RoleOf(processor, "drain").Ok?
    ensures r.Ok? ==> r.value.variables == map["ERROR_TABLE" := tableName] && r.value.codeUri == codeUri
    ensures r.Ok? ==> r.value.handler == Str("drain.lambda_handler") && r.value.events.None?
  {
    var role :- RoleOf(processor, "drain");
    Ok(FuncTemplate(codeUri).(role := role, handler := Str("drain.lambda_handler"),
                               variables := map["ERROR_TABLE" := tableName]))
  }

  // ---------------------------------------------------------------------
  // Kinesis streams

  /** What `get_kinesis_stream` returns: the resource to create
      (`NoResource` when the stream exists already), its ARN and its name. */
  datatype StreamRef = StreamRef(config: Resource, arn: Value, name: Value)

  /** The stream `get_kinesis_stream` makes for a resource name. */
  function NewStream(resource: string): StreamRef {
    StreamRef(BuildKinesisStream(), Obj(map["Fn::GetAtt" := Str(resource + ".Arn")]), Sub("${" + resource + "}"))
  }

  /** `get_kinesis_stream(key_name, label, backend)`. Whether the stream
      exists is decided by the fast stream's key alone: the key of the
      stream asked for is only read afterwards. An existing stream's name
      is the part after the first `/` of the sixth `:` field of its ARN. */
  function GetKinesisStream(keyName: string, resource: string, backend: Value): (r: Result<StreamRef>)
    ensures backend.Obj? && "kinesis_stream_fast_arn" !in backend.fields ==> r == Ok(NewStream(resource))
    ensures backend.Obj? && "kinesis_stream_fast_arn" in backend.fields ==> r == ExistingStream(keyName, backend)
    ensures Contains(backend, "kinesis_stream_fast_arn") == Ok(true) ==> r == ExistingStream(keyName, backend)
  {
    var existing :- Contains(backend, "kinesis_stream_fast_arn");
    if existing then ExistingStream(keyName, backend) else Ok(NewStream(resource))
  }

  /** The stream named by the ARN under `keyName`: no resource is made, and
      an ARN without a sixth field or without a `/` in it raises
      `IndexError`. */
  function ExistingStream(keyName: string, backend: Value): (r: Result<StreamRef>)
    ensures !backend.Obj? ==> r.Err?
    ensures r.Ok? ==> r.value.config == NoResource && backend.Obj? && keyName in backend.fields && r.value.arn == backend.fields[keyName]
    ensures backend.Obj? && keyName !in backend.fields ==> r == Err(TypeMismatch("split"))
    ensures backend.Obj? && keyName in backend.fields && !backend.fields[keyName].Str? ==> r == Err(TypeMismatch("split"))
    ensures backend.Obj? && keyName in backend.fields && backend.fields[keyName].Str? ==>
      var f := Split(backend.fields[keyName].s, ':');
      (|f| <= 5 || |Split(f[5], '/')| <= 1 <==> r == Err(IndexError))
      && (|f| > 5 && |Split(f[5], '/')| > 1 ==> r == Ok(StreamRef(NoResource, backend.fields[keyName], Str(Split(f[5], '/')[1]))))
  {
    var arn :- Get(backend, keyName);
    var s :- AsString(arn, "split");
    var fields := Split(s, ':');
    if |fields| <= 5 then Err(IndexError)
    else
      var segments := Split(fields[5], '/');
      if |segments| <= 1 then Err(IndexError)
      else Ok(StreamRef(NoResource, arn, Str(segments[1])))
  }

  /** The `(label, key_name)` pairs of the two streams, fast first. */
  const KinesisStreams: seq<(string, string)> :=
    [("EventFastStream", "kinesis_stream_fast_arn"), ("EventSlowStream", "kinesis_stream_slow_arn")]

  /** The streams of some `(label, key_name)` pairs, in order; the first
      that cannot be had ends the loop. */
  function Streams(backend: Value, pairs: seq<(string, string)>): (r: Result<seq<StreamRef>>)
    ensures r.Ok? ==> |r.value| == |pairs|
    decreases |pairs|
  {
    if pairs == [] then Ok([])
    else
      var n := |pairs| - 1;
      var ks :- Streams(backend, pairs[..n]);
      var k :- GetKinesisStream(pairs[n].1, pairs[n].0, backend);
      Ok(ks + [k])
  }

  /** The resources of some streams, under their labels. */
  function StreamResources(pairs: seq<(string, string)>, ks: seq<StreamRef>): map<string, Resource>
    requires |pairs| == |ks|
    decreases |pairs|
  {
    if pairs == [] then map[]
    else
      var n := |pairs| - 1;
      StreamResources(pairs[..n], ks[..n])[pairs[n].0 := ks[n].config]
  }

  // ---------------------------------------------------------------------
  // build

  const DefaultDescription := "Security Log & Alert Management: Log Collectors"

  /** The error table a deployment uses: the configured name, or the one
      of a table made for it. */
  function TableName(backend: map<string, Value>): Value {
    if "dynamodb_table_name" in backend then backend["dynamodb_table_name"] else Sub("${ErrorTable}")
  }

  /** The dead letter topic a deployment uses: the configured ARN, or a
      reference to a topic made for it. */
  function TopicArn(backend: map<string, Value>): Value {
    if "dlq_sns_arn" in backend then backend["dlq_sns_arn"] else Obj(map["Ref" := Str("ErrorNotify")])
  }

  /** The error table and topic resources of `build`: each is made only
      when the deployment does not name one. */
  function Backing(backend: map<string, Value>, rsc: map<string, Resource>): (r: map<string, Resource>)
    ensures "dynamodb_table_name" !in backend ==> "ErrorTable" in r && r["ErrorTable"] == BuildErrorTable()
    ensures "dlq_sns_arn" !in backend ==> "ErrorNotify" in r && r["ErrorNotify"] == BuildErrorNotify()
    ensures forall k :: k in r && k != "ErrorTable" && k != "ErrorNotify" ==> k in rsc && r[k] == rsc[k]
    ensures forall k :: k in rsc ==> k in r
  {
    var rsc := if "dynamodb_table_name" in backend then rsc else rsc["ErrorTable" := BuildErrorTable()];
    if "dlq_sns_arn" in backend then rsc else rsc["ErrorNotify" := BuildErrorNotify()]
  }

  /** The six functions of `build`. */
  datatype Functions = Functions(pusher: Function, fast: Function, slow: Function, reporter: Function, drain: Function,
                                 main: Function)

  /** The six functions of `build`, in the order they are built: every
      one is a copy of `FUNC_TEMPLATE`, the pusher feeds the two streams,
      each dispatcher reads its own, and the reporter, the drain and the
      main function share the error table and topic. */
  function BuildFunctions(codeUri: Value, base: Value, backend: Value, lane: Value, handler: Value, bucketMapping: Value,
                          routing: Value, ks: seq<StreamRef>, dumps: Value -> string): (r: Result<Functions>)
    requires backend.Obj? && |ks| == |KinesisStreams|
    ensures r.Ok? ==> r.value.pusher.codeUri == codeUri && r.value.fast.codeUri == codeUri && r.value.slow.codeUri == codeUri &&
                      r.value.reporter.codeUri == codeUri && r.value.drain.codeUri == codeUri && r.value.main.codeUri == codeUri
    ensures r.Ok? ==> r.value.reporter.variables == map["ERROR_TABLE" := TableName(backend.fields)] &&
                      r.value.drain.variables == map["ERROR_TABLE" := TableName(backend.fields)]
    ensures r.Ok? ==> r.value.main.deadLetterQueue == Some(TopicArn(backend.fields)) &&
                      r.value.reporter.events == Some(map["FailedMainFunc" := SnsEvent(TopicArn(backend.fields))])
    ensures r.Ok? ==> r.value.pusher.variables == map["DST_KINESIS_STREAM_FAST" := ks[0].name, "DST_KINESIS_STREAM_SLOW" := ks[1].name,
                                                      "ROUTING_POLICY" := Str(dumps(routing))]
  {
    var table := TableName(backend.fields);
    var topic := TopicArn(backend.fields);
    var pusher :- EventPusher(codeUri, backend, routing, ks[0].name, ks[1].name, dumps);
    var fastLane :- GetOr(lane, "fast", Obj(map[]));
    var fast :- Dispatcher(codeUri, base, backend, fastLane, ks[0].arn);
    var slowLane := GetOr(lane, "slow", Obj(map[])).value;
    var slow :- Dispatcher(codeUri, base, backend, slowLane, ks[1].arn);
    var reporter :- Reporter(codeUri, backend, topic, table);
    var drain :- Drain(codeUri, backend, table);
    var main :- MainFunc(codeUri, base, bucketMapping, handler, topic, dumps);
    Ok(Functions(pusher, fast, slow, reporter, drain, main))
  }

  /** The labels of the six function resources. */
  const FunctionLabels: set<string> := {"EventPusher", "FastDispatcher", "SlowDispatcher", "Reporter", "Drain", "MainFunc"}

  /** The functions as resources under their labels. */
  function Lambdas(f: Functions): (r: map<string, Resource>)
    ensures r.Keys == FunctionLabels
    ensures forall k :: k in r ==> r[k].Lambda?
  {
    map["EventPusher" := Lambda(f.pusher), "FastDispatcher" := Lambda(f.fast), "SlowDispatcher" := Lambda(f.slow),
        "Reporter" := Lambda(f.reporter), "Drain" := Lambda(f.drain), "MainFunc" := Lambda(f.main)]
  }

  /** The sections of the deployment configuration that `build` reads. */
  datatype Sections = Sections(base: Value, backend: map<string, Value>, handler: Value, bucketMapping: Value,
                               routing: Value, lane: Value)

  /** `meta['base']`, `meta.get('backend', {})`, `meta['handler']`,
      `meta['bucket_mapping']`, `meta['routing']` and
      `backend.get('lane', {})`, in that order. */
  function ReadSections(meta: Value): (r: Result<Sections>)
    ensures r.Ok? ==> meta.Obj?
  {
    var base :- Item(meta, "base");
    var backend := GetOr(meta, "backend", Obj(map[])).value;
    var handler :- Item(meta, "handler");
    var bucketMapping :- Item(meta, "bucket_mapping");
    var routing :- Item(meta, "routing");
    var lane :- GetOr(backend, "lane", Obj(map[]));
    Ok(Sections(base, backend.fields, handler, bucketMapping, routing, lane))
  }

  /** The template `build(meta, zpath)` writes out, for a `FUNC_TEMPLATE`
      whose `CodeUri` is `codeUri`. */
  function SamConfig(meta: Value, codeUri: Value, dumps: Value -> string): (r: Result<Template>)
    ensures r.Ok? ==> r.value.formatVersion == "2010-09-09" && r.value.transform == "AWS::Serverless-2016-10-31"
    ensures r.Ok? ==> ReadSections(meta).Ok? && Streams(Obj(ReadSections(meta).value.backend), KinesisStreams).Ok?
    ensures r.Ok? ==> r.value.description == if "description" in meta.fields then meta.fields["description"] else Str(DefaultDescription)
    ensures ReadSections(meta).Err? ==> r == Err(ReadSections(meta).error)
  {
    var c :- ReadSections(meta);
    var description := if "description" in meta.fields then meta.fields["description"] else Str(DefaultDescription);
    var ks :- Streams(Obj(c.backend), KinesisStreams);
    var funcs :- BuildFunctions(codeUri, c.base, Obj(c.backend), c.lane, c.handler, c.bucketMapping, c.routing, ks, dumps);
    Ok(Template("2010-09-09", "AWS::Serverless-2016-10-31", description, Resources(c.backend, ks, funcs)))
  }

  /** The resources of the template: the streams, the error table and
      topic, then the functions. */
  function Resources(backend: map<string, Value>, ks: seq<StreamRef>, funcs: Functions): (r: map<string, Resource>)
    requires |ks| == |KinesisStreams|
    ensures FunctionLabels <= r.Keys && forall k :: k in FunctionLabels ==> r[k] == Lambdas(funcs)[k]
    ensures forall k :: k in r && k !in FunctionLabels ==> !r[k].Lambda? || k in backend || k in StreamResources(KinesisStreams, ks)
  {
    Backing(backend, StreamResources(KinesisStreams, ks)) + Lambdas(funcs)
  }

  /** The loop of `build` over the two streams: each stream's resource
      goes in under its label, and the first stream that cannot be had
      ends the loop. */
  method StreamLoop(backend: Value) returns (r: Result<(seq<StreamRef>, map<string, Resource>)>)
    ensures Streams(backend, KinesisStreams).Err? ==> r == Err(Streams(backend, KinesisStreams).error)
    ensures Streams(backend, KinesisStreams).Ok? ==>
      r == Ok((Streams(backend, KinesisStreams).value, StreamResources(KinesisStreams, Streams(backend, KinesisStreams).value)))
  {
    var ks: seq<StreamRef> := [];
    var rsc: map<string, Resource> := map[];
    var i := 0;
    while i < |KinesisStreams|
      invariant i <= |KinesisStreams|
      invariant Streams(backend, KinesisStreams[..i]) == Ok(ks)
      invariant rsc == StreamResources(KinesisStreams[..i], ks)
    {
      var (resource, keyName) := KinesisStreams[i];
      var k := GetKinesisStream(keyName, resource, backend);
      if k.Err? {
        StreamsFail(backend, i + 1, k.error);
        return Err(k.error);
      }
      assert KinesisStreams[..i + 1] == KinesisStreams[..i] + [KinesisStreams[i]];
      StreamsSnoc(backend, KinesisStreams[..i], KinesisStreams[i], ks, k.value);
      ResourcesSnoc(KinesisStreams[..i], KinesisStreams[i], ks, k.value);
      rsc := rsc[resource := k.value.config];
      ks := ks + [k.value];
      i := i + 1;
    }
    assert KinesisStreams[..i] == KinesisStreams;
    return Ok((ks, rsc));
  }

  /** The module state of `slips.sam`. `FUNC_TEMPLATE` only ever changes at
      `CodeUri`, so that value is its whole state. */
  class Generator {
    var codeUri: Value

    constructor ()
      ensures codeUri == Null
    {
      codeUri := Null;
    }

    /** `build(meta, zpath)` up to `obj2yml`: `CodeUri` of
        `FUNC_TEMPLATE` is set first, even when building fails. */
    method Build(meta: Value, zpath: string, dumps: Value -> string) returns (r: Result<Template>)
      modifies this
      ensures codeUri == Str(zpath)
      ensures r == SamConfig(meta, Str(zpath), dumps)
    {
      codeUri := Str(zpath);
      var c := ReadSections(meta);
      if c.Err? {
        return Err(c.error);
      }
      var description := Str(DefaultDescription);
      if "description" in meta.fields {
        description := meta.fields["description"];
      }
      var backend := c.value.backend;
      var streams := StreamLoop(Obj(backend));
      if streams.Err? {
        return Err(streams.error);
      }
      var (ks, rsc) := streams.value;
      if "dynamodb_table_name" !in backend {
        rsc := rsc["ErrorTable" := BuildErrorTable()];
      }
      if "dlq_sns_arn" !in backend {
        rsc := rsc["ErrorNotify" := BuildErrorNotify()];
      }
      var funcs := BuildFunctions(Str(zpath), c.value.base, Obj(backend), c.value.lane, c.value.handler,
                                  c.value.bucketMapping, c.value.routing, ks, dumps);
      if funcs.Err? {
        return Err(funcs.error);
      }
      r := Ok(Template("2010-09-09", "AWS::Serverless-2016-10-31", description, rsc + Lambdas(funcs.value)));
    }
  }

  // ---------------------------------------------------------------------
  // Properties

  /** A failing stream lookup ends the whole stream loop with its error. */
  /** One more pair whose stream can be had adds that stream. */
  lemma StreamsSnoc(backend: Value, pairs: seq<(string, string)>, p: (string, string), ks: seq<StreamRef>, k: StreamRef)
    requires Streams(backend, pairs) == Ok(ks) && GetKinesisStream(p.1, p.0, backend) == Ok(k)
    ensures Streams(backend, pairs + [p]) == Ok(ks + [k])
  {
    assert (pairs + [p])[..|pairs|] == pairs;
  }

  /** One more stream adds its resource under its label. */
  lemma ResourcesSnoc(pairs: seq<(string, string)>, p: (string, string), ks: seq<StreamRef>, k: StreamRef)
    requires |pairs| == |ks|
    ensures StreamResources(pairs + [p], ks + [k]) == StreamResources(pairs, ks)[p.0 := k.config]
  {
    assert (pairs + [p])[..|pairs|] == pairs && (ks + [k])[..|ks|] == ks;
  }

  lemma StreamsFail(backend: Value, j: nat, e: Error)
    requires 0 < j <= |KinesisStreams|
    requires Streams(backend, KinesisStreams[..j - 1]).Ok?
    requires GetKinesisStream(KinesisStreams[j - 1].1, KinesisStreams[j - 1].0, backend) == Err(e)
    ensures Streams(backend, KinesisStreams) == Err(e)
  {
    assert KinesisStreams[..j][..j - 1] == KinesisStreams[..j - 1];
    if j == 1 {
      assert KinesisStreams[..2][..1] == KinesisStreams[..1];
      assert KinesisStreams[..2] == KinesisStreams;
    } else {
      assert KinesisStreams[..j] == KinesisStreams;
    }
  }

  /** An existing stream whose ARN has the usual
      `arn:aws:kinesis:<region>:<account>:stream/<name>` form is named by
      its last part. */
  lemma ExistingStreamName(keyName: string, resource: string, backend: Value, region: string, account: string, name: string)
    requires backend.Obj? && "kinesis_stream_fast_arn" in backend.fields
    requires ':' !in region && ':' !in account && ':' !in name && '/' !in name
    requires keyName in backend.fields
    requires backend.fields[keyName] == Str(Join(["arn", "aws", "kinesis", region, account, "stream/" + name], ':'))
    ensures GetKinesisStream(keyName, resource, backend) == Ok(StreamRef(NoResource, backend.fields[keyName], Str(name)))
  {
    var last := "stream/" + name;
    assert last == "stream" + ['/'] + name;
    forall i | 0 <= i < |last| ensures last[i] != ':' {
      if i >= 7 {
        assert last[i] == name[i - 7];
      }
    }
    var parts := ["arn", "aws", "kinesis", region, account, last];
    SplitJoin(parts, ':');
    SplitLead("stream", '/', name);
    SplitNone(name, '/');
  }

  /** As written, a deployment that configures the fast stream but not the
      slow one fails: the slow stream is taken to exist, and its missing
      ARN cannot be split. */
  lemma FastKeyQuirk(backend: Value)
    requires backend.Obj? && "kinesis_stream_fast_arn" in backend.fields && "kinesis_stream_slow_arn" !in backend.fields
    ensures Streams(backend, KinesisStreams).Err?
    ensures GetKinesisStream("kinesis_stream_slow_arn", "EventSlowStream", backend) == Err(TypeMismatch("split"))
  {
    assert KinesisStreams[..1][..0] == [];
    assert KinesisStreams[..2][..1] == KinesisStreams[..1];
    assert KinesisStreams[..2] == KinesisStreams;
  }

  /** Without the fast stream's key both streams are made, under their
      labels, and referred to through the template. */
  lemma StreamsMade(backend: Value)
    requires backend.Obj? && "kinesis_stream_fast_arn" !in backend.fields
    ensures Streams(backend, KinesisStreams) == Ok([NewStream("EventFastStream"), NewStream("EventSlowStream")])
    ensures StreamResources(KinesisStreams, [NewStream("EventFastStream"), NewStream("EventSlowStream")]) ==
      map["EventFastStream" := KinesisStream(48, 1), "EventSlowStream" := KinesisStream(48, 1)]
  {
    var ks := [NewStream("EventFastStream"), NewStream("EventSlowStream")];
    assert KinesisStreams[..1][..0] == [] && KinesisStreams[..1][0] == KinesisStreams[0];
    var none: seq<StreamRef> := [];
    assert Streams(backend, KinesisStreams[..1][..0]) == Ok(none);
    assert GetKinesisStream(KinesisStreams[..1][0].1, KinesisStreams[..1][0].0, backend) == Ok(NewStream("EventFastStream"));
    assert none + [NewStream("EventFastStream")] == [NewStream("EventFastStream")];
    assert Streams(backend, KinesisStreams[..1]) == Ok([NewStream("EventFastStream")]);
    assert KinesisStreams[..2][..1] == KinesisStreams[..1];
    assert KinesisStreams[..2] == KinesisStreams;
    assert [NewStream("EventFastStream")] + [NewStream("EventSlowStream")] == ks;
    assert ks[..1][..0] == [];
    assert ks[..2][..1] == ks[..1];
  }

  /** The resources of a template `build` writes: the two stream labels,
      the six functions, and the error table and topic exactly when the
      deployment does not name its own. */
  lemma ResourcesMade(backend: map<string, Value>, ks: seq<StreamRef>, funcs: Functions)
    requires |ks| == |KinesisStreams|
    ensures var rsc := Resources(backend, ks, funcs);
      ("ErrorTable" in rsc <==> "dynamodb_table_name" !in backend) &&
      ("ErrorNotify" in rsc <==> "dlq_sns_arn" !in backend) &&
      "EventFastStream" in rsc && "EventSlowStream" in rsc &&
      (forall k :: k in FunctionLabels ==> k in rsc && rsc[k] == Lambdas(funcs)[k])
  {
    StreamResourcesKeys(KinesisStreams, ks);
    var s := StreamResources(KinesisStreams, ks);
    assert "ErrorTable" !in s && "ErrorNotify" !in s;
    StreamResourcesHas(KinesisStreams, ks, 0);
    StreamResourcesHas(KinesisStreams, ks, 1);
  }

  /** Every function of a template `build` writes carries the archive as
      its code. */
  lemma BuildCode(meta: Value, codeUri: Value, dumps: Value -> string, name: string)
    ensures SamConfig(meta, codeUri, dumps).Ok? && name in FunctionLabels ==>
      var rsc := SamConfig(meta, codeUri, dumps).value.resources;
      name in rsc && rsc[name].Lambda? && rsc[name].func.codeUri == codeUri
  {
    if !(SamConfig(meta, codeUri, dumps).Ok? && name in FunctionLabels) {
      return;
    }
    var c := ReadSections(meta).value;
    var ks := Streams(Obj(c.backend), KinesisStreams).value;
    var funcs := BuildFunctions(codeUri, c.base, Obj(c.backend), c.lane, c.handler, c.bucketMapping, c.routing, ks, dumps).value;
    assert SamConfig(meta, codeUri, dumps).value.resources == Resources(c.backend, ks, funcs);
    ResourcesMade(c.backend, ks, funcs);
    LambdasCode(funcs, codeUri);
  }

  /** Functions that all carry one code location keep it as resources. */
  lemma LambdasCode(funcs: Functions, codeUri: Value)
    requires funcs.pusher.codeUri == codeUri && funcs.fast.codeUri == codeUri && funcs.slow.codeUri == codeUri
    requires funcs.reporter.codeUri == codeUri && funcs.drain.codeUri == codeUri && funcs.main.codeUri == codeUri
    ensures forall k :: k in Lambdas(funcs) ==> Lambdas(funcs)[k].func.codeUri == codeUri
  {
  }

  /** Only stream labels are keys of the stream resources. */
  lemma {:induction false} StreamResourcesKeys(pairs: seq<(string, string)>, ks: seq<StreamRef>)
    requires |pairs| == |ks|
    ensures forall k :: k in StreamResources(pairs, ks) ==> exists i :: 0 <= i < |pairs| && pairs[i].0 == k
    decreases |pairs|
  {
    if pairs != [] {
      var n := |pairs| - 1;
      StreamResourcesKeys(pairs[..n], ks[..n]);
      forall k | k in StreamResources(pairs, ks) ensures exists i :: 0 <= i < |pairs| && pairs[i].0 == k {
        if k != pairs[n].0 {
          assert k in StreamResources(pairs[..n], ks[..n]);
          var i :| 0 <= i < n && pairs[..n][i].0 == k;
          assert pairs[i].0 == k;
        }
      }
    }
  }

  /** Every stream label is a key of the stream resources. */
  lemma {:induction false} StreamResourcesHas(pairs: seq<(string, string)>, ks: seq<StreamRef>, i: nat)
    requires |pairs| == |ks| && i < |pairs|
    ensures pairs[i].0 in StreamResources(pairs, ks)
    decreases |pairs|
  {
    var n := |pairs| - 1;
    if i < n {
      assert pairs[..n][i] == pairs[i];
      StreamResourcesHas(pairs[..n], ks[..n], i);
    }
  }

  /** Well-formed topics always give their events. */
  lemma {:induction false} TopicsOk(topics: seq<Value>)
    requires forall i :: 0 <= i < |topics| ==> IsTopic(topics[i])
    ensures TopicEvents(topics).Ok?
    decreases |topics|
  {
    if topics != [] {
      var n := |topics| - 1;
      assert forall i :: 0 <= i < n ==> topics[..n][i] == topics[i];
      TopicsOk(topics[..n]);
    }
  }

  /** The event pusher has one SNS event per topic, keyed by the topic's
      name. */
  lemma {:induction false} TopicsKeyed(topics: seq<Value>)
    requires forall i :: 0 <= i < |topics| ==> IsTopic(topics[i])
    ensures TopicEvents(topics).Ok?
    ensures forall i :: 0 <= i < |topics| ==> TopicName(topics[i]) in TopicEvents(topics).value
    ensures forall k :: k in TopicEvents(topics).value ==> exists i :: 0 <= i < |topics| && TopicName(topics[i]) == k
    decreases |topics|
  {
    if topics != [] {
      var n := |topics| - 1;
      var init := topics[..n];
      assert forall i :: 0 <= i < n ==> init[i] == topics[i];
      TopicsKeyed(init);
      var m := TopicEvents(init).value;
      assert TopicEvents(topics).value == m[TopicName(topics[n]) := SnsEvent(topics[n].fields["arn"])];
      forall k | k in TopicEvents(topics).value ensures exists i :: 0 <= i < |topics| && TopicName(topics[i]) == k {
        if k != TopicName(topics[n]) {
          var i :| 0 <= i < n && TopicName(init[i]) == k;
          assert TopicName(topics[i]) == k;
        }
      }
    }
  }

  /** Of several topics with one name, the last one's ARN is kept. */
  lemma {:induction false} TopicsLastWins(topics: seq<Value>, i: nat)
    requires forall j :: 0 <= j < |topics| ==> IsTopic(topics[j])
    requires i < |topics| && forall j :: i < j < |topics| ==> TopicName(topics[j]) != TopicName(topics[i])
    ensures TopicEvents(topics).Ok?
    ensures TopicName(topics[i]) in TopicEvents(topics).value
    ensures TopicEvents(topics).value[TopicName(topics[i])] == SnsEvent(topics[i].fields["arn"])
    decreases |topics|
  {
    var n := |topics| - 1;
    var init := topics[..n];
    assert forall j :: 0 <= j < n ==> init[j] == topics[j];
    TopicsOk(init);
    if i < n {
      TopicsLastWins(init, i);
    }
  }
}
