/** The stages of a stream: the three fetchers that start it and the format
    parsers that follow. A parser receives one `(meta, data)` pair and emits
    zero or more pairs, or raises; here a stage is a function from the pair
    it receives to the pairs it emits, in order, and the exception it raises
    after them, if any. The metadata a stage changes in place is returned as
    a new `MetaView`; a stage that copies the metadata first starts from the
    same view. */
module Parsers {
  import opened Values
  import opened Text
  import opened Meta
  import SyslogFormat = Syslog
  import KeaFormat = Kea
  import PaloAltoFormat = PaloAlto
  import Scan

  type Bytes = seq<bv8>

  /** The stage classes that `Stream` can instantiate. */
  datatype Kind =
    | S3Lines | S3TextFile | Ignore
    | Json | Syslog | FluentdJson | PaloAlto | GSuiteLogin
    | AwsCloudtrailEvent | AwsGuardDuty
    | AzureAdAudit | AzureAdEvent | AzureAdRiskEvent
    | CylanceEvent | CylanceThreat
    | Kea | PacketBeat | AuditBeat | EcsHako | FalconEventLog

  /** The stages with a `run` method; all others only have `recv`. */
  predicate IsFetcher(k: Kind) {
    k.S3Lines? || k.S3TextFile? || k.Ignore?
  }

  /** `Stream.FUCTORY_MAP`: the names a format list may use. EcsHako has no
      name and cannot be instantiated by a stream. */
  const Registry: map<string, Kind> := map[
    "s3-lines" := S3Lines, "s3-text" := S3TextFile,
    "json" := Json, "syslog" := Syslog, "fluentd-json" := FluentdJson,
    "paloalto" := PaloAlto, "g-suite-login" := GSuiteLogin,
    "cloudtrail" := AwsCloudtrailEvent, "guardduty" := AwsGuardDuty,
    "azure-ad-audit" := AzureAdAudit, "azure-ad-event" := AzureAdEvent,
    "azure-ad-risk-event" := AzureAdRiskEvent,
    "cylance" := CylanceEvent, "cylance-event" := CylanceEvent, "cylance-threat" := CylanceThreat,
    "kea" := Kea, "packetbeat" := PacketBeat, "auditbeat" := AuditBeat,
    "falcon" := FalconEventLog, "ignore" := Ignore
  ]

  /** One `(meta, data)` pair passed to `emit`. */
  datatype Emission = Emission(meta: MetaView, data: Value)

  /** What a stage did with one input: the pairs it emitted, in order, then
      the exception that ended it, if any. */
  datatype Emitted = Emitted(outs: seq<Emission>, fault: Option<Error>)

  /** The foreign functions the stages call: `json.loads`, the UTF-8
      decoding of a line of bytes, and the clock reading that a new
      `MetaData()` takes. */
  datatype Env = Env(loads: string -> Option<Value>, decode: Bytes -> Option<string>, now: int)

  /** A stage that emits at most one pair. */
  function Single(r: Result<Emission>): (e: Emitted)
    ensures r.Ok? ==> e == Emitted([r.value], None)
    ensures r.Err? ==> e == Emitted([], Some(r.error))
  {
    if r.Ok? then Emitted([r.value], None) else Emitted([], Some(r.error))
  }

  /** `json.loads(s)`. */
  function Loads(env: Env, s: string): (r: Result<Value>)
    ensures r.Ok? <==> env.loads(s).Some?
    ensures r.Ok? ==> r.value == env.loads(s).value
  {
    match env.loads(s)
    case None => Err(JsonDecodeError)
    case Some(v) => Ok(v)
  }

  // ---------------------------------------------------------------------
  // General parsers

  /** `Json.recv`: the record is the decoded `message`. */
  function JsonRecv(m: MetaView, d: Value, env: Env): (r: Result<Emission>)
    ensures r.Ok? <==> d.Obj? && "message" in d.fields && d.fields["message"].Str? && env.loads(d.fields["message"].s).Some?
    ensures r.Ok? ==> r.value == Emission(m, env.loads(d.fields["message"].s).value)
  {
    var msg :- Item(d, "message");
    var s :- AsString(msg, "loads");
    var v :- Loads(env, s);
    Ok(Emission(m, v))
  }

  /** `Syslog.recv`: the record is the five header groups, on a copy of the
      metadata whose timestamp comes from group 1. */
  function SyslogRecv(m: MetaView, d: Value): (r: Result<Emission>)
    ensures r.Ok? <==> d.Obj? && "message" in d.fields && d.fields["message"].Str? && SyslogFormat.Match(d.fields["message"].s).Some?
    ensures r.Ok? ==> var f := SyslogFormat.Match(d.fields["message"].s).value;
      r.value == Emission(m.(timestamp := Strptime(f.datetime, SyslogFormat.DateFormat)), SyslogFormat.ToRecord(f))
    ensures d.Obj? && "message" in d.fields && d.fields["message"].Str? && r.Err? ==> r.error.ParseError?
  {
    var msg :- Item(d, "message");
    var line :- AsString(msg, "search");
    var f :- SyslogFormat.Parse(line);
    Ok(Emission(m.(timestamp := Strptime(f.datetime, SyslogFormat.DateFormat)), SyslogFormat.ToRecord(f)))
  }

  /** `FluentdJson.recv`: the message is `time<TAB>tag<TAB>json`. */
  function FluentdRecv(m: MetaView, d: Value, env: Env): (r: Result<Emission>)
    ensures r.Ok? <==> MessageText(d).Some? && |Split(MessageText(d).value, '\t')| == 3
                       && env.loads(Split(MessageText(d).value, '\t')[2]).Some?
    ensures r.Ok? ==> var row := Split(d.fields["message"].s, '\t');
      r.value == Emission(m.(timestamp := Dateutil(row[0]), tag := Some(row[1])), env.loads(row[2]).value)
    ensures d.Obj? && "message" !in d.fields ==> r == Err(KeyError("message"))
    ensures MessageText(d).Some? && |Split(MessageText(d).value, '\t')| != 3 ==> r == Err(AssertionError)
    ensures (MessageText(d).Some? && |Split(MessageText(d).value, '\t')| == 3
             && env.loads(Split(MessageText(d).value, '\t')[2]).None?) ==> r == Err(JsonDecodeError)
  {
    var msg :- Item(d, "message");
    var s :- AsString(msg, "split");
    var row := Split(s, '\t');
    if |row| != 3 then Err(AssertionError)
    else
      var j :- Loads(env, row[2]);
      Ok(Emission(m.(timestamp := Dateutil(row[0]), tag := Some(row[1])), j))
  }

  // ---------------------------------------------------------------------
  // Product parsers that emit one record with a fixed tag

  /** The timestamp a field gives when it is truthy: the field must then be
      text, which `prep` turns into the text `strptime` reads with `fmt`. */
  function StampFrom(m: MetaView, v: Value, prep: string -> string, fmt: string): (r: Result<Timestamp>)
    ensures !Truthy(v) ==> r == Ok(m.timestamp)
    ensures Truthy(v) ==> (r.Ok? <==> v.Str?)
    ensures Truthy(v) && v.Str? ==> r == Ok(Strptime(prep(v.s), fmt))
  {
    if Truthy(v) then
      var s :- AsString(v, "strptime");
      Ok(Strptime(prep(s), fmt))
    else Ok(m.timestamp)
  }

  function First19(s: string): string { TakeClamped(s, 19) }
  function BeforeDot(s: string): string { Split(s, '.')[0] }
  function AsIs(s: string): string { s }

  /** The five parsers that take the first 19 characters of one field as
      the time and set a fixed tag: the field they read and the tag. */
  function VendorField(k: Kind): (f: (string, string))
    requires k.AzureAdAudit? || k.AzureAdEvent? || k.AzureAdRiskEvent? || k.CylanceEvent? || k.CylanceThreat?
  {
    match k
    case AzureAdAudit => ("activityDate", "azure_ad.audit")
    case AzureAdEvent => ("signinDateTime", "azure_ad.signin_event")
    case AzureAdRiskEvent => ("riskEventDateTime", "azure_ad.risk_event")
    case CylanceEvent => ("datetime", "cylance.event")
    case CylanceThreat => ("datetime", "cylance.threat")
  }

  /** `AzureAdAudit.recv` and its four siblings. */
  function VendorRecv(m: MetaView, d: Value, field: string, tag: string): (r: Result<Emission>)
    ensures r.Ok? <==> d.Obj? && (Truthy(Lookup(d, field)) ==> Lookup(d, field).Str?)
    ensures r.Ok? ==> r.value.data == d && r.value.meta == m.(tag := Some(tag), timestamp := r.value.meta.timestamp)
    ensures r.Ok? && !Truthy(Lookup(d, field)) ==> r.value.meta.timestamp == m.timestamp
    ensures r.Ok? && Truthy(Lookup(d, field)) ==>
      r.value.meta.timestamp == Strptime(TakeClamped(Lookup(d, field).s, 19), "%Y-%m-%dT%H:%M:%S")
  {
    var v :- Get(d, field);
    var ts :- StampFrom(m, v, First19, "%Y-%m-%dT%H:%M:%S");
    Ok(Emission(m.(timestamp := ts, tag := Some(tag)), d))
  }

  /** A dict field, or None. */
  function Lookup(d: Value, k: string): Value {
    if d.Obj? && k in d.fields then d.fields[k] else Null
  }

  /** `GSuiteLogin.recv`: the time is `id.time`, read as UTC. */
  function GSuiteRecv(m: MetaView, d: Value): (r: Result<Emission>)
    ensures r.Ok? <==> d.Obj? && ("id" in d.fields ==> d.fields["id"].Obj?) && (Truthy(GSuiteTime(d)) ==> GSuiteTime(d).Str?)
    ensures r.Ok? ==> r.value.data == d
    ensures r.Ok? ==> r.value.meta == m.(tag := Some("gsuite.login"),
      timestamp := if Truthy(GSuiteTime(d)) then Strptime(TakeClamped(GSuiteTime(d).s, 19) + "+0000", "%Y-%m-%dT%H:%M:%S%z") else m.timestamp)
    ensures d.Obj? && "id" !in d.fields ==> r == Ok(Emission(m.(tag := Some("gsuite.login")), d))
  {
    var id :- GetOr(d, "id", Obj(map[]));
    var t :- GetOr(id, "time", Obj(map[]));
    var ts :- StampFrom(m, t, s => First19(s) + "+0000", "%Y-%m-%dT%H:%M:%S%z");
    Ok(Emission(m.(timestamp := ts, tag := Some("gsuite.login")), d))
  }

  /** `id.time` of a record, or None. */
  function GSuiteTime(d: Value): Value {
    Lookup(Lookup(d, "id"), "time")
  }

  /** `EcsHako.recv`. */
  function EcsHakoRecv(m: MetaView, d: Value): (r: Result<Emission>)
    ensures r.Ok? <==> d.Obj? && (Truthy(Lookup(d, "time")) ==> Lookup(d, "time").Str?)
    ensures r.Ok? ==> r.value.data == d && r.value.meta == m.(tag := Some("ecs.hako"), timestamp := r.value.meta.timestamp)
    ensures r.Ok? && !Truthy(Lookup(d, "time")) ==> r.value.meta.timestamp == m.timestamp
    ensures r.Ok? && Truthy(Lookup(d, "time")) ==> r.value.meta.timestamp == Strptime(Lookup(d, "time").s, "%Y-%m-%dT%H:%M:%SZ")
  {
    var v :- Get(d, "time");
    var ts :- StampFrom(m, v, AsIs, "%Y-%m-%dT%H:%M:%SZ");
    Ok(Emission(m.(timestamp := ts, tag := Some("ecs.hako")), d))
  }

  /** `AwsGuardDuty.recv`: only the tag is set. */
  function GuardDutyRecv(m: MetaView, d: Value): (r: Result<Emission>)
    ensures r == Ok(Emission(m.(tag := Some("aws.guardduty")), d))
  {
    Ok(Emission(m.(tag := Some("aws.guardduty")), d))
  }

  /** `PacketBeat.recv`: the tag names the record's `type`; a `dns` record
      gets a summary message. */
  function PacketBeatRecv(m: MetaView, d: Value): (r: Result<Emission>)
    ensures r.Ok? <==> d.Obj? && "type" in d.fields && (Truthy(Lookup(d, "@timestamp")) ==> Lookup(d, "@timestamp").Str?)
    ensures r.Ok? ==> r.value.meta == m.(tag := Some("packetbeat." + Show(d.fields["type"])), timestamp := r.value.meta.timestamp)
    ensures r.Ok? && !Truthy(Lookup(d, "@timestamp")) ==> r.value.meta.timestamp == m.timestamp
    ensures r.Ok? && Truthy(Lookup(d, "@timestamp")) ==>
      r.value.meta.timestamp == Strptime(Split(Lookup(d, "@timestamp").s, '.')[0], "%Y-%m-%dT%H:%M:%S")
    ensures d.Obj? && "type" !in d.fields ==> r == Err(KeyError("type"))
    ensures r.Ok? && d.fields["type"] != Str("dns") ==> r.value.data == d
    ensures r.Ok? && d.fields["type"] == Str("dns") ==>
      r.value.data == Obj(d.fields["message" := Str(Show(Lookup(d, "query")) + " from " + Show(Lookup(d, "client_ip")))])
  {
    var ty :- Item(d, "type");
    var v := Get(d, "@timestamp").value;
    var ts :- StampFrom(m, v, BeforeDot, "%Y-%m-%dT%H:%M:%S");
    var m' := m.(tag := Some("packetbeat." + Show(ty)), timestamp := ts);
    if ty == Str("dns") then
      var q := Get(d, "query").value;
      var c := Get(d, "client_ip").value;
      Ok(Emission(m', Obj(d.fields["message" := Str(Show(q) + " from " + Show(c))])))
    else Ok(Emission(m', d))
  }

  /** `audit.<part>` is a dict. */
  predicate AuditLog(d: Value, part: string) {
    Lookup(Lookup(d, "audit"), part).Obj?
  }

  /** `log.get(a, {})` of a dict `log` is something `.get` can be called on. */
  predicate NestOk(log: Value, a: string) {
    !(log.Obj? && a in log.fields) || log.fields[a].Obj?
  }

  /** What `recv` needs of a truthy `audit`: a dict whose kernel log, if it
      has one, has dicts (or nothing) under `actor` and `thing`. */
  predicate AuditOk(audit: Value) {
    audit.Obj?
    && (Lookup(audit, "kernel").Obj? ==> NestOk(Lookup(audit, "kernel"), "actor") && NestOk(Lookup(audit, "kernel"), "thing"))
  }

  /** The summary of a kernel log: `'{} {} {} by {}'`. */
  function KernelMessage(log: Value): string {
    Show(Lookup(Lookup(log, "actor"), "primary")) + " " + Show(Lookup(log, "action")) + " "
    + Show(Lookup(Lookup(log, "thing"), "primary")) + " by " + Show(Lookup(log, "how"))
  }

  /** The summary of a file log: `'{} is {} ({})'`. */
  function FileMessage(log: Value): string {
    Show(Lookup(log, "path")) + " is " + Show(Lookup(log, "action")) + " (" + Show(Lookup(log, "sha256")) + ")"
  }

  /** The timestamp a truthy `@timestamp` gives, up to its first dot. */
  function BeatStamp(m: MetaView, d: Value): Timestamp
    requires Truthy(Lookup(d, "@timestamp")) ==> Lookup(d, "@timestamp").Str?
  {
    if Truthy(Lookup(d, "@timestamp")) then Strptime(BeforeDot(Lookup(d, "@timestamp").s), "%Y-%m-%dT%H:%M:%S") else m.timestamp
  }

  /** `AuditBeat.recv`: nothing is emitted without a truthy `audit`; a
      `kernel` dict wins over a `file` dict. */
  function AuditBeatRecv(m: MetaView, d: Value): (r: Result<Option<Emission>>)
    ensures r.Ok? <==> d.Obj? && (Truthy(Lookup(d, "@timestamp")) ==> Lookup(d, "@timestamp").Str?)
                       && (Truthy(Lookup(d, "audit")) ==> AuditOk(Lookup(d, "audit")))
    ensures r.Ok? ==> (r.value.Some? <==> Truthy(Lookup(d, "audit")))
    ensures r.Ok? && r.value.Some? && AuditLog(d, "kernel") ==>
      r.value.value == Emission(m.(timestamp := BeatStamp(m, d), tag := Some("auditbeat.kernel")),
                                Obj(d.fields["message" := Str(KernelMessage(Lookup(Lookup(d, "audit"), "kernel")))]))
    ensures r.Ok? && r.value.Some? && !AuditLog(d, "kernel") && AuditLog(d, "file") ==>
      r.value.value == Emission(m.(timestamp := BeatStamp(m, d), tag := Some("auditbeat.file")),
                                Obj(d.fields["message" := Str(FileMessage(Lookup(Lookup(d, "audit"), "file")))]))
    ensures r.Ok? && r.value.Some? && !AuditLog(d, "kernel") && !AuditLog(d, "file") ==>
      r.value.value == Emission(m.(timestamp := BeatStamp(m, d), tag := Some("auditbeat.log")), d)
  {
    var v :- Get(d, "@timestamp");
    var ts :- StampFrom(m, v, BeforeDot, "%Y-%m-%dT%H:%M:%S");
    var audit := Get(d, "audit").value;
    if !Truthy(audit) then Ok(None)
    else
      var kernel :- Get(audit, "kernel");
      if kernel.Obj? then
        var actor :- GetNested(kernel, "actor", "primary");
        var thing :- GetNested(kernel, "thing", "primary");
        Ok(Some(Emission(m.(timestamp := ts, tag := Some("auditbeat.kernel")), Obj(d.fields["message" := Str(KernelMessage(kernel))]))))
      else
        var file := Get(audit, "file").value;
        if file.Obj? then
          Ok(Some(Emission(m.(timestamp := ts, tag := Some("auditbeat.file")), Obj(d.fields["message" := Str(FileMessage(file))]))))
        else Ok(Some(Emission(m.(timestamp := ts, tag := Some("auditbeat.log")), d)))
  }

  /** `a or b or ...`: the index of the first truthy operand, or of the last
      one when none is. */
  function FirstTruthy(vs: seq<Value>): (i: nat)
    requires vs != []
    ensures i < |vs| && (Truthy(vs[i]) || i == |vs| - 1)
    ensures forall j :: 0 <= j < i ==> !Truthy(vs[j])
  {
    if |vs| == 1 || Truthy(vs[0]) then 0 else 1 + FirstTruthy(vs[1..])
  }

  /** The target of a Falcon event: `RemoteAddressIP4 or TargetFileName or
      DomainName or CommandLine`. */
  function FalconTarget(d: Value): Value {
    var vs := [Lookup(d, "RemoteAddressIP4"), Lookup(d, "TargetFileName"), Lookup(d, "DomainName"), Lookup(d, "CommandLine")];
    vs[FirstTruthy(vs)]
  }

  /** `FalconEventLog.recv`: a truthy `timestamp` must convert with `int()`;
      the message names the event, its agent and its target. */
  function FalconRecv(m: MetaView, d: Value): (r: Result<Emission>)
    ensures r.Ok? <==> d.Obj? && (Truthy(Lookup(d, "timestamp")) ==> IntOf(Lookup(d, "timestamp")).Ok?)
    ensures d.Obj? && Truthy(Lookup(d, "timestamp")) && IntOf(Lookup(d, "timestamp")).Err? ==>
      r == Err(IntOf(Lookup(d, "timestamp")).error)
    ensures r.Ok? ==> r.value.meta == m.(tag := Some("falcon"),
      timestamp := if Truthy(Lookup(d, "timestamp")) then Millis(IntOf(Lookup(d, "timestamp")).value) else m.timestamp)
    ensures r.Ok? ==> (r.value.data ==
      Obj(d.fields["message" := Str(Show(Lookup(d, "name")) + " at " + Show(Lookup(d, "aip")) + " to " + Show(FalconTarget(d)))]))
  {
    var t :- Get(d, "timestamp");
    var ts :- if Truthy(t) then var n :- IntOf(t); Ok(Millis(n)) else Ok(m.timestamp);
    var target := FalconTarget(d);
    var name := Get(d, "name").value;
    var aip := Get(d, "aip").value;
    Ok(Emission(m.(tag := Some("falcon"), timestamp := ts), Obj(d.fields["message" := Str(Show(name) + " at " + Show(aip) + " to " + Show(target))])))
  }

  // ---------------------------------------------------------------------
  // CloudTrail: one record per element of `Records`

  /** The handling of one element of `Records`, on its own copy of the metadata. */
  function TrailRecord(m: MetaView, rec: Value): (r: Result<Emission>)
    ensures r.Ok? <==> rec.Obj? && ("eventTime" in rec.fields ==> rec.fields["eventTime"].Str?)
                       && NestOk(rec, "userIdentity")
    ensures r.Ok? ==> r.value.data == Obj(rec.fields["description" := Str(TrailDescription(rec))])
    ensures r.Ok? ==> r.value.meta == m.(tag := Some("aws.cloudtrail." + Show(Lookup(rec, "eventType"))),
      timestamp := if "eventTime" in rec.fields then Strptime(rec.fields["eventTime"].s, "%Y-%m-%dT%H:%M:%SZ") else m.timestamp)
  {
    var timed :- Contains(rec, "eventTime");
    var ts :- if timed then
                var t :- Item(rec, "eventTime");
                var s :- AsString(t, "strptime");
                Ok(Strptime(s, "%Y-%m-%dT%H:%M:%SZ"))
              else Ok(m.timestamp);
    var ty :- Get(rec, "eventType");
    var arn :- GetNested(rec, "userIdentity", "arn");
    Ok(Emission(m.(timestamp := ts, tag := Some("aws.cloudtrail." + Show(ty))), Obj(rec.fields["description" := Str(TrailDescription(rec))])))
  }

  /** The description of a CloudTrail element: `'{} {} by {} on {}'`. */
  function TrailDescription(rec: Value): string {
    Show(Lookup(rec, "eventType")) + " " + Show(Lookup(rec, "eventName")) + " by "
    + Show(Lookup(Lookup(rec, "userIdentity"), "arn")) + " on " + Show(Lookup(rec, "sourceIPAddress"))
  }

  /** A loop that emits one record per element, in order, until an element
      raises. */
  function EachUntil(f: Value -> Result<Emission>, xs: seq<Value>): (e: Emitted)
    ensures |e.outs| <= |xs|
    ensures forall i :: 0 <= i < |e.outs| ==> f(xs[i]) == Ok(e.outs[i])
    ensures e.fault.None? <==> |e.outs| == |xs|
    ensures e.fault.Some? ==> f(xs[|e.outs|]) == Err(e.fault.value)
    decreases |xs|
  {
    if xs == [] then Emitted([], None)
    else
      match f(xs[0])
      case Err(x) => Emitted([], Some(x))
      case Ok(o) =>
        var rest := EachUntil(f, xs[1..]);
        assert forall i :: 1 <= i < |xs| ==> xs[1..][i - 1] == xs[i];
        Emitted([o] + rest.outs, rest.fault)
  }

  /** The loop over `Records`. */
  function TrailRecords(m: MetaView, recs: seq<Value>): (e: Emitted)
    ensures |e.outs| <= |recs|
    ensures forall i :: 0 <= i < |e.outs| ==> TrailRecord(m, recs[i]) == Ok(e.outs[i])
    ensures e.fault.None? <==> |e.outs| == |recs|
    ensures e.fault.Some? ==> TrailRecord(m, recs[|e.outs|]) == Err(e.fault.value)
  {
    EachUntil(rec => TrailRecord(m, rec), recs)
  }

  /** The text of a dict's `message`, when it has one. */
  function MessageText(d: Value): (t: Option<string>)
    ensures t.Some? <==> d.Obj? && "message" in d.fields && d.fields["message"].Str?
    ensures t.Some? ==> t.value == d.fields["message"].s
  {
    if d.Obj? && "message" in d.fields && d.fields["message"].Str? then Some(d.fields["message"].s) else None
  }

  predicate HasRecords(j: Value) {
    j.Obj? && "Records" in j.fields && j.fields["Records"].Arr?
  }

  /** The `Records` array of the decoded message, checked the way
      `AwsCloudtrailEvent.recv` checks it. */
  function TrailArray(d: Value, env: Env): (r: Result<seq<Value>>)
    ensures !Truthy(Lookup(d, "message")) && d.Obj? ==> r == Err(ParseError("No \"message\""))
    ensures r.Ok? ==> MessageText(d).Some? && env.loads(MessageText(d).value).Some?
    ensures r.Ok? ==> var j := env.loads(MessageText(d).value).value; j.Obj? && "Records" in j.fields && j.fields["Records"] == Arr(r.value)
    ensures MessageText(d).Some? && MessageText(d).value != [] && env.loads(MessageText(d).value).Some? ==>
      var j := env.loads(MessageText(d).value).value; j.Obj? && !HasRecords(j) ==> r == Err(ParseError("No \"Records\" array"))
    ensures r.Ok? <==> MessageText(d).Some? && MessageText(d).value != [] && env.loads(MessageText(d).value).Some?
                       && HasRecords(env.loads(MessageText(d).value).value)
    ensures MessageText(d).Some? && MessageText(d).value != [] && env.loads(MessageText(d).value).None? ==> r == Err(JsonDecodeError)
  {
    var msg :- Get(d, "message");
    if !Truthy(msg) then Err(ParseError("No \"message\""))
    else
      var s :- AsString(msg, "loads");
      var j :- Loads(env, s);
      var has :- Contains(j, "Records");
      if !has then Err(ParseError("No \"Records\" array"))
      else
        var recs :- Item(j, "Records");
        if !recs.Arr? then Err(ParseError("No \"Records\" array")) else Ok(recs.items)
  }

  /** `AwsCloudtrailEvent.recv`: a fault before the loop emits nothing; the
      loop emits, per element and in order, a record tagged by its
      `eventType` and carrying a `description`, until an element raises. */
  function CloudTrailRecv(m: MetaView, d: Value, env: Env): (e: Emitted)
    ensures TrailArray(d, env).Err? ==> e == Emitted([], Some(TrailArray(d, env).error))
    ensures TrailArray(d, env).Ok? ==> var recs := TrailArray(d, env).value;
      |e.outs| <= |recs| && (e.fault.None? <==> |e.outs| == |recs|)
      && (forall i :: 0 <= i < |e.outs| ==> TrailRecord(m, recs[i]) == Ok(e.outs[i]))
      && (e.fault.Some? ==> TrailRecord(m, recs[|e.outs|]) == Err(e.fault.value))
      && forall i :: 0 <= i < |e.outs| ==>
           e.outs[i].meta.tag == Some("aws.cloudtrail." + Show(Lookup(recs[i], "eventType")))
           && e.outs[i].data == Obj(recs[i].fields["description" := Str(TrailDescription(recs[i]))])
  {
    match TrailArray(d, env)
    case Err(x) => Emitted([], Some(x))
    case Ok(recs) => TrailRecords(m, recs)
  }

  // ---------------------------------------------------------------------
  // Kea and PaloAlto

  /** `Kea.recv`: the record gains the nine prefix fields and `ipaddr`. */
  function KeaRecv(m: MetaView, d: Value): (r: Result<Emission>)
    ensures r.Ok? ==> MessageText(d).Some? && KeaFormat.Parse(MessageText(d).value).Ok?
    ensures r.Ok? ==> var p := KeaFormat.Parse(MessageText(d).value).value;
      r.value == Emission(m.(timestamp := Strptime(BeforeDot(p.0.datetime), KeaFormat.DateFormat), tag := Some("kea.log")),
                          Obj(KeaFormat.Record(d.fields, p.0, p.1)))
    ensures d.Obj? && !Truthy(Lookup(d, "message")) ==> r == Err(Failure("No \"message\" attribute"))
    ensures MessageText(d).Some? && MessageText(d).value != [] && KeaFormat.Parse(MessageText(d).value).Err? ==>
      r == Err(KeaFormat.Parse(MessageText(d).value).error)
    ensures r.Ok? <==> MessageText(d).Some? && MessageText(d).value != [] && KeaFormat.Parse(MessageText(d).value).Ok?
  {
    var msg :- Get(d, "message");
    if !Truthy(msg) then Err(Failure("No \"message\" attribute"))
    else
      var s :- AsString(msg, "search");
      var p :- KeaFormat.Parse(s);
      Ok(Emission(m.(timestamp := Strptime(BeforeDot(p.0.datetime), KeaFormat.DateFormat), tag := Some("kea.log")),
                  Obj(KeaFormat.Record(d.fields, p.0, p.1))))
  }

  /** `PaloAlto.recv`. */
  function PaloAltoRecv(m: MetaView, d: Value): (r: Result<Emission>)
    ensures r.Ok? <==> PaloAltoFormat.Recv(d).Ok?
    ensures r.Ok? ==> var o := PaloAltoFormat.Recv(d).value;
      r.value.data == Obj(o.record) && r.value.meta.tag == Some(o.tag)
      && r.value.meta.timestamp == (if o.stamp.Some? then Strptime(o.stamp.value, PaloAltoFormat.DateFormat) else m.timestamp)
    ensures r.Err? ==> r.error == PaloAltoFormat.Recv(d).error
  {
    var o :- PaloAltoFormat.Recv(d);
    var ts := if o.stamp.Some? then Strptime(o.stamp.value, PaloAltoFormat.DateFormat) else m.timestamp;
    Ok(Emission(m.(timestamp := ts, tag := Some(o.tag)), Obj(o.record)))
  }

  // ---------------------------------------------------------------------
  // Dispatch

  /** `recv` of a stage of kind `k`. A fetcher has no `recv`; every parser
      but CloudTrail's emits at most one record, and emits nothing when it
      raises. */
  function Recv(k: Kind, m: MetaView, d: Value, env: Env): (e: Emitted)
    ensures IsFetcher(k) ==> e == Emitted([], Some(NoSuchMethod("recv")))
    ensures !k.AwsCloudtrailEvent? ==> |e.outs| <= 1 && (e.fault.Some? ==> e.outs == [])
    ensures !IsFetcher(k) && !k.AwsCloudtrailEvent? && !k.AuditBeat? ==> (e.fault.None? <==> |e.outs| == 1)
  {
    if IsFetcher(k) then Emitted([], Some(NoSuchMethod("recv")))
    else if k.AwsCloudtrailEvent? then CloudTrailRecv(m, d, env)
    else if k.AuditBeat? then
      match AuditBeatRecv(m, d)
      case Err(x) => Emitted([], Some(x))
      case Ok(o) => if o.Some? then Emitted([o.value], None) else Emitted([], None)
    else Single(RecvOne(k, m, d, env))
  }

  /** The parsers that emit exactly one record unless they raise. */
  function RecvOne(k: Kind, m: MetaView, d: Value, env: Env): Result<Emission>
    requires !IsFetcher(k) && !k.AwsCloudtrailEvent? && !k.AuditBeat?
  {
    match k
    case Json => JsonRecv(m, d, env)
    case Syslog => SyslogRecv(m, d)
    case FluentdJson => FluentdRecv(m, d, env)
    case PaloAlto => PaloAltoRecv(m, d)
    case GSuiteLogin => GSuiteRecv(m, d)
    case AwsGuardDuty => GuardDutyRecv(m, d)
    case AzureAdAudit => VendorRecv(m, d, VendorField(k).0, VendorField(k).1)
    case AzureAdEvent => VendorRecv(m, d, VendorField(k).0, VendorField(k).1)
    case AzureAdRiskEvent => VendorRecv(m, d, VendorField(k).0, VendorField(k).1)
    case CylanceEvent => VendorRecv(m, d, VendorField(k).0, VendorField(k).1)
    case CylanceThreat => VendorRecv(m, d, VendorField(k).0, VendorField(k).1)
    case Kea => KeaRecv(m, d)
    case PacketBeat => PacketBeatRecv(m, d)
    case EcsHako => EcsHakoRecv(m, d)
    case FalconEventLog => FalconRecv(m, d)
  }

  // ---------------------------------------------------------------------
  // Fetchers

  /** The length of the first line of `b`, with its newline. */
  function LineLength(b: Bytes): (n: nat)
    ensures 0 < n <= |b| || (b == [] && n == 0)
    decreases |b|
  {
    if b == [] then 0 else if b[0] == 10 || |b| == 1 then 1 else 1 + LineLength(b[1..])
  }

  /** Iterating a file opened in binary mode: pieces that end after each
      newline byte, and a last piece without one. */
  function ByteLines(b: Bytes): (ls: seq<Bytes>)
    decreases |b|
  {
    if b == [] then [] else var n := LineLength(b); [b[..n]] + ByteLines(b[n..])
  }

  /** A record made from one line: only a `message`, with no trailing whitespace. */
  predicate LineRecord(v: Value) {
    v.Obj? && v.fields.Keys == {"message"} && v.fields["message"].Str?
    && (v.fields["message"].s == [] || !IsSpace(v.fields["message"].s[|v.fields["message"].s| - 1]))
  }

  /** `S3Lines.run`: one record per line that decodes, with fresh metadata
      and the line without trailing whitespace as its message. */
  function LineRecords(lines: seq<Bytes>, env: Env): (outs: seq<Emission>)
    ensures |outs| <= |lines|
    ensures forall i :: 0 <= i < |outs| ==> outs[i].meta == Fresh(env.now) && LineRecord(outs[i].data)
    decreases |lines|
  {
    if lines == [] then []
    else
      var prior := LineRecords(lines[..|lines| - 1], env);
      match env.decode(lines[|lines| - 1])
      case None => prior
      case Some(text) => prior + [Emission(Fresh(env.now), Obj(map["message" := Str(RStrip(text))]))]
  }

  /** `run` of a stage of kind `k` over the object's bytes: `s3-lines` emits
      a record per decodable line and never raises, `s3-text` emits the whole
      text, read with universal newlines, or raises when it does not decode,
      `ignore` emits nothing, and a parser has no `run`. */
  function Fetch(k: Kind, content: Bytes, env: Env): (e: Emitted)
    ensures k.S3Lines? ==> e.fault.None? && |e.outs| <= |ByteLines(content)|
    ensures k.S3TextFile? ==> (|e.outs| == 1 <==> env.decode(content).Some?)
    ensures k.S3TextFile? && env.decode(content).None? ==> e == Emitted([], Some(UnicodeDecodeError))
    ensures k.S3TextFile? && env.decode(content).Some? ==>
      e == Emitted([Emission(Fresh(env.now), Obj(map["message" := Str(Universal(env.decode(content).value))]))], None)
    ensures k.Ignore? ==> e == Emitted([], None)
    ensures !IsFetcher(k) ==> e == Emitted([], Some(NoSuchMethod("run")))
  {
    match k
    case S3Lines => Emitted(LineRecords(ByteLines(content), env), None)
    case S3TextFile =>
      (match env.decode(content)
       case None => Emitted([], Some(UnicodeDecodeError))
       case Some(text) => Emitted([Emission(Fresh(env.now), Obj(map["message" := Str(Universal(text))]))], None))
    case Ignore => Emitted([], None)
    case _ => Emitted([], Some(NoSuchMethod("run")))
  }

  // ---------------------------------------------------------------------
  // Properties

  /** The lines of a file put back together are the file; every line but
      the last ends with its only newline. */
  lemma {:induction false} ByteLinesJoin(b: Bytes)
    ensures Concat(ByteLines(b)) == b
    ensures forall i :: 0 <= i < |ByteLines(b)| ==> ByteLines(b)[i] != []
    ensures forall i :: 0 <= i < |ByteLines(b)| - 1 ==> ByteLines(b)[i][|ByteLines(b)[i]| - 1] == 10
    decreases |b|
  {
    if b != [] {
      var n := LineLength(b);
      LineEnd(b);
      ByteLinesJoin(b[n..]);
      assert b == b[..n] + b[n..];
      var ls := ByteLines(b);
      assert ls == [b[..n]] + ByteLines(b[n..]);
      assert ls[1..] == ByteLines(b[n..]);
      ConcatCons(ls);
      if b[n..] != [] { assert ls[0][n - 1] == 10; }
    }
  }

  lemma {:induction false} LineEnd(b: Bytes)
    requires b != []
    ensures LineLength(b) == |b| || b[LineLength(b) - 1] == 10
    decreases |b|
  {
    if !(b[0] == 10 || |b| == 1) {
      LineEnd(b[1..]);
    }
  }

  function Concat(ls: seq<Bytes>): Bytes
    decreases |ls|
  {
    if ls == [] then [] else ls[0] + Concat(ls[1..])
  }

  lemma ConcatCons(ls: seq<Bytes>)
    requires ls != []
    ensures Concat(ls) == ls[0] + Concat(ls[1..])
  {
  }

  /** Lines are read independently: an undecodable line is skipped and the
      lines after it are still read. */
  lemma {:induction false} LineRecordsAppend(a: seq<Bytes>, b: seq<Bytes>, env: Env)
    ensures LineRecords(a + b, env) == LineRecords(a, env) + LineRecords(b, env)
    decreases |b|
  {
    if b == [] {
      assert a + b == a;
    } else {
      var b' := b[..|b| - 1];
      LineRecordsAppend(a, b', env);
      assert (a + b)[..|a + b| - 1] == a + b';
    }
  }

  /** When every line decodes, there is one record per line, in order. */
  lemma {:induction false} LineRecordsAll(lines: seq<Bytes>, env: Env)
    requires forall i :: 0 <= i < |lines| ==> env.decode(lines[i]).Some?
    ensures |LineRecords(lines, env)| == |lines|
    ensures forall i :: 0 <= i < |lines| ==>
      LineRecords(lines, env)[i].data == Obj(map["message" := Str(RStrip(env.decode(lines[i]).value))])
    decreases |lines|
  {
    if lines != [] {
      var p := lines[..|lines| - 1];
      LineRecordsAll(p, env);
    }
  }

  /** The single-output product parsers: on a dict without the field their
      time comes from, they emit that dict once, tagged, with the timestamp
      unchanged. */
  lemma VendorKeepsStamp(k: Kind, m: MetaView, d: Value, env: Env)
    requires k.AzureAdAudit? || k.AzureAdEvent? || k.AzureAdRiskEvent? || k.CylanceEvent? || k.CylanceThreat?
    requires d.Obj? && VendorField(k).0 !in d.fields
    ensures Recv(k, m, d, env) == Emitted([Emission(m.(tag := Some(VendorField(k).1)), d)], None)
  {
    assert RecvOne(k, m, d, env) == VendorRecv(m, d, VendorField(k).0, VendorField(k).1);
  }

  lemma GSuiteKeepsStamp(m: MetaView, d: Value, env: Env)
    requires d.Obj? && "id" !in d.fields
    ensures Recv(GSuiteLogin, m, d, env) == Emitted([Emission(m.(tag := Some("gsuite.login")), d)], None)
  {
    assert Recv(GSuiteLogin, m, d, env) == Single(GSuiteRecv(m, d));
  }

  lemma EcsHakoKeepsStamp(m: MetaView, d: Value, env: Env)
    requires d.Obj? && "time" !in d.fields
    ensures Recv(EcsHako, m, d, env) == Emitted([Emission(m.(tag := Some("ecs.hako")), d)], None)
  {
    assert Recv(EcsHako, m, d, env) == Single(EcsHakoRecv(m, d));
  }

  lemma PacketBeatKeepsStamp(m: MetaView, d: Value, env: Env)
    requires d.Obj? && "@timestamp" !in d.fields && "type" in d.fields && d.fields["type"] != Str("dns")
    ensures Recv(PacketBeat, m, d, env) == Emitted([Emission(m.(tag := Some("packetbeat." + Show(d.fields["type"]))), d)], None)
  {
    assert Recv(PacketBeat, m, d, env) == Single(PacketBeatRecv(m, d));
  }

  /** The registry's names and the classes they make. */
  lemma RegistryKinds()
    ensures Registry["cylance"] == Registry["cylance-event"] == CylanceEvent
    ensures forall n :: n in Registry ==> !Registry[n].EcsHako?
  {
  }

  /** `Syslog.recv` on the line in the source's comment, with a message. */
  lemma SyslogExample(m: MetaView, env: Env)
    ensures var line := "Nov 21 06:00:24" + (" " + ("ip-172-31-7-118" + (" " + ("sshd" + ("[" + ("23511" + ("]:" + (" " + "test message"))))))));
      var f := SyslogFormat.Fields("Nov 21 06:00:24", "ip-172-31-7-118", "sshd", "23511", "test message");
      SyslogRecv(m, Obj(map["message" := Str(line)]))
      == Ok(Emission(m.(timestamp := Strptime("Nov 21 06:00:24", SyslogFormat.DateFormat)), SyslogFormat.ToRecord(f)))
  {
    SyslogFormat.ExampleLine();
  }

  /** A syslog line that does not match raises a ParseError and emits nothing. */
  lemma SyslogMismatch(m: MetaView, line: string, env: Env)
    requires SyslogFormat.Match(line).None?
    ensures Recv(Syslog, m, Obj(map["message" := Str(line)]), env) == Emitted([], Some(ParseError("not syslog format")))
  {
  }

  /** A fluentd line `time<TAB>tag<TAB>json` gives the tag, the `dateutil`
      time and the decoded record. */
  lemma FluentdLine(m: MetaView, d: Value, env: Env, t: string, g: string, j: string)
    requires '\t' !in t && '\t' !in g && '\t' !in j && env.loads(j).Some?
    requires d.Obj? && "message" in d.fields && d.fields["message"] == Str(t + "\t" + g + "\t" + j)
    ensures FluentdRecv(m, d, env) == Ok(Emission(m.(timestamp := Dateutil(t), tag := Some(g)), env.loads(j).value))
  {
    assert Join([t, g, j], '\t') == t + "\t" + g + "\t" + j by {
      assert Join([t, g, j][1..], '\t') == g + "\t" + j;
    }
    SplitJoin([t, g, j], '\t');
  }

  /** A Kea line laid out from well-formed groups whose message carries an
      address in the phrase of its event is stored with that address. */
  lemma KeaLine(m: MetaView, d: Value, f: KeaFormat.KeaFields, ws: string, rest: string, ip: string, tail: string)
    requires KeaFormat.WellFormed(f) && ws != [] && Scan.Spaces(ws) && (rest == [] || rest[0] == '\n')
    requires forall i :: 0 <= i < |f.clientId| ==> f.clientId[i] != ']'
    requires f.event in KeaFormat.Events && |KeaFormat.Events[f.event].1| > 0 && IsSpace(KeaFormat.Events[f.event].1[0])
    requires ip != [] && Scan.NonSpaces(ip)
    requires f.msg == KeaFormat.Events[f.event].0 + (ip + (KeaFormat.Events[f.event].1 + tail))
    requires d.Obj? && "message" in d.fields && d.fields["message"] == Str(KeaFormat.Layout(f, ws, rest))
    ensures KeaRecv(m, d) == Ok(Emission(m.(timestamp := Strptime(BeforeDot(f.datetime), KeaFormat.DateFormat), tag := Some("kea.log")),
                                         Obj(KeaFormat.Record(d.fields, f, ip))))
  {
    var e := KeaFormat.Events[f.event];
    KeaFormat.MatchExact(f, ws, rest);
    KeaFormat.SearchOf(e.0, ip, e.1, tail);
    assert KeaFormat.Address(f) == Some(ip);
    assert KeaFormat.Parse(KeaFormat.Layout(f, ws, rest)) == Ok((f, ip));
  }

  /** When every element of `Records` is well formed, CloudTrail emits
      exactly one record per element, in order, and does not raise. */
  lemma CloudTrailEach(m: MetaView, d: Value, env: Env)
    requires TrailArray(d, env).Ok?
    requires forall i :: 0 <= i < |TrailArray(d, env).value| ==> TrailRecord(m, TrailArray(d, env).value[i]).Ok?
    ensures var recs := TrailArray(d, env).value;
      CloudTrailRecv(m, d, env) == Emitted(seq(|recs|, i requires 0 <= i < |recs| => TrailRecord(m, recs[i]).value), None)
  {
    var recs := TrailArray(d, env).value;
    var e := CloudTrailRecv(m, d, env);
    assert e.fault.None?;
    assert e.outs == seq(|recs|, i requires 0 <= i < |recs| => TrailRecord(m, recs[i]).value);
  }

  /** An AuditBeat record with a kernel log and no `@timestamp`: one record
      tagged `auditbeat.kernel` whose message is `actor action thing by how`. */
  lemma AuditBeatKernel(m: MetaView, d: Value, actor: string, action: string, thing: string, how: string)
    requires d.Obj? && "@timestamp" !in d.fields
    requires var log := Lookup(Lookup(d, "audit"), "kernel");
      log.Obj? && Lookup(Lookup(log, "actor"), "primary") == Str(actor) && Lookup(log, "action") == Str(action)
      && Lookup(Lookup(log, "thing"), "primary") == Str(thing) && Lookup(log, "how") == Str(how)
    ensures AuditBeatRecv(m, d) ==
      Ok(Some(Emission(m.(tag := Some("auditbeat.kernel")), Obj(d.fields["message" := Str(actor + " " + action + " " + thing + " by " + how)]))))
  {
    var audit := Lookup(d, "audit");
    assert "kernel" in audit.fields;
    assert Truthy(audit);
    assert AuditLog(d, "kernel");
  }

  /** A Falcon event whose `timestamp` is the text of an integer and whose
      `RemoteAddressIP4` is set: the timestamp is that many milliseconds and
      the message is `name at aip to address`. */
  lemma FalconStamp(m: MetaView, d: Value, n: int, name: string, aip: string, target: string)
    requires d.Obj? && Lookup(d, "timestamp") == Str(IntToString(n))
    requires Lookup(d, "name") == Str(name) && Lookup(d, "aip") == Str(aip)
    requires Lookup(d, "RemoteAddressIP4") == Str(target) && target != []
    ensures FalconRecv(m, d) == Ok(Emission(m.(tag := Some("falcon"), timestamp := Millis(n)),
                                            Obj(d.fields["message" := Str(name + " at " + aip + " to " + target)])))
  {
    IntRoundTrip(n);
    assert IntToString(n) != [];
    assert FalconTarget(d) == Str(target);
  }
}
