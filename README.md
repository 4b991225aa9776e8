# slips, modelled in Dafny

slips is a log-processing pipeline for AWS Lambda. An S3 object notification
arrives, possibly wrapped in an SNS message. `event_pusher` routes each object
to the fast or slow Kinesis stream, or drops it, according to the routing
policies. `main` runs later. For each bucket and key it selects the longest
matching prefix rule from the bucket mapping. It builds the *stream* that rule
names: a fetcher (`s3-lines`, `s3-text`, `ignore`) followed by parsers. It
reads the object through that stream and hands every record, with its *meta
data* (tag, timestamp, source, message), to each handler. Each handler reports
a result. The `slips` command line and `slips.sam` package the code and write
the CloudFormation/SAM template that deploys these functions.

The project models the following parts:

- `slips/parser.py`. `MetaData`, `Task`, the three fetchers, every parser
  class, `Callback`, `Stream` and its factory table.
  - Modules `Meta`, `Parsers` and `Pipeline`.
  - `Syslog`, `Kea`, `PaloAlto` and `Csv` hold the regular expressions and the
    CSV reader these parsers use.
- `slips/main.py`. `create_parser` and `main` (module `Orchestrator`).
- `slips/event_pusher.py`. `routing` and `main` (module `EventPusher`).
- `slips/utils.py`. The S3, dead-letter and Kinesis event extractors and
  `escape_url` (module `Utils`).
- `slips/cli.py`. `choose`/`safe_lookup`, `fetch_file_path`, `search_pkg_dir`
  and the file filter of `pack_zip_file` (module `Cli`).
- `slips/sam.py`. The template builders and `build` (module `Sam`).
- `src/readonly.py`. The sample handler `MyTest` (module `ReadOnly`).

How the model is shaped:

- JSON values are `Values.Value`. Python exceptions are `Values.Error`, and an
  operation that can raise returns a `Result`.
- A parser's `recv` is a function of a value snapshot of the meta data and the
  record. It returns what it emits, in order, and the exception it ends with
  (`Parsers.Emitted`).
- The object graph the source mutates is heap state, proved against ghost
  specification functions (`Pipeline.Flow`, `FlowAll`, `Outcome`):
  - the task chain, with its `_dst` links, `_closed` flags and the callback's
    `_func`;
  - the stream;
  - the handler's counters.
- The meta data travels through the pipeline as a value (`Meta.MetaView`). The
  `MetaData` class in `Meta` models the object on its own: its copies and the
  `source` dict they share.
- `json.loads`, UTF-8 decoding, base64 decoding and the clock are parameters
  (`Parsers.Env`, a `b64` argument). The contents of S3 objects and the file
  system listings are arguments.
- Timestamps are symbolic: the epoch value, or the `strptime`, `dateutil` or
  millisecond text they come from.
- The regular expressions are written out as matchers. Each matcher selects the
  groups that Python's backtracking search selects: the greedy `\S+` groups,
  and the lazy client id of the Kea line. The one difference is `\d`: the
  matchers take it to be the ASCII digits (see "## Left out").

Behaviour the model reproduces as written:

- `get_kinesis_stream` (sam.py:241) checks only that the fast-stream key is
  present, so a deployment that names the fast stream and not the slow one
  fails at `.split` (`Sam.FastKeyQuirk`).
- `CylanceEvent` is registered under two names. `EcsHako` is not registered
  (`Parsers.RegistryKinds`).
- `S3Lines` skips an undecodable line and keeps reading (`Parsers.LineRecordsAppend`).
- `FluentdJson` raises `AssertionError` unless a line has exactly three
  tab-separated fields.
- `exclude_suffix` in `pack_zip_file` is matched against the *start* of an
  archive name, not its end.
- Further details of the code that the model keeps:
  - `FUCTORY_MAP` has no `ecs-hako` entry;
  - an empty stream description fails at `pipe`, not with a clear error;
  - routing policies are tried in order, and the first match wins even when its
    destination is `drop`.

## Model

| member | source | states |
|---|---|---|
| Meta.MetaData.constructor | slips/parser.py:21-37 | fresh meta data: no tag, the given clock value, a new empty source, no message |
| Meta.MetaData.Clone | slips/parser.py:29-35 | a copy takes tag, timestamp and message and shares (does not copy) the source dict |
| Meta.MetaData.Copy | slips/parser.py:39-41 | `copy()` returns a fresh object with the same view and the same source object |
| Meta.RetagCopy | slips/parser.py:39-41 | retagging a copy leaves the original's tag and view unchanged |
| Meta.WriteCopySource | slips/parser.py:29-35 | a write to a copy's source is seen through the original; its other fields stay |
| Pipeline.Task.Pipe | slips/parser.py:59-60 | `pipe` sets the destination and nothing else |
| Pipeline.Task.SetFunc | slips/parser.py:546-547 | `set_func` sets the callback function and nothing else |
| Pipeline.Task.Close | slips/parser.py:68-71 | closing a task closes it and every task downstream of it; links stay |
| Pipeline.Task.Emit | slips/parser.py:62-66 | emitting runs the rest of the chain: its fault is `Flow`'s fault and the handler counts `Flow`'s outputs; the last task emits to nobody |
| Pipeline.Task.Recv | slips/parser.py:148-151 | a task's `recv` runs its parser and pushes every output downstream until a fault, as `Flow` says |
| Pipeline.Task.EmitLines | slips/parser.py:111-118 | the S3Lines loop pushes each decoded line downstream and stops at the first downstream fault |
| Pipeline.Task.Run | slips/parser.py:82-138 | running the root fetcher yields `Outcome`: the handler's counts grow by the tags of its outputs |
| Pipeline.Names | slips/parser.py:590-593 | every name is in the factory table (else "No such parser"), mapped element by element |
| Pipeline.Resolve | slips/parser.py:584-602 | an empty description fails at `pipe`; otherwise the names are looked up |
| Pipeline.Stream.constructor | slips/parser.py:585-588 | a new stream has no tasks and a fresh callback with no function |
| Pipeline.Stream.Add | slips/parser.py:595-600 | a task is appended at the head of the chain and the chain stays linked |
| Pipeline.Stream.AddNamed | slips/parser.py:590-600 | a known name appends its class; an unknown one means `Names` fails |
| Pipeline.Stream.Close | slips/parser.py:602 | the head is linked to the callback exactly when the description resolves |
| Pipeline.NewStream | slips/parser.py:584-602 | `Stream(args)` succeeds iff `Resolve` does, with the resolved classes in order |
| Pipeline.Stream.Read | slips/parser.py:604-610 | reading gives `Outcome`'s fault, counts its outputs in the handler, and clears the callback after a clean read (it stays set when the read raises) |
| Pipeline.AddTagsCount | src/readonly.py:15-16 | after a run a tag's count has grown by the number of outputs carrying it |
| Pipeline.AddTagsSum | src/readonly.py:15-16 | the counts grow in total by the number of outputs |
| Pipeline.FlowAllAppend | slips/parser.py:62-66 | pushing `a + b` is pushing `a`, then `b` unless `a` raised |
| Pipeline.FlowAllSink | slips/parser.py:549-552 | with no parser left the callback receives each record unchanged |
| Pipeline.LinesOnly | slips/parser.py:103-120 | a bare `s3-lines` stream delivers every decodable line and never raises |
| Pipeline.RootKinds | slips/parser.py:82-138 | `ignore` emits nothing; a parser at the root has no `run` |
| Pipeline.FetcherInside | slips/parser.py:103-133 | a fetcher placed after the root has no `recv` |
| Pipeline.Flow | slips/parser.py:59-66 | with no stage left the record is delivered as it is; a stage that emits nothing passes on only its fault |
| Pipeline.FlowAll | slips/parser.py:62-66 | pushing no records delivers nothing and raises nothing |
| Pipeline.Outcome | slips/parser.py:82-138 | `ignore` yields nothing, a parser at the root has no `run`, an undecodable `s3-text` object raises UnicodeDecodeError |
| Parsers.JsonRecv | slips/parser.py:161-164 | succeeds iff `message` is text that decodes; emits the decoded value with the meta data unchanged |
| Parsers.SyslogRecv | slips/parser.py:189-198 | succeeds iff the message matches the syslog expression; emits its five groups with a `strptime` timestamp on a copy |
| Parsers.FluentdRecv | slips/parser.py:213-222 | with `dateutil` taken to accept every time, succeeds iff `message` is text of three tab fields whose third decodes: tag from field 2, `dateutil` timestamp from field 1, record decoded from field 3; no `message` raises KeyError, another field count AssertionError, bad JSON its decode error |
| Parsers.StampFrom | slips/parser.py:227-230 | an empty date keeps the timestamp; a text date becomes `strptime` of its prepared text; anything else raises |
| Parsers.VendorRecv | slips/parser.py:225-277 | Azure AD and Cylance: record unchanged, vendor tag, timestamp from the first 19 characters of the date field when present |
| Parsers.VendorKeepsStamp | slips/parser.py:225-277 | with no date field each vendor parser emits the record under its tag and keeps the timestamp |
| Parsers.GSuiteKeepsStamp | slips/parser.py:201-210 | with no `id`, one record tagged `gsuite.login` with the timestamp kept |
| Parsers.EcsHakoKeepsStamp | slips/parser.py:413-422 | with no `time`, one record tagged `ecs.hako` with the timestamp kept |
| Parsers.PacketBeatKeepsStamp | slips/parser.py:364-377 | with no `@timestamp` and a non-`dns` type, one unchanged record tagged by its type |
| Parsers.FluentdLine | slips/parser.py:213-222 | with `dateutil` taken to accept every time, a line `time<TAB>tag<TAB>json` without other tabs gives that tag, the `dateutil` time and the decoded record |
| Parsers.FalconStamp | slips/parser.py:522-537 | a `timestamp` that is the text of an integer n gives n milliseconds; a set `RemoteAddressIP4` is the target of the message |
| Parsers.AuditBeatKernel | slips/parser.py:380-399 | a kernel log with text fields and no `@timestamp` gives one `auditbeat.kernel` record whose message is `actor action thing by how` |
| Parsers.GSuiteRecv | slips/parser.py:201-210 | succeeds iff the record is a dict, its `id` (when present) a dict and a truthy `id.time` text; tag `gsuite.login`, record unchanged, timestamp `strptime` of the first 19 characters of `id.time` plus `+0000` (kept when falsy) |
| Parsers.EcsHakoRecv | slips/parser.py:413-422 | succeeds iff the record is a dict whose truthy `time` is text; tag `ecs.hako`, record unchanged, timestamp `strptime(time, "%Y-%m-%dT%H:%M:%SZ")`, kept when `time` is falsy |
| Parsers.GuardDutyRecv | slips/parser.py:309-312 | tag `aws.guardduty`, everything else unchanged |
| Parsers.PacketBeatRecv | slips/parser.py:364-377 | succeeds iff the record is a dict with `type` (else KeyError) and a truthy `@timestamp` is text; tag `packetbeat.` plus `str(type)`; timestamp from `@timestamp` up to its dot; a `dns` record gets `query from client_ip` as `message`, others are unchanged |
| Parsers.AuditBeatRecv | slips/parser.py:380-410 | succeeds iff the record is a dict, a truthy `@timestamp` is text and a truthy `audit` is a dict whose kernel log has dicts under `actor` and `thing`; emits iff `audit` is truthy; a kernel log gives `auditbeat.kernel` and `actor action thing by how`, else a file log gives `auditbeat.file` and `path is action (sha256)`, else `auditbeat.log` and the record unchanged |
| Parsers.FalconRecv | slips/parser.py:522-537 | succeeds iff the record is a dict whose truthy `timestamp` converts with `int()` (else that ValueError or TypeError); tag `falcon`, timestamp the millisecond value, `message` set to `name at aip to target` with the first truthy target field |
| Parsers.TrailArray | slips/parser.py:281-289 | succeeds iff `message` is non-empty text that decodes to a dict with a `Records` list, and yields that list; otherwise "No message", the decode error or "No Records array" |
| Parsers.TrailRecord | slips/parser.py:292-306 | succeeds iff the element is a dict whose `eventTime` (when present) is text and whose `userIdentity` (when present) is a dict; tag `aws.cloudtrail.` plus `str(eventType)`, timestamp from `eventTime`, `description` set to `eventType eventName by arn on sourceIPAddress` |
| Parsers.TrailRecords | slips/parser.py:291-306 | one emission per element, in order, until the first element that raises |
| Parsers.CloudTrailRecv | slips/parser.py:280-306 | a failed array check emits nothing and raises it; otherwise output i is `TrailRecord` of element i, there is one output per element unless an element raises, and then the fault is that element's error |
| Parsers.CloudTrailEach | slips/parser.py:280-306 | when every element is well formed there is exactly one output per element, in order, and no fault |
| Parsers.KeaRecv | slips/parser.py:325-361 | succeeds iff `message` is non-empty text that `Kea.Parse` accepts; then the groups and the address are stored, tag `kea.log`, timestamp from the group date; a falsy message raises "No message attribute" and a parse error propagates |
| Parsers.KeaLine | slips/parser.py:316-361 | a line laid out from well-formed groups, with the address in its event's phrase, is stored with those groups and that address |
| Parsers.PaloAltoRecv | slips/parser.py:469-519 | emits exactly what the PaloAlto row parser builds, or raises its error |
| Parsers.LineRecords | slips/parser.py:111-118 | every emitted line record is a fresh meta data with a text `message` |
| Parsers.LineRecordsAppend | slips/parser.py:111-118 | the lines of `a + b` are those of `a` then those of `b`, so a bad line never stops the read |
| Parsers.LineRecordsAll | slips/parser.py:111-118 | when every line decodes there is one record per line, holding the decoded text right-stripped |
| Parsers.ByteLinesJoin | slips/parser.py:111 | the file's lines are non-empty, end in a newline except perhaps the last, and concatenate to the file |
| Parsers.Fetch | slips/parser.py:103-138 | `s3-lines` never raises and emits at most one record per line; `s3-text` emits one record, its text with universal newlines, iff it decodes, else UnicodeDecodeError; `ignore` emits nothing; a parser has no `run` |
| Parsers.Recv | slips/parser.py:148-537 | a fetcher has no `recv`; every parser but CloudTrail emits at most one record and nothing when it raises; the single-record ones emit exactly one unless they raise |
| Parsers.FirstTruthy | slips/parser.py:530-533 | the index of the first truthy operand of an `or` chain, or of the last one when none is |
| Parsers.RegistryKinds | slips/parser.py:557-582 | `cylance` and `cylance-event` name the same class; no name builds EcsHako |
| Parsers.SyslogExample | slips/parser.py:175-187 | the example line in the code parses to its host, process, pid and message |
| Parsers.SyslogMismatch | slips/parser.py:176-178 | a line the expression rejects raises "not syslog format" |
| Values.Show | slips/parser.py:366-375 | `'{}'.format(v)`: text as it is, anything else as its `repr` |
| Values.Repr | slips/parser.py:366-375 | `repr`: None, True and False by name, text quoted, a list in brackets |
| Values.QuoteRepr | slips/parser.py:366-375 | a text repr is quoted with `"` exactly when the text holds `'` and no `"`, and with `'` otherwise |
| Values.PlainRepr | slips/parser.py:366-375 | a text of printable characters without single quotes or backslashes is shown between single quotes unchanged |
| Values.ReprList | slips/parser.py:366-375 | a list shows as the reprs of its items, separated by `, `, in brackets |
| Values.ShowListExample | slips/parser.py:366-375 | `['a', 1, None]` formats as that text |
| Values.ShowQuoteExample | slips/parser.py:366-375 | a list holding `it's` formats with double quotes |
| Values.IntOf | slips/parser.py:528 | `int(v)`: a number is itself, a bool 0 or 1, text converts iff stripped it is a base-10 literal (else ValueError), anything else raises TypeError |
| Values.IntRoundTrip | slips/parser.py:528 | `int(str(n)) == n` for every integer |
| Text.Universal | slips/parser.py:126-129 | universal newlines leave no `\r`, and never lengthen the text |
| Text.UniversalPlain | slips/parser.py:126-129 | a text without `\r` is read unchanged |
| Text.UniversalCrLf | slips/parser.py:126-129 | a `\r\n` is read as one `\n` |
| Syslog.Parse | slips/parser.py:174-187 | succeeds iff the expression matches; otherwise ParseError |
| Syslog.MatchExact | slips/parser.py:169-170 | a line laid out from well-formed groups yields exactly those groups |
| Syslog.ExampleLine | slips/parser.py:175 | the commented sample line yields the expected five groups |
| Kea.Match | slips/parser.py:316-318 | a match has well-formed groups and the line is laid out from them |
| Kea.MatchExact | slips/parser.py:316-318 | a line laid out from well-formed groups, with a client id containing no `]`, yields exactly those groups |
| Kea.CidSearchFirst | slips/parser.py:317 | the lazy client-id group is the shortest one after which the rest matches |
| Kea.Search | slips/parser.py:319-323 | the address found is a non-blank word that occurs with its surrounding text |
| Kea.SearchOf | slips/parser.py:319-323 | text starting with a phrase yields that phrase's address |
| Kea.Parse | slips/parser.py:332-350 | succeeds iff the line matches, its event is supported and the inner expression finds an address; each failure raises its own message ("Invalid format of kea message", "Not supported event of kea", "Regex is not matched") |
| Kea.Record | slips/parser.py:337-352 | the nine groups and `ipaddr` are written and every other key is kept |
| Csv.RoundTrip | slips/parser.py:478 | the first CSV record of a row encoded from acceptable fields is those fields |
| Csv.Step | slips/parser.py:478 | one character of the `_csv` reader: the saved fields only grow, by at most one; every error is a CSV error, and a character other than a line end after a line end is one |
| Csv.FirstRecord | slips/parser.py:478 | an empty message has no record; a NUL character raises "line contains NULL byte" |
| PaloAlto.RecvErrors | slips/parser.py:470-491 | each error: no message, too few columns, unsupported type, wrong column count (54 TRAFFIC, 61 THREAT) |
| PaloAlto.RecvOk | slips/parser.py:478-519 | success means the row has its log type's column count and the result is built from it |
| PaloAlto.BuildOk | slips/parser.py:493-518 | every column is a key, `raw_message` is the line, the tag comes from the type, THREAT appends the threat name |
| PaloAlto.BuildCells | slips/parser.py:493-501 | each column's cell is stored under its name, unless the name repeats later or is overwritten |
| PaloAlto.ColumnCounts | slips/parser.py:426-467 | TRAFFIC has 54 columns and THREAT 61; both tables have exactly these keys |
| PaloAlto.StripUrl | slips/parser.py:495-496 | only `URL` changes, and only when present |
| PaloAlto.Columns | slips/parser.py:480-491 | the column list for the row's type, or the matching ParseError |
| PaloAlto.RowRoundTrip | slips/parser.py:469-493 | a row encoded into `message` is read back and its cells land under its columns |
| PaloAlto.Recv | slips/parser.py:469-519 | success means a dict with a `message` that becomes `raw_message`, and a TRAFFIC or THREAT tag; a missing message raises its ParseError |
| PaloAlto.Summary | slips/parser.py:503-513 | the summary starts with the source address and a colon and ends with `, Recv <bytes received> byte` |
| PaloAlto.Message | slips/parser.py:503-516 | the message starts with the summary and is the summary for any type but THREAT |
| Orchestrator.Matching | slips/main.py:41 | exactly the rules whose prefix starts the key |
| Orchestrator.SortPermutes | slips/main.py:41-42 | sorting keeps every rule (a permutation) |
| Orchestrator.SortSorted | slips/main.py:41-42 | sorted by prefix length, longest first |
| Orchestrator.SelectLongest | slips/main.py:41-53 | the chosen rule has the longest matching prefix, and is the earliest of equal length (stable sort) |
| Orchestrator.Select | slips/main.py:35-46 | FormatError for an unknown or empty bucket and for no match; a chosen rule belongs to the bucket and matches |
| Orchestrator.CreateParser | slips/main.py:34-55 | succeeds iff a rule is selected and its format resolves, building that stream |
| Orchestrator.ReadEvents | slips/main.py:74-78 | every event is read in turn through its own stream; the handler counts all outputs until a fault |
| Orchestrator.EventOutcome | slips/main.py:74-78 | a failed rule selection emits nothing and raises; any output means a rule was selected and its format resolved |
| Orchestrator.RunHandler | slips/main.py:71-80 | one handler: bad arguments raise JSON errors; otherwise the result is its counts over all events |
| Orchestrator.RunWith | slips/main.py:69-84 | every handler reports under its name the counts of all outputs, when the arguments decode |
| Orchestrator.Run | slips/main.py:58-84 | `main` with the factory table: the same, for the classes each stream names |
| Orchestrator.ArgsText | slips/main.py:65 | missing or empty handler arguments become `{}` |
| Orchestrator.ReparsedArgs | slips/main.py:70-72 | the as-written loop decodes once per handler; the second turn decodes the first result, which must still be text |
| Orchestrator.HandlerArgs | slips/main.py:71 | every handler gets the decoded arguments |
| Orchestrator.ReparseFails | slips/main.py:70-72 | as written, a second handler re-decodes an already-decoded value and fails |
| Orchestrator.OneHandlerAgrees | slips/main.py:71 | with one handler the written and the intended readings agree |
| EventPusher.Routes | slips/event_pusher.py:38-42 | the route map is `fast`, `slow` and `drop` (to nothing) |
| EventPusher.Matches | slips/event_pusher.py:18-21 | a policy matches when its bucket and prefix, where given, agree with the event |
| EventPusher.Routing | slips/event_pusher.py:15-31 | no policies raises "No route"; a result is the route of a matching policy whose destination is a route |
| EventPusher.RoutingFirst | slips/event_pusher.py:15-29 | the first matching policy decides, through its destination's route |
| EventPusher.NoRoute | slips/event_pusher.py:31 | no matching policy raises "No route" |
| EventPusher.BadDest | slips/event_pusher.py:23-26 | a matching policy with an unknown destination raises "No destination" |
| EventPusher.DropSkipped | slips/event_pusher.py:49-52 | a `drop` route queues nothing |
| EventPusher.Dests | slips/event_pusher.py:48-49 | every event is routed, and the first routing error is the error |
| EventPusher.DestsFirstError | slips/event_pusher.py:48-49 | the error is the first failing event's |
| EventPusher.Enqueue | slips/event_pusher.py:48-55 | the queues are `Batches` of the routed events |
| EventPusher.BatchesQueues | slips/event_pusher.py:46-55 | exactly the used streams get a queue, holding their events in order |
| EventPusher.QueueMembers | slips/event_pusher.py:54-55 | each queued event is an input event routed there, stamped with `dest_stream` |
| EventPusher.Tagged | slips/event_pusher.py:54 | `dest_stream` is added and every other key is kept |
| EventPusher.Tally | slips/event_pusher.py:57-70 | each stream's count is its queue's length |
| EventPusher.Push | slips/event_pusher.py:48-75 | extraction and routing errors raise; otherwise the counts per stream of the routed events |
| Utils.ToS3Record | slips/utils.py:10-20 | the eight fields copied from the record and its `s3` part; a missing one raises KeyError |
| Utils.EventSource | slips/utils.py:25 | `eventSource` when truthy; otherwise, also when it is present but falsy, `EventSource`, and `None` when both are absent; a record that is not a dict raises |
| Utils.Records | slips/utils.py:24 | the `Records` list, or nothing when absent |
| Utils.S3Record1 | slips/utils.py:38-51 | an S3 record converts; an SNS record recurses into its message; other sources raise |
| Utils.S3Events | slips/utils.py:37-51 | every event yielded has exactly the eight S3 fields; an event that is not a dict raises, and one without `Records` yields nothing |
| Utils.S3Records | slips/utils.py:38-51 | every event yielded has exactly the eight S3 fields; no records yield nothing |
| Utils.DlqEvents | slips/utils.py:23-34 | pair i is `DlqRecord` of record i; one pair per record exactly when nothing raises, otherwise the fault is the first failing record's error; a bad `Records` raises before anything is yielded |
| Utils.DlqRecords | slips/utils.py:24-34 | pair i is `DlqRecord` of record i, and the fault is the error of the record after the last pair |
| Utils.DlqAll | slips/utils.py:24-34 | when every record is accepted, one pair per record, in order, and no fault |
| Utils.SnsExpands | slips/utils.py:42-45 | an SNS record yields exactly the S3 events of its decoded message |
| Utils.S3RecordsAppend | slips/utils.py:38-51 | the generator over `a + b` yields `a`'s events then `b`'s, stopping at a fault |
| Utils.S3RecordsDirect | slips/utils.py:46-48 | direct S3 records yield one converted record each |
| Utils.NoRecords | slips/utils.py:24 | an event without `Records` yields nothing from all three extractors |
| Utils.DlqRecord | slips/utils.py:25-34 | an SNS record gives `(json.loads(Message), MessageAttributes)`, with `'{}'` and `{}` for absent keys; a non-dict `Sns` raises at `get`, a non-text `Message` at `loads`, undecodable JSON its decode error; any other source raises "Unsupported event source" |
| Utils.DlqCount | slips/utils.py:23-34 | without a fault there is one pair per record |
| Utils.KinesisRecord | slips/utils.py:55-60 | records not from Kinesis or with a falsy `kinesis` are skipped; a Kinesis record gives `Some` of its payload exactly when `KinesisPayload` succeeds, and raises its error otherwise |
| Utils.KinesisPayload | slips/utils.py:59-60 | the JSON document of the base64 `data`; KeyError without `data`, TypeError for a non-dict part or non-text data, then the base64, UTF-8 and JSON decode errors in that order |
| Utils.FirstKinesisFault | slips/utils.py:55-60 | the position of the first record that raises: every record before it decodes |
| Utils.KinesisEvents | slips/utils.py:54-60 | the payloads of the records before the first one that raises, then that record's error; a bad `Records` raises before anything is yielded |
| Utils.KinesisRecords | slips/utils.py:55-60 | the payloads of the records before the first one that raises, then that record's error |
| Utils.KinesisFilter | slips/utils.py:54-60 | without a fault the extractor yields the Kinesis payloads in order |
| Utils.EscapeUrl | slips/utils.py:72-76 | empty becomes `(none)`; text becomes `Defanged(Bracketed(s))`, each `.` written `[.]` and then each `http` written `hxxp`, two characters longer per dot; a non-string raises |
| Utils.NoHttp | slips/utils.py:74 | replacing `http` leaves no occurrence of it |
| Utils.Bracketed | slips/utils.py:74 | every `.` of the result sits between `[` and `]` |
| Utils.BracketedIsReplace | slips/utils.py:74 | `Bracketed` is `replace(".", "[.]")` |
| Utils.BracketedLength | slips/utils.py:74 | bracketing adds two characters per dot |
| Utils.DefangedLength | slips/utils.py:74 | rewriting `http` as `hxxp` keeps the length |
| Utils.EscapePlain | slips/utils.py:72-74 | a text with no `.` and no `http` comes back unchanged |
| Cli.SafeLookup | slips/cli.py:42-48 | the loop computes `PathValue`: the value at the end of the path, or null at the first missing key |
| Cli.PathValue | slips/cli.py:42-48 | no keys gives the tree itself; a path into None, a bool or a number raises; a dict without the next key gives null |
| Cli.LookupFound | slips/cli.py:43-48 | when the whole path exists, the value at its end |
| Cli.LookupMissing | slips/cli.py:45 | a missing key gives null whatever follows it |
| Cli.Choose | slips/cli.py:50-55 | the truthy value from `func`, else the one from `base`, else an error; a result is always truthy |
| Cli.FetchFilePath | slips/cli.py:65-73 | the loop lists every file outside `__pycache__` with its archive name |
| Cli.DirEntries | slips/cli.py:68-71 | a cache directory contributes nothing; otherwise one entry per file |
| Cli.ArchiveNameBelow | slips/cli.py:71 | root, slash and archive name rebuild the path |
| Cli.SearchPkgDir | slips/cli.py:76-83 | the loop yields `PkgDirs`: one pair per sub-directory |
| Cli.PkgDirsOnly | slips/cli.py:77-83 | exactly the entries that are directories are yielded |
| Cli.PkgPairRoot | slips/cli.py:80-83 | an `.egg` directory is its own root; any other uses the package directory |
| Cli.ZipEntries | slips/cli.py:112-123 | the archive loop writes exactly `Kept` of the targets |
| Cli.PackEntries | slips/cli.py:99-123 | the archive receives `Kept` of every source directory's files, taken in order |
| Cli.Kept | slips/cli.py:112-123 | no more entries than were given, each one of them and none with an excluded name |
| Cli.KeptNames | slips/cli.py:113-123 | the written names are exactly the non-excluded names |
| Cli.KeptDistinct | slips/cli.py:114-116 | no name is written twice |
| Cli.KeptNotExcluded | slips/cli.py:117-119 | no excluded name is written |
| Cli.KeptFrom | slips/cli.py:113-123 | every written entry is a target that passed both tests |
| Cli.KeptFirst | slips/cli.py:113-123 | the first target with a given non-excluded name is written |
| ReadOnly.MyTest.constructor | src/readonly.py:10 | a new handler has empty counts |
| ReadOnly.MyTest.Recv | src/readonly.py:15-16 | `recv` increases the count of the meta data's tag by one |
| ReadOnly.MyTest.Result | src/readonly.py:18-19 | `result` returns the counts, which sum to the number of calls |
| ReadOnly.RecvCounts | src/readonly.py:15-16 | a call counts its own tag and leaves every other tag's count |
| ReadOnly.SumBump | src/readonly.py:16 | one call raises the total by one |
| Sam.EventPusher | slips/sam.py:45-60 | the pusher's role, handler, environment (both streams and the routing) and one SNS event per topic |
| Sam.TopicEvents | slips/sam.py:56-58 | succeeds iff every topic is a dict with a text `name` and an `arn` |
| Sam.TopicsKeyed | slips/sam.py:56-58 | the events are keyed exactly by the topics' names |
| Sam.TopicsLastWins | slips/sam.py:56-58 | of two topics with one name the later one is kept |
| Sam.Dispatcher | slips/sam.py:63-83 | function name, delay and region variables; batch size and delay default to 1 and 0 |
| Sam.VpcOf | slips/sam.py:108-112 | a VPC configuration exactly when both security groups and subnets are given |
| Sam.MainFunc | slips/sam.py:86-114 | memory 1024, dead-letter topic, handler path and arguments, and concurrency 5 unless given |
| Sam.Reporter | slips/sam.py:117-132 | the error table variable and the failed-main SNS event |
| Sam.Drain | slips/sam.py:135-142 | the error table variable and no events |
| Sam.GetKinesisStream | slips/sam.py:240-253 | with no fast-stream key a new stream; with it, the stream `ExistingStream` reads from the ARN under the key |
| Sam.ExistingStream | slips/sam.py:241-247 | an ARN whose sixth `:` field has a `/` names the stream after that `/` (up to the next one) and makes no resource; fewer fields or no `/` raises IndexError; a missing or non-text ARN raises at `.split` |
| Sam.ExistingStreamName | slips/sam.py:241-247 | an ARN `...:region:account:stream/name` names the stream `name` |
| Sam.FastKeyQuirk | slips/sam.py:241-246 | with the fast key but no slow key, `build` fails at `.split` |
| Sam.StreamsMade | slips/sam.py:273-281 | with no stream keys both streams are created with 48 hours and one shard |
| Sam.StreamLoop | slips/sam.py:278-281 | the loop yields `Streams` and their resources by label, or the first error |
| Sam.Backing | slips/sam.py:286-299 | the error table and topic are added when not given, and other resources are kept |
| Sam.ResourcesMade | slips/sam.py:286-322 | error table and topic exist iff not given; both streams and all six functions are present |
| Sam.BuildCode | slips/sam.py:257 | every function in the template carries the archive path as its code |
| Sam.Generator.Build | slips/sam.py:256-324 | `CodeUri` is set to the archive path, even when building fails, and the result is the template |
| Sam.SamConfig | slips/sam.py:256-324 | the template's version and transform, the description of `meta` or the default, and the errors of reading `meta` and the streams |
| Sam.Resources | slips/sam.py:286-322 | all six function labels hold their Lambda resources; any other Lambda comes from the backend or the streams |

## Left out

- Downloading from S3, gzip, temporary files and `os.walk`/`os.listdir`. The
  object contents, directory listings and `isdir` answers are arguments.
- Interpreting `json.loads`, `json.dumps`, UTF-8 and base64. `Env.loads` may
  return any value or fail.
- The meaning of `strptime`, `dateutil.parser.parse` and the float division
  of `int(ts) / 1000`. Timestamps are kept as the text and format they come
  from, or as the integer of milliseconds; `int()` itself is modelled
  (`Values.IntOf`). The year-1900
  date of an unyeared syslog stamp and its float arithmetic are not
  interpreted. `strptime` is never a cause of failure.
- Parsers.FluentdRecv and Parsers.FluentdLine: `dateutil.parser.parse` is
  never a cause of failure. An unparseable first field (the time of
  `"\tapp\t{}"`, say) raises in the source before `json.loads` runs, but
  the model succeeds with the symbolic `Dateutil` stamp, and when both the
  time and the JSON are bad the model reports the JSON decode error.
- `datetime.now()` in `MetaData`. The clock value is a parameter.
- Logging, `boto3` clients (`put_records`, KMS `encrypt`/`decrypt`),
  `load_handlers` (module import), `obj2yml`, `log_requests` and the CLI
  `Job` classes. None of them decides what the core computes.
- `dispatcher.py`, `reporter.py`, `drain.py`, `interface.py` and
  `test_helper.py` are not part of this model.
- `Pipeline.Flow`: a parser's output is handed on as values. Two stages writing
  the same meta data object in place is therefore not modelled. No parser
  emits one meta object twice, so nothing downstream can tell the difference.
  The aliasing of `source` between copies is modelled on its own in `Meta`.
  For the same reason `Syslog.recv`, which writes to a copy of the meta data,
  and the other parsers, which write to the object they are given, look alike.
- Dictionary key order, and so the order in which `event_pusher` sends its
  queues. The queues and counts are maps.
- `Csv.FirstRecord`: only the first record of the message is read, as
  `next(csv.reader(...))` does. The field-size limit of `_csv` is a constant.
- `Utils.S3Record1`: SNS nesting is bounded by a depth. Past the depth it
  raises `RecursionError`; this stands in for Python's recursion limit.
- `ReadOnly.MyTest.Setup` only logs its arguments, so it has no contract.
- `Orchestrator.Run` follows the intended reading of the handler arguments.
  Every handler is given the decoded text, where the loop at main.py:71
  decodes the previous handler's value.
- `EventPusher.Push` takes the routing policies already decoded. The batches
  are sent through no client.
- Syslog.Parse and Kea.Match: `\d` matches the ASCII digits only. In a `str`
  pattern Python's `\d` also matches the other Unicode decimal digits, so a
  syslog pid or a Kea date written with such digits is rejected here and
  accepted by Python.
- Parsers.SyslogRecv: inherits the ASCII-only `\d` of Syslog.Parse.
- Parsers.KeaRecv: inherits the ASCII-only `\d` of Kea.Match.
- Values.IntOf: the digits of an `int()` literal are the ASCII digits; Python
  also accepts the other Unicode decimal digits.
- Values.Show: a dict is shown as `{...}`, because its `repr` follows key
  insertion order, which a `map` does not keep. This reaches the tag of
  Parsers.PacketBeatRecv and Parsers.TrailRecord and the messages of
  Parsers.FalconRecv, Parsers.AuditBeatRecv, Parsers.TrailRecord and
  PaloAlto.Summary when the field they format holds a dict.
- Parsers.PacketBeatRecv: a dict-valued `type` or `query` is shown as `{...}`
  (see Values.Show).
- Parsers.TrailRecord: a dict-valued `eventType` or `userIdentity.arn` is shown
  as `{...}` (see Values.Show).
- Values.Value: JSON numbers are integers; a float such as `1.5` and its
  `str` are not modelled.
- Values.Repr: a character counts as unprintable when it is below U+0020, in
  U+007F-U+00A0 or U+00AD, and is written `\xHH`. Python's other unprintable
  characters (further Unicode separators and format characters, written
  `\uHHHH`) are kept as they are.
- Parsers.Fetch: `s3-text` reads in the locale encoding; the model decodes
  with the same `env.decode` as the UTF-8 lines of `s3-lines`, i.e. it takes
  the locale encoding to be UTF-8. The universal-newline translation is
  modelled (`Text.Universal`).
- Orchestrator.Select and Orchestrator.Run: the bucket mapping is a map from
  bucket to typed rules and an event is a typed record, so these failures of
  the source are not modelled: a rule without `prefix` (KeyError, main.py:41),
  a non-text prefix (TypeError from `startswith`), a `format` that is text
  (each character is looked up, "No such parser") or absent (KeyError,
  main.py:53), a mapping that is not a dict (AttributeError, main.py:35), and
  an event without `bucket_name` or `object_key` (KeyError, main.py:75-76).
- Orchestrator.RunWith and Orchestrator.Run: the handlers have distinct
  `module.Class` names. Two handlers with one name would make the later
  result replace the earlier one; that case needs two handlers, where the
  as-written `main` already fails at main.py:71.
- Values.Error: exceptions carry a fixed message without its formatted
  parts. `FormatError` does not name the bucket or key (main.py:39, 45-46),
  "No such parser" does not name the parser (parser.py:593), and "No
  destination" and "No route" do not name the policy or event
  (event_pusher.py:26, 31).
- Sam.TopicEvents: a topic name must be text. Python keys the events by any
  hashable name.
- Utils.KinesisRecord: the decoded base64 bytes are read as UTF-8 text before
  `json.loads`. The UTF-16 and UTF-32 detection of `json.loads` on bytes is
  not modelled.

## Findings

| source | as written | input that shows it | evidently intended | confidence | as-written member | corrected member |
|---|---|---|---|---|---|---|
| slips/main.py:71 | `handler_args = json.loads(handler_args)` inside the handler loop rebinds the text to the decoded value | two handlers and `HANDLER_ARGS='{}'`: the second turn calls `json.loads` on a dict and raises TypeError | every handler is set up with the arguments decoded from the original text | not executed; high for two or more handlers | Orchestrator.ReparseFails | Orchestrator.RunWith |
