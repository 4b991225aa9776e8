/** The PaloAlto firewall parser: one CSV line of a TRAFFIC or THREAT log
    becomes a record keyed by the log type's column names, with a one-line
    summary message. */
module PaloAlto {
  import opened Values
  import opened Text
  import Csv

  const TrafficColumns: seq<string> := [
    "Domain", "Receive Time", "Serial #", "Type", "Threat/Content Type",
    "Config Version", "Generate Time", "Source address",
    "Destination address", "NAT Source IP", "NAT Destination IP", "Rule",
    "Source User", "Destination User", "Application", "Virtual System",
    "Source Zone", "Destination Zone", "Inbound Interface",
    "Outbound Interface", "Log Action", "Time Logged", "Session ID",
    "Repeat Count", "Source Port", "Destination Port", "NAT Source Port",
    "NAT Destination Port", "Flags", "IP Protocol", "Action", "Bytes",
    "Bytes Sent", "Bytes Received", "Packets", "Start Time",
    "Elapsed Time (sec)", "Category", "Padding", "seqno", "actionflags",
    "Source Country", "Destination Country", "cpadding", "pkts_sent",
    "pkts_received", "session_end_reason", "dg_hier_level_1",
    "dg_hier_level_2", "dg_hier_level_3", "dg_hier_level_4", "vsys_name",
    "device_name", "action_source"
  ]

  const ThreatColumns: seq<string> := [
    "Domain", "Receive Time", "Serial #", "Type", "Threat/Content Type",
    "Config Version", "Generate Time", "Source address",
    "Destination address", "NAT Source IP", "NAT Destination IP", "Rule",
    "Source User", "Destination User", "Application", "Virtual System",
    "Source Zone", "Destination Zone", "Inbound Interface",
    "Outbound Interface", "Log Action", "Time Logged", "Session ID",
    "Repeat Count", "Source Port", "Destination Port", "NAT Source Port",
    "NAT Destination Port", "Flags", "IP Protocol", "Action", "URL",
    "Threat/Content Name", "Category", "Severity", "Direction", "seqno",
    "actionflags", "Source Country", "Destination Country", "cpadding",
    "contenttype", "pcap_id", "filedigest", "cloud", "url_idx",
    "user_agent", "filetype", "xff", "referer", "sender", "subject",
    "recipient", "reportid", "dg_hier_level_1", "dg_hier_level_2",
    "dg_hier_level_3", "dg_hier_level_4", "vsys_name", "device_name",
    "file_url"
  ]

  const ColumnMap: map<string, seq<string>> := map["TRAFFIC" := TrafficColumns, "THREAT" := ThreatColumns]
  const TagMap: map<string, string> := map["TRAFFIC" := "paloalto.traffic", "THREAT" := "paloalto.threat"]

  /** The timestamp format of the `Start Time` column. */
  const DateFormat: string := "%Y/%m/%d %H:%M:%S"

  /** The fields the summary message is made of, in order. */
  const SummaryKeys: seq<string> := [
    "Source address", "Source Port", "Destination address", "Destination Port",
    "IP Protocol", "Bytes Sent", "Bytes Received"
  ]

  /** What `recv` emits: the updated record, the tag it sets, and the text
      of `Start Time` when the timestamp is taken from it. */
  datatype Out = Out(record: map<string, Value>, tag: string, stamp: Option<string>)

  /** `d.update(dict(zip(cols, row)))`: the pairs are written left to right. */
  function Zip(d: map<string, Value>, cols: seq<string>, row: seq<string>): (r: map<string, Value>)
    requires |cols| == |row|
    decreases |cols|
  {
    if cols == [] then d else Zip(d[cols[0] := Str(row[0])], cols[1..], row[1..])
  }

  /** `data.get(k)` on a dict. */
  function Lookup(d: map<string, Value>, k: string): Value {
    if k in d then d[k] else Null
  }

  /** `'{0}:{1} => {2}:{3} ({4}), Sent {5} byte, Recv {6} byte'` over the
      summary fields. */
  function Summary(d: map<string, Value>): (r: string)
    ensures StartsWith(r, Show(Lookup(d, SummaryKeys[0])) + ":")
    ensures EndsWith(r, ", Recv " + Show(Lookup(d, SummaryKeys[6])) + " byte")
  {
    var p := seq(7, i requires 0 <= i < 7 => Show(Lookup(d, SummaryKeys[i])));
    var head := p[0] + ":";
    var mid := p[1] + " => " + p[2] + ":" + p[3] + " (" + p[4] + "), Sent " + p[5] + " byte";
    var tail := ", Recv " + p[6] + " byte";
    Affixes(head, mid, tail);
    head + (mid + tail)
  }

  lemma Affixes(a: string, b: string, c: string)
    ensures StartsWith(a + (b + c), a) && EndsWith(a + (b + c), c)
  {
    assert (a + (b + c))[..|a|] == a;
    assert a + (b + c) == (a + b) + c;
  }

  /** The summary message, with the threat name appended for THREAT logs. */
  function Message(d: map<string, Value>, kind: string): (r: string)
    ensures StartsWith(r, Summary(d))
    ensures kind != "THREAT" ==> r == Summary(d)
  {
    Summary(d) + if kind == "THREAT" then " " + Show(Lookup(d, "Threat/Content Name")) else ""
  }

  /** `data['URL'] = data['URL'].strip('"')` when the key is present. */
  function StripUrl(d: map<string, Value>): (r: Result<map<string, Value>>)
    ensures "URL" !in d ==> r == Ok(d)
    ensures "URL" in d ==> (r.Ok? <==> d["URL"].Str?)
    ensures r.Ok? ==> r.value.Keys == d.Keys && forall k :: k in d && k != "URL" ==> r.value[k] == d[k]
  {
    if "URL" in d then
      var u :- AsString(d["URL"], "strip");
      Ok(d["URL" := Str(StripChar(u, '"'))])
    else Ok(d)
  }

  /** The `Start Time` text when it is truthy; strptime needs a string. */
  function StartTime(d: map<string, Value>): (r: Result<Option<string>>)
    ensures r.Ok? && r.value.Some? ==> "Start Time" in d && d["Start Time"] == Str(r.value.value)
  {
    var v := Lookup(d, "Start Time");
    if Truthy(v) then var s :- AsString(v, "strptime"); Ok(Some(s)) else Ok(None)
  }

  /** The column list for a row, checked in the order `recv` checks. */
  function Columns(row: seq<string>): (r: Result<seq<string>>)
    ensures r.Ok? <==> |row| >= 4 && row[3] in ColumnMap && |row| == |ColumnMap[row[3]]|
    ensures r.Ok? ==> r.value == ColumnMap[row[3]]
    ensures |row| < 4 ==> r == Err(ParseError("No enough column"))
    ensures |row| >= 4 && row[3] !in ColumnMap ==> r == Err(ParseError("Unsupported log type"))
    ensures |row| >= 4 && row[3] in ColumnMap && |row| != |ColumnMap[row[3]]| ==> r == Err(ParseError("Column length is not matched"))
  {
    if |row| < 4 then Err(ParseError("No enough column"))
    else if row[3] !in ColumnMap then Err(ParseError("Unsupported log type"))
    else if |row| != |ColumnMap[row[3]]| then Err(ParseError("Column length is not matched"))
    else Ok(ColumnMap[row[3]])
  }

  /** The record `recv` builds from a row that passed the column checks. */
  function Build(d: map<string, Value>, msg: string, row: seq<string>, cols: seq<string>): (r: Result<Out>)
    requires |row| == |cols| >= 4 && row[3] in ColumnMap
  {
    var d1 := Zip(d, cols, row);
    var d2 :- StripUrl(d1);
    var stamp :- StartTime(d2);
    Ok(Out(d2["raw_message" := Str(msg)]["message" := Str(Message(d2, row[3]))], TagMap[row[3]], stamp))
  }

  /** The message text `recv` reads, when there is one. */
  function Line(data: Value): (r: Result<string>)
    ensures r.Ok? ==> data.Obj? && "message" in data.fields && data.fields["message"] == Str(r.value) && r.value != []
  {
    var mv :- Get(data, "message");
    if !Truthy(mv) then Err(ParseError("No \"message\"")) else AsString(mv, "write")
  }

  /** `PaloAlto.recv` up to its `emit`. */
  function Recv(data: Value): (r: Result<Out>)
    ensures r.Ok? ==> data.Obj? && "message" in data.fields && "raw_message" in r.value.record
                      && r.value.record["raw_message"] == data.fields["message"]
    ensures r.Ok? ==> r.value.tag == "paloalto.traffic" || r.value.tag == "paloalto.threat"
    ensures Line(data).Err? ==> r == Err(Line(data).error)
  {
    var msg :- Line(data);
    var row :- Csv.FirstRecord(msg);
    var cols :- Columns(row);
    var o :- Build(data.fields, msg, row, cols);
    BuildOk(data.fields, msg, row, cols);
    Ok(o)
  }

  // ---------------------------------------------------------------------
  // Properties

  lemma ColumnCounts()
    ensures |TrafficColumns| == 54 && |ThreatColumns| == 61
    ensures TagMap.Keys == ColumnMap.Keys == {"TRAFFIC", "THREAT"}
  {
  }

  /** Every column name becomes a key, the other keys are kept, and a column
      whose name does not come again later holds its cell. */
  lemma {:induction false} ZipKeys(d: map<string, Value>, cols: seq<string>, row: seq<string>)
    requires |cols| == |row|
    ensures Zip(d, cols, row).Keys == d.Keys + set i | 0 <= i < |cols| :: cols[i]
    ensures forall k :: k in d && k !in cols ==> Zip(d, cols, row)[k] == d[k]
    decreases |cols|
  {
    if cols != [] {
      ZipKeys(d[cols[0] := Str(row[0])], cols[1..], row[1..]);
      var a := set i | 0 <= i < |cols| :: cols[i];
      var b := set i | 0 <= i < |cols[1..]| :: cols[1..][i];
      assert a == {cols[0]} + b by {
        forall x | x in a ensures x in {cols[0]} + b {
          var i :| 0 <= i < |cols| && cols[i] == x;
          if i > 0 { assert cols[1..][i - 1] == x; }
        }
        forall x | x in b ensures x in a {
          var i :| 0 <= i < |cols[1..]| && cols[1..][i] == x;
          assert cols[i + 1] == x;
        }
      }
    }
  }

  lemma {:induction false} ZipAt(d: map<string, Value>, cols: seq<string>, row: seq<string>, i: nat)
    requires |cols| == |row| && i < |cols| && cols[i] !in cols[i + 1..]
    ensures cols[i] in Zip(d, cols, row) && Zip(d, cols, row)[cols[i]] == Str(row[i])
    decreases |cols|
  {
    if i == 0 {
      ZipKeys(d[cols[0] := Str(row[0])], cols[1..], row[1..]);
      assert cols[0] in cols[..1];
    } else {
      assert cols[1..][i - 1 + 1..] == cols[i + 1..];
      ZipAt(d[cols[0] := Str(row[0])], cols[1..], row[1..], i - 1);
    }
  }

  /** The error cases, in the order the parser checks them. */
  lemma RecvErrors(data: Value)
    ensures !data.Obj? ==> Recv(data).Err?
    ensures data.Obj? && !Truthy(Lookup(data.fields, "message")) ==> Recv(data) == Err(ParseError("No \"message\""))
    ensures data.Obj? && Truthy(Lookup(data.fields, "message")) && data.fields["message"].Str? ==>
      var row := Csv.FirstRecord(data.fields["message"].s);
      (row.Err? ==> Recv(data) == Err(row.error))
      && (row.Ok? && |row.value| < 4 ==> Recv(data) == Err(ParseError("No enough column")))
      && (row.Ok? && |row.value| >= 4 && row.value[3] != "TRAFFIC" && row.value[3] != "THREAT" ==>
            Recv(data) == Err(ParseError("Unsupported log type")))
      && (row.Ok? && |row.value| >= 4 && row.value[3] == "TRAFFIC" && |row.value| != 54 ==>
            Recv(data) == Err(ParseError("Column length is not matched")))
      && (row.Ok? && |row.value| >= 4 && row.value[3] == "THREAT" && |row.value| != 61 ==>
            Recv(data) == Err(ParseError("Column length is not matched")))
  {
  }

  /** What a successful build holds: every column name is a key,
      `raw_message` holds the line, the tag comes from the tag table, and a
      THREAT summary ends with the threat name. */
  lemma BuildOk(d: map<string, Value>, msg: string, row: seq<string>, cols: seq<string>)
    requires |row| == |cols| >= 4 && row[3] in ColumnMap && Build(d, msg, row, cols).Ok?
    ensures var o := Build(d, msg, row, cols).value;
      (forall c :: c in cols ==> c in o.record)
      && o.record["raw_message"] == Str(msg)
      && o.tag == TagMap[row[3]]
      && o.record["message"].Str?
      && (row[3] == "THREAT" ==> EndsWith(o.record["message"].s, " " + Show(Lookup(o.record, "Threat/Content Name"))))
  {
    var d1 := Zip(d, cols, row);
    ZipKeys(d, cols, row);
    forall c | c in cols ensures c in d1 {
      var i :| 0 <= i < |cols| && cols[i] == c;
    }
    var d2 := StripUrl(d1).value;
    assert d2.Keys == d1.Keys;
    var o := Build(d, msg, row, cols).value;
    assert o.record == d2["raw_message" := Str(msg)]["message" := Str(Message(d2, row[3]))];
    assert o.tag == TagMap[row[3]];
    if row[3] == "THREAT" {
      ThreatSuffix(d2);
      assert Lookup(o.record, "Threat/Content Name") == Lookup(d2, "Threat/Content Name");
    }
  }

  lemma ThreatSuffix(d: map<string, Value>)
    ensures EndsWith(Message(d, "THREAT"), " " + Show(Lookup(d, "Threat/Content Name")))
  {
    var m := Message(d, "THREAT");
    var t := " " + Show(Lookup(d, "Threat/Content Name"));
    assert m == Summary(d) + t;
    assert m[|m| - |t|..] == t;
  }

  /** A successful parse read a row with its log type's number of columns,
      and its output is the build from that row. */
  lemma RecvOk(data: Value)
    ensures Recv(data).Ok? ==> Line(data).Ok? && Csv.FirstRecord(Line(data).value).Ok?
    ensures Recv(data).Ok? ==> var row := Csv.FirstRecord(Line(data).value).value;
      |row| >= 4 && row[3] in ColumnMap && |row| == |ColumnMap[row[3]]|
      && Recv(data) == Build(data.fields, Line(data).value, row, ColumnMap[row[3]])
  {
  }

  /** After the update, a key holds its original value or a cell. */
  lemma {:induction false} ZipValue(d: map<string, Value>, cols: seq<string>, row: seq<string>, k: string)
    requires |cols| == |row| && k in Zip(d, cols, row)
    ensures Zip(d, cols, row)[k].Str? || (k in d && Zip(d, cols, row)[k] == d[k])
    decreases |cols|
  {
    if cols != [] {
      ZipValue(d[cols[0] := Str(row[0])], cols[1..], row[1..], k);
    }
  }

  /** Built from a row, each column whose name is not repeated later, other
      than `URL` (which is unquoted) and the two keys written last, holds its
      cell; the build fails only on a `URL` or `Start Time` that is not text. */
  lemma BuildCells(d: map<string, Value>, msg: string, row: seq<string>, cols: seq<string>)
    requires |row| == |cols| >= 4 && row[3] in ColumnMap
    requires "URL" in d ==> d["URL"].Str?
    requires "Start Time" in d ==> d["Start Time"].Str?
    ensures Build(d, msg, row, cols).Ok?
    ensures forall i :: 0 <= i < |cols| && cols[i] !in cols[i + 1..] && cols[i] !in {"URL", "message", "raw_message"} ==>
      cols[i] in Build(d, msg, row, cols).value.record && Build(d, msg, row, cols).value.record[cols[i]] == Str(row[i])
  {
    var d1 := Zip(d, cols, row);
    if "URL" in d1 { ZipValue(d, cols, row, "URL"); }
    if "Start Time" in d1 { ZipValue(d, cols, row, "Start Time"); }
    var d2 := StripUrl(d1).value;
    forall i | 0 <= i < |cols| && cols[i] !in cols[i + 1..] && cols[i] !in {"URL", "message", "raw_message"}
      ensures cols[i] in d2 && d2[cols[i]] == Str(row[i])
    {
      ZipAt(d, cols, row, i);
    }
  }

  /** A line written with minimal quoting from the cells of a TRAFFIC or
      THREAT row of the right width is parsed back into those cells: the
      parser builds its record from exactly that row. */
  lemma RowRoundTrip(d: map<string, Value>, fs: seq<string>)
    requires |fs| >= 4 && fs[3] in ColumnMap && |fs| == |ColumnMap[fs[3]]| && Csv.FieldsOk(fs)
    ensures var data := Obj(d["message" := Str(Csv.Row(fs))]);
      Recv(data) == Build(d["message" := Str(Csv.Row(fs))], Csv.Row(fs), fs, ColumnMap[fs[3]])
  {
    var msg := Csv.Row(fs);
    assert msg == Csv.Encode(fs[0]) + "," + Csv.Row(fs[1..]);
    Csv.RoundTrip(fs);
    var data := Obj(d["message" := Str(msg)]);
    assert Line(data) == Ok(msg);
    RecvSteps(data, msg, fs, ColumnMap[fs[3]]);
  }

  /** `recv` once each of its steps has succeeded. */
  lemma RecvSteps(data: Value, msg: string, row: seq<string>, cols: seq<string>)
    requires Line(data) == Ok(msg) && Csv.FirstRecord(msg) == Ok(row) && Columns(row) == Ok(cols)
    ensures data.Obj? && Recv(data) == Build(data.fields, msg, row, cols)
  {
  }
}
