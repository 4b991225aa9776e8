/** The metadata that travels with every record through the pipeline: its
    tag, its timestamp, the source dict and a message slot. A `MetaData` is
    an object; a copy takes over every attribute, so the copy's `source` is
    the same dict object as the original's. */
module Meta {
  import opened Values

  /** A timestamp, kept as the expression a parser derives it from: the
      date conversions themselves (`strptime`, `dateutil`, the local time
      zone) are not interpreted. */
  datatype Timestamp =
    | Clock(now: int)                       // int(datetime.now().timestamp())
    | Strptime(text: string, fmt: string)   // datetime.strptime(text, fmt).timestamp()
    | Dateutil(text: string)                // dateutil.parser.parse(text).timestamp()
    | Millis(ms: int)                       // ms / 1000, ms being `int()` of a field

  /** The attributes of a `MetaData` object at one moment. */
  datatype MetaView = MetaView(tag: Option<string>, timestamp: Timestamp, source: map<string, Value>, message: Option<Value>)

  /** The attributes of a `MetaData()` made at clock reading `now`. */
  function Fresh(now: int): MetaView {
    MetaView(None, Clock(now), map[], None)
  }

  /** A Python dict object, which several holders may share. */
  class SourceMap {
    var entries: map<string, Value>

    constructor ()
      ensures entries == map[]
    {
      entries := map[];
    }
  }

  class MetaData {
    var tag: Option<string>
    var timestamp: Timestamp
    var source: SourceMap
    var message: Option<Value>

    function View(): MetaView
      reads this, source
    {
      MetaView(tag, timestamp, source.entries, message)
    }

    /** `MetaData()`: every attribute takes its default, the timestamp from
        the clock reading passed in. */
    constructor (now: int)
      ensures fresh(source) && View() == Fresh(now)
    {
      tag := None;
      timestamp := Clock(now);
      source := new SourceMap();
      message := None;
    }

    /** `MetaData(orig)`: every attribute is taken over from `orig`. None of
        them can be a `set`, so none is cloned and the source dict is shared. */
    constructor Clone(orig: MetaData)
      ensures tag == orig.tag && timestamp == orig.timestamp && message == orig.message
      ensures source == orig.source
    {
      tag := orig.tag;
      timestamp := orig.timestamp;
      source := orig.source;
      message := orig.message;
    }

    /** `copy()`: a new object with the same attributes and the same source dict. */
    method Copy() returns (m: MetaData)
      ensures fresh(m) && m != this && m.source == source && m.View() == View()
    {
      m := new MetaData.Clone(this);
    }
  }

  /** Reassigning an attribute of a copy leaves the original as it was. */
  method RetagCopy(orig: MetaData, t: Option<string>) returns (m: MetaData)
    ensures fresh(m) && m.View() == orig.View().(tag := t)
    ensures orig.tag == old(orig.tag) && orig.View() == old(orig.View())
  {
    m := orig.Copy();
    m.tag := t;
  }

  /** A write into the source dict of a copy is seen through the original,
      because both hold the same dict. */
  method WriteCopySource(orig: MetaData, k: string, v: Value) returns (m: MetaData)
    modifies orig.source
    ensures fresh(m) && m.source == orig.source
    ensures orig.source.entries == old(orig.source.entries)[k := v]
    ensures orig.tag == old(orig.tag) && orig.timestamp == old(orig.timestamp) && orig.message == old(orig.message)
  {
    m := orig.Copy();
    m.source.entries := m.source.entries[k := v];
  }
}
