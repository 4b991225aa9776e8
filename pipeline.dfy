/** The task chain behind a `Stream`: a fetcher, the parsers it feeds, and
    the `Callback` task at the end that hands each record to the handler.
    Tasks are objects linked by their `dst` pointer; a record travels down
    the chain by `emit` calling the next task's `recv`.

    The meaning of a chain is given by `Flow`: the records the callback
    receives for one input, in order, and the exception that stops the
    walk, if any. The methods that walk the objects are proved to follow it. */
module Pipeline {
  import opened Values
  import opened Meta
  import opened Parsers
  import ReadOnly

  // ---------------------------------------------------------------------
  // Specification of a chain

  /** The `recv` method of one stage class. */
  type Receiver = (MetaView, Value, Env) -> Emitted

  /** The classes' `recv` methods, as `Stream` finds them through the
      class table. */
  type Table = Kind -> Receiver

  /** The table of this system: each class's `recv` is the parser of its kind. */
  function ReceiverOf(k: Kind): Receiver {
    (m: MetaView, d: Value, env: Env) => Parsers.Recv(k, m, d, env)
  }

  /** The `recv` methods of a list of stage classes. */
  function Receivers(table: Table, ks: seq<Kind>): (rs: seq<Receiver>)
    ensures |rs| == |ks| && forall j :: 0 <= j < |ks| ==> rs[j] == table(ks[j])
  {
    seq(|ks|, j requires 0 <= j < |ks| => table(ks[j]))
  }

  /** What the chain from stage `rs[0]` to the callback does with one record.
      A stage's outputs each travel the rest of the chain before the stage
      goes on; its own exception comes after them. */
  ghost function Flow(rs: seq<Receiver>, x: Emission, env: Env): (e: Emitted)
    ensures rs == [] ==> e == Emitted([x], None)
    ensures rs != [] && rs[0](x.meta, x.data, env).outs == [] ==> e == Emitted([], rs[0](x.meta, x.data, env).fault)
    decreases |rs|, 0, 0
  {
    if rs == [] then Emitted([x], None)
    else
      var e := rs[0](x.meta, x.data, env);
      var r := FlowAll(rs[1..], e.outs, env);
      if r.fault.Some? then r else Emitted(r.outs, e.fault)
  }

  /** Records sent one after another into the chain `ks`; the first
      exception ends the walk. */
  ghost function FlowAll(rs: seq<Receiver>, xs: seq<Emission>, env: Env): (e: Emitted)
    ensures xs == [] ==> e == Emitted([], None)
    decreases |rs|, 1, |xs|
  {
    if xs == [] then Emitted([], None)
    else
      var p := FlowAll(rs, xs[..|xs| - 1], env);
      if p.fault.Some? then p
      else
        var q := Flow(rs, xs[|xs| - 1], env);
        Emitted(p.outs + q.outs, q.fault)
  }

  /** `Stream.read`: the root, of class `root`, fetches; the stages after
      it parse. */
  ghost function Outcome(root: Kind, rs: seq<Receiver>, content: Bytes, env: Env): (e: Emitted)
    ensures root.Ignore? ==> e == Emitted([], None)
    ensures !IsFetcher(root) ==> e == Emitted([], Some(NoSuchMethod("run")))
    ensures root.S3TextFile? && env.decode(content).None? ==> e == Emitted([], Some(UnicodeDecodeError))
  {
    var e := Fetch(root, content, env);
    var r := FlowAll(rs, e.outs, env);
    if r.fault.Some? then r else Emitted(r.outs, e.fault)
  }

  /** The handler's counts after it has received `outs`. */
  function AddTags(m: map<Option<string>, nat>, outs: seq<Emission>): map<Option<string>, nat>
    decreases |outs|
  {
    if outs == [] then m
    else
      var p := AddTags(m, outs[..|outs| - 1]);
      var t := outs[|outs| - 1].meta.tag;
      p[t := ReadOnly.Count(p, t) + 1]
  }

  /** The number of records with tag `t`. */
  function Tagged(outs: seq<Emission>, t: Option<string>): nat
    decreases |outs|
  {
    if outs == [] then 0
    else Tagged(outs[..|outs| - 1], t) + (if outs[|outs| - 1].meta.tag == t then 1 else 0)
  }

  // ---------------------------------------------------------------------
  // Tasks

  /** What a task does with a record: run one stage class, or hand the
      record to the function set on a `Callback`. */
  datatype Role = Stage(kind: Kind, recv: Receiver) | Sink

  /** Tasks linked by `dst`, the last one with none. */
  ghost predicate Piped(chain: seq<Task>)
    reads chain
  {
    chain != [] && chain[|chain| - 1].dst == null
    && forall j :: 0 <= j < |chain| - 1 ==> chain[j].dst == chain[j + 1]
  }

  class Task {
    const role: Role
    var dst: Task?
    var closed: bool
    /** The function of a `Callback` task. */
    var func: ReadOnly.MyTest?

    constructor (role: Role)
      ensures this.role == role && dst == null && !closed && func == null
    {
      this.role := role;
      dst := null;
      closed := false;
      func := null;
    }

    /** `pipe(dst)`. */
    method Pipe(t: Task)
      modifies this
      ensures dst == t && closed == old(closed) && func == old(func)
    {
      dst := t;
    }

    /** `Callback.set_func(func)`. */
    method SetFunc(f: ReadOnly.MyTest?)
      modifies this
      ensures func == f && dst == old(dst) && closed == old(closed)
    {
      func := f;
    }

    /** `close()`: this task and every task after it are closed. */
    method Close(ghost chain: seq<Task>, ghost i: nat)
      requires Piped(chain) && i < |chain| && chain[i] == this
      modifies chain[i..]
      ensures forall j :: i <= j < |chain| ==> chain[j].closed
      ensures forall j :: 0 <= j < |chain| ==> chain[j].dst == old(chain[j].dst) && chain[j].func == old(chain[j].func)
      ensures forall j :: 0 <= j < |chain| ==> old(chain[j].closed) ==> chain[j].closed
      decreases |chain| - i
    {
      assert i + 1 < |chain| ==> chain[i].dst == chain[i + 1];
      closed := true;
      if dst != null {
        dst.Close(chain, i + 1);
        assert chain[i].closed;
      }
    }

    /** `emit(meta, data)`: the record goes to the next task, if there is one. */
    method Emit(ghost s: Stream, ghost i: nat, ghost h: ReadOnly.MyTest?, y: Emission, env: Env) returns (fault: Option<Error>)
      requires s.Valid() && i <= |s.tasks| && this == s.At(i)
      requires h == s.callback.func && (h != null ==> h.Valid())
      modifies h
      ensures i < |s.tasks| ==> fault == Flow(s.recvs[i + 1..], y, env).fault
      ensures i < |s.tasks| && h != null ==> h.Valid() && h.results == AddTags(old(h.results), Flow(s.recvs[i + 1..], y, env).outs)
      ensures i == |s.tasks| ==> fault.None? && (h != null ==> h.results == old(h.results))
      decreases |s.tasks| + 1 - i, 0
    {
      if dst != null {
        assert i + 1 < |s.tasks| ==> s.tasks[i].dst == s.tasks[i + 1];
        fault := dst.Recv(s, i + 1, h, y, env);
      } else {
        fault := None;
      }
    }

    /** `recv(meta, data)` of this task: a stage parses the record and emits
        what it made, one record at a time; the callback passes the record
        to its function. */
    method Recv(ghost s: Stream, ghost i: nat, ghost h: ReadOnly.MyTest?, x: Emission, env: Env) returns (fault: Option<Error>)
      requires s.Valid() && i <= |s.tasks| && this == s.At(i)
      requires h == s.callback.func && (h != null ==> h.Valid())
      modifies h
      ensures fault == Flow(s.recvs[i..], x, env).fault
      ensures h != null ==> h.Valid() && h.results == AddTags(old(h.results), Flow(s.recvs[i..], x, env).outs)
      decreases |s.tasks| + 1 - i, 2
    {
      if role.Sink? {
        assert i == |s.tasks| && s.recvs[i..] == [];
        assert [x][..0] == [];
        if func != null {
          func.Recv(x.meta.tag);
        }
        fault := None;
      } else {
        ghost var rs := s.recvs[i + 1..];
        assert s.tasks[i].role == Stage(s.kinds[i], s.recvs[i]);
        assert s.recvs[i..][0] == role.recv && s.recvs[i..][1..] == rs;
        var e := role.recv(x.meta, x.data, env);
        var j := 0;
        while j < |e.outs|
          invariant j <= |e.outs|
          invariant FlowAll(rs, e.outs[..j], env).fault.None?
          invariant h != null ==> h.Valid() && h.results == AddTags(old(h.results), FlowAll(rs, e.outs[..j], env).outs)
        {
          var f := EmitNext(s, i, h, e.outs, j, env, old(if h != null then h.results else map[]));
          if f.Some? {
            return f;
          }
          j := j + 1;
        }
        assert e.outs[..j] == e.outs;
        fault := e.fault;
      }
    }

    /** One turn of the loop in `Task.recv`: the stage's first `j` outputs
        have passed down the rest of the chain without an exception and
        output `j` is emitted next. */
    method EmitNext(ghost s: Stream, ghost i: nat, ghost h: ReadOnly.MyTest?, outs: seq<Emission>, j: nat, env: Env, ghost base: map<Option<string>, nat>)
      returns (f: Option<Error>)
      requires s.Valid() && i < |s.tasks| && this == s.At(i) && j < |outs|
      requires h == s.callback.func && (h != null ==> h.Valid())
      requires FlowAll(s.recvs[i + 1..], outs[..j], env).fault.None?
      requires h != null ==> h.results == AddTags(base, FlowAll(s.recvs[i + 1..], outs[..j], env).outs)
      modifies h
      ensures f == FlowAll(s.recvs[i + 1..], outs[..j + 1], env).fault
      ensures h != null ==> h.Valid() && h.results == AddTags(base, FlowAll(s.recvs[i + 1..], outs[..j + 1], env).outs)
      ensures f.Some? ==> FlowAll(s.recvs[i + 1..], outs, env) == FlowAll(s.recvs[i + 1..], outs[..j + 1], env)
      decreases |s.tasks| + 1 - i, 1
    {
      ghost var rs := s.recvs[i + 1..];
      f := Emit(s, i, h, outs[j], env);
      FlowAllStep(rs, outs, j, env);
      if h != null {
        AddTagsAppend(base, FlowAll(rs, outs[..j], env).outs, Flow(rs, outs[j], env).outs);
      }
      if f.Some? {
        FlowAllPrefix(rs, outs, j + 1, env);
      }
    }

    /** The loop of `S3Lines.run`: each line that decodes is emitted as a
        record of its own; a line that does not decode is skipped. */
    method EmitLines(ghost s: Stream, ghost h: ReadOnly.MyTest?, lines: seq<Bytes>, env: Env) returns (fault: Option<Error>)
      requires s.Valid() && this == s.root
      requires h == s.callback.func && (h != null ==> h.Valid())
      modifies h
      ensures fault == FlowAll(s.recvs[1..], LineRecords(lines, env), env).fault
      ensures h != null ==> h.Valid() && h.results == AddTags(old(h.results), FlowAll(s.recvs[1..], LineRecords(lines, env), env).outs)
    {
      ghost var rs := s.recvs[1..];
      var j := 0;
      while j < |lines|
        invariant j <= |lines|
        invariant FlowAll(rs, LineRecords(lines[..j], env), env).fault.None?
        invariant h != null ==> h.Valid() && h.results == AddTags(old(h.results), FlowAll(rs, LineRecords(lines[..j], env), env).outs)
      {
        var f := EmitLine(s, h, lines, j, env, old(if h != null then h.results else map[]));
        if f.Some? {
          return f;
        }
        j := j + 1;
      }
      assert lines[..j] == lines;
      fault := None;
    }

    /** One turn of the loop of `S3Lines.run`: the first `j` lines have
        passed down the chain without an exception and line `j` is next. */
    method EmitLine(ghost s: Stream, ghost h: ReadOnly.MyTest?, lines: seq<Bytes>, j: nat, env: Env, ghost base: map<Option<string>, nat>)
      returns (f: Option<Error>)
      requires s.Valid() && this == s.root && j < |lines|
      requires h == s.callback.func && (h != null ==> h.Valid())
      requires FlowAll(s.recvs[1..], LineRecords(lines[..j], env), env).fault.None?
      requires h != null ==> h.results == AddTags(base, FlowAll(s.recvs[1..], LineRecords(lines[..j], env), env).outs)
      modifies h
      ensures f == FlowAll(s.recvs[1..], LineRecords(lines[..j + 1], env), env).fault
      ensures h != null ==> h.Valid() && h.results == AddTags(base, FlowAll(s.recvs[1..], LineRecords(lines[..j + 1], env), env).outs)
      ensures f.Some? ==> FlowAll(s.recvs[1..], LineRecords(lines, env), env) == FlowAll(s.recvs[1..], LineRecords(lines[..j + 1], env), env)
    {
      LineStep(lines, j, env);
      var text := env.decode(lines[j]);
      if text.Some? {
        var y := Emission(Fresh(env.now), Obj(map["message" := Str(Text.RStrip(text.value))]));
        f := EmitAfter(s, h, y, env, LineRecords(lines[..j], env), base);
        if f.Some? {
          LinesPrefix(s.recvs[1..], lines, j + 1, env);
        }
      } else {
        f := None;
      }
    }

    /** The root emitting one more record `y` after the records `before`
        have passed down the chain without an exception. */
    method EmitAfter(ghost s: Stream, ghost h: ReadOnly.MyTest?, y: Emission, env: Env, ghost before: seq<Emission>, ghost base: map<Option<string>, nat>)
      returns (f: Option<Error>)
      requires s.Valid() && this == s.root
      requires h == s.callback.func && (h != null ==> h.Valid())
      requires FlowAll(s.recvs[1..], before, env).fault.None?
      requires h != null ==> h.results == AddTags(base, FlowAll(s.recvs[1..], before, env).outs)
      modifies h
      ensures f == FlowAll(s.recvs[1..], before + [y], env).fault
      ensures h != null ==> h.Valid() && h.results == AddTags(base, FlowAll(s.recvs[1..], before + [y], env).outs)
    {
      f := Emit(s, 0, h, y, env);
      FlowAllSnoc(s.recvs[1..], before, y, env);
      if h != null {
        AddTagsAppend(base, FlowAll(s.recvs[1..], before, env).outs, Flow(s.recvs[1..], y, env).outs);
      }
    }

    /** `run(s3_bucket, s3_key)` of the root task, over the object's bytes.
        Only the three fetcher classes have `run`. */
    method Run(ghost s: Stream, ghost h: ReadOnly.MyTest?, content: Bytes, env: Env) returns (fault: Option<Error>)
      requires s.Valid() && this == s.root
      requires h == s.callback.func && (h != null ==> h.Valid())
      modifies h
      ensures fault == Outcome(s.kinds[0], s.recvs[1..], content, env).fault
      ensures h != null ==> h.Valid() && h.results == AddTags(old(h.results), Outcome(s.kinds[0], s.recvs[1..], content, env).outs)
    {
      ghost var rs := s.recvs[1..];
      assert role == Stage(s.kinds[0], s.recvs[0]);
      if role.Stage? && role.kind == S3Lines {
        fault := EmitLines(s, h, ByteLines(content), env);
      } else if role.Stage? && role.kind == S3TextFile {
        var text := env.decode(content);
        if text.None? {
          fault := Some(UnicodeDecodeError);
        } else {
          var y := Emission(Fresh(env.now), Obj(map["message" := Str(Text.Universal(text.value))]));
          FlowAllSnoc(rs, [], y, env);
          assert [] + [y] == [y];
          assert FlowAll(rs, [y], env).outs == Flow(rs, y, env).outs;
          fault := Emit(s, 0, h, y, env);
        }
      } else if role.Stage? && role.kind == Ignore {
        fault := None;
      } else {
        fault := Some(NoSuchMethod("run"));
      }
    }
  }

  // ---------------------------------------------------------------------
  // Streams

  /** The stage names of a format list, or the exception `Stream(args)`
      raises for it: an unknown name, or an empty list (whose missing head
      has no `pipe`). */
  function Names(args: seq<string>): (r: Result<seq<Kind>>)
    ensures r.Ok? <==> forall j :: 0 <= j < |args| ==> args[j] in Registry
    ensures r.Ok? ==> |r.value| == |args| && forall j :: 0 <= j < |args| ==> r.value[j] == Registry[args[j]]
    ensures r.Err? ==> r.error == Failure("No such parser")
    decreases |args|
  {
    if args == [] then Ok([])
    else
      var ks :- Names(args[..|args| - 1]);
      var last := args[|args| - 1];
      if last !in Registry then Err(Failure("No such parser")) else Ok(ks + [Registry[last]])
  }

  function Resolve(args: seq<string>): (r: Result<seq<Kind>>)
    ensures args == [] ==> r == Err(TypeMismatch("pipe"))
    ensures args != [] ==> r == Names(args)
  {
    var ks :- Names(args);
    if ks == [] then Err(TypeMismatch("pipe")) else Ok(ks)
  }

  class Stream {
    var root: Task?
    var head: Task?
    const callback: Task
    /** The stage tasks, root first, and their classes. */
    ghost var tasks: seq<Task>
    ghost var kinds: seq<Kind>
    ghost var recvs: seq<Receiver>

    /** The task at position `i`, the callback counting as the last. */
    ghost function At(i: nat): Task
      reads this
      requires i <= |tasks|
    {
      if i < |tasks| then tasks[i] else callback
    }

    /** The chain while `__init__` is adding stages. */
    ghost predicate Building()
      reads this, tasks, callback
    {
      |kinds| == |tasks| == |recvs| && callback.role == Sink && callback.dst == null && callback !in tasks
      && (tasks == [] ==> root == null && head == null)
      && (tasks != [] ==> root == tasks[0] && head == tasks[|tasks| - 1] && head.dst == null)
      && (forall j :: 0 <= j < |tasks| ==> tasks[j].role == Stage(kinds[j], recvs[j]))
      && (forall j :: 0 <= j < |tasks| - 1 ==> tasks[j].dst == tasks[j + 1])
    }

    /** A built stream: the stages in order, the last one piped to the callback. */
    ghost predicate Valid()
      reads this, tasks, callback
    {
      |kinds| == |tasks| == |recvs| > 0 && callback.role == Sink && callback.dst == null && callback !in tasks
      && root == tasks[0] && head == tasks[|tasks| - 1] && head.dst == callback
      && (forall j :: 0 <= j < |tasks| ==> tasks[j].role == Stage(kinds[j], recvs[j]))
      && (forall j :: 0 <= j < |tasks| - 1 ==> tasks[j].dst == tasks[j + 1])
    }

    constructor ()
      ensures Building() && tasks == [] && kinds == [] && recvs == [] && fresh(callback) && callback.func == null
    {
      root := null;
      head := null;
      callback := new Task(Sink);
      tasks := [];
      kinds := [];
      recvs := [];
    }

    /** One iteration of the loop in `__init__`: a new task of class `k`,
        whose `recv` is `r`, after the current head. */
    method Add(k: Kind, r: Receiver)
      requires Building()
      modifies this, head
      ensures Building() && kinds == old(kinds) + [k] && recvs == old(recvs) + [r] && |tasks| == |old(tasks)| + 1
      ensures fresh(tasks[|tasks| - 1]) && tasks[..|tasks| - 1] == old(tasks)
      ensures callback.func == old(callback.func)
    {
      var t := new Task(Stage(k, r));
      if head != null {
        head.Pipe(t);
        head := t;
      } else {
        root := t;
        head := t;
      }
      tasks := tasks + [t];
      kinds := kinds + [k];
      recvs := recvs + [r];
    }

    /** One iteration of the loop in `__init__` with its lookup: the class
        named `args[j]` is found in the registry and its task added. */
    method AddNamed(args: seq<string>, j: nat, table: Table) returns (ok: bool)
      requires j < |args| && Building() && Names(args[..j]) == Ok(kinds) && recvs == Receivers(table, kinds)
      modifies this, head
      ensures ok <==> args[j] in Registry
      ensures !ok ==> Names(args) == Err(Failure("No such parser"))
      ensures ok ==> Building() && Names(args[..j + 1]) == Ok(kinds) && recvs == Receivers(table, kinds) && fresh(head)
      ensures callback.func == old(callback.func)
    {
      if args[j] !in Registry {
        NamesStop(args, j);
        return false;
      }
      var k := Registry[args[j]];
      NamesStep(args, j, kinds);
      ReceiversSnoc(table, kinds, k);
      Add(k, table(k));
      ok := true;
    }

    /** The end of `__init__` once every name is known: an empty list leaves
        no head to pipe from, otherwise the head is piped to the callback. */
    method Close(args: seq<string>, table: Table) returns (ok: bool)
      requires Building() && Names(args) == Ok(kinds) && recvs == Receivers(table, kinds)
      modifies head
      ensures ok <==> Resolve(args).Ok?
      ensures !ok ==> Resolve(args) == Err(TypeMismatch("pipe"))
      ensures ok ==> Valid() && kinds == Resolve(args).value && recvs == Receivers(table, kinds)
      ensures callback.func == old(callback.func)
    {
      if head == null {
        return false;
      }
      Finish();
      ok := true;
    }

    /** The last line of `__init__`: the head is piped to the callback. */
    method Finish()
      requires Building() && tasks != []
      modifies head
      ensures Valid() && kinds == old(kinds) && recvs == old(recvs) && tasks == old(tasks) && callback.func == old(callback.func)
    {
      head.Pipe(callback);
    }

    /** `read(s3_bucket, s3_key, callback)`: the handler receives every
        record the chain delivers; the function is reset unless the chain
        raised. */
    method Read(content: Bytes, h: ReadOnly.MyTest, env: Env) returns (fault: Option<Error>)
      requires Valid() && h.Valid()
      modifies callback, h
      ensures Valid() && tasks == old(tasks) && kinds == old(kinds) && recvs == old(recvs)
      ensures fault == Outcome(kinds[0], recvs[1..], content, env).fault
      ensures h.Valid() && h.results == AddTags(old(h.results), Outcome(kinds[0], recvs[1..], content, env).outs)
      ensures callback.func == if fault.None? then null else h
    {
      callback.SetFunc(h);
      fault := root.Run(this, h, content, env);
      if fault.None? {
        callback.SetFunc(null);
      }
    }
  }

  /** `Stream(args)`: the tasks of the named classes, piped in order to a
      callback without a function. */
  method NewStream(args: seq<string>, table: Table) returns (r: Result<Stream>)
    ensures r.Ok? <==> Resolve(args).Ok?
    ensures r.Err? ==> r.error == Resolve(args).error
    ensures r.Ok? ==> fresh(r.value) && fresh(r.value.callback) && r.value.Valid() && r.value.callback.func == null
    ensures r.Ok? ==> r.value.kinds == Resolve(args).value && r.value.recvs == Receivers(table, r.value.kinds)
  {
    var s := new Stream();
    var j := 0;
    while j < |args|
      invariant j <= |args| && s.Building() && s.callback.func == null && fresh(s) && fresh(s.callback)
      invariant s.head == null || fresh(s.head)
      invariant Names(args[..j]) == Ok(s.kinds) && s.recvs == Receivers(table, s.kinds)
    {
      var ok := s.AddNamed(args, j, table);
      if !ok {
        return Err(Failure("No such parser"));
      }
      j := j + 1;
    }
    assert args[..j] == args;
    var ok := s.Close(args, table);
    if !ok {
      return Err(TypeMismatch("pipe"));
    }
    r := Ok(s);
  }

  // ---------------------------------------------------------------------
  // Properties

  lemma NamesStop(args: seq<string>, j: nat)
    requires j < |args| && args[j] !in Registry
    ensures Names(args).Err?
  {
  }

  lemma NamesStep(args: seq<string>, j: nat, ks: seq<Kind>)
    requires j < |args| && args[j] in Registry && Names(args[..j]) == Ok(ks)
    ensures Names(args[..j + 1]) == Ok(ks + [Registry[args[j]]])
  {
    assert args[..j + 1][..j] == args[..j];
  }

  lemma ReceiversSnoc(table: Table, ks: seq<Kind>, k: Kind)
    ensures Receivers(table, ks + [k]) == Receivers(table, ks) + [table(k)]
  {
    assert forall j :: 0 <= j < |ks| ==> (ks + [k])[j] == ks[j];
  }

  /** One more record into a chain that has not raised yet. */
  /** One more line adds at most its own record. */
  lemma LineStep(lines: seq<Bytes>, j: nat, env: Env)
    requires j < |lines|
    ensures env.decode(lines[j]).None? ==> LineRecords(lines[..j + 1], env) == LineRecords(lines[..j], env)
    ensures env.decode(lines[j]).Some? ==>
      LineRecords(lines[..j + 1], env)
      == LineRecords(lines[..j], env) + [Emission(Fresh(env.now), Obj(map["message" := Str(Text.RStrip(env.decode(lines[j]).value))]))]
  {
    assert lines[..j + 1][..j] == lines[..j];
  }

  lemma FlowAllSnoc(rs: seq<Receiver>, xs: seq<Emission>, y: Emission, env: Env)
    requires FlowAll(rs, xs, env).fault.None?
    ensures FlowAll(rs, xs + [y], env) == Emitted(FlowAll(rs, xs, env).outs + Flow(rs, y, env).outs, Flow(rs, y, env).fault)
  {
    assert (xs + [y])[..|xs|] == xs;
  }

  lemma FlowAllStep(rs: seq<Receiver>, xs: seq<Emission>, j: nat, env: Env)
    requires j < |xs| && FlowAll(rs, xs[..j], env).fault.None?
    ensures FlowAll(rs, xs[..j + 1], env) == Emitted(FlowAll(rs, xs[..j], env).outs + Flow(rs, xs[j], env).outs, Flow(rs, xs[j], env).fault)
  {
    assert xs[..j + 1] == xs[..j] + [xs[j]];
    FlowAllSnoc(rs, xs[..j], xs[j], env);
  }

  /** Once a record raises, the records after it are never read. */
  lemma FlowAllPrefix(rs: seq<Receiver>, xs: seq<Emission>, n: nat, env: Env)
    requires n <= |xs| && FlowAll(rs, xs[..n], env).fault.Some?
    ensures FlowAll(rs, xs, env) == FlowAll(rs, xs[..n], env)
  {
    FlowAllAppend(rs, xs[..n], xs[n..], env);
    assert xs[..n] + xs[n..] == xs;
  }

  lemma LinesPrefix(rs: seq<Receiver>, lines: seq<Bytes>, n: nat, env: Env)
    requires n <= |lines| && FlowAll(rs, LineRecords(lines[..n], env), env).fault.Some?
    ensures FlowAll(rs, LineRecords(lines, env), env) == FlowAll(rs, LineRecords(lines[..n], env), env)
  {
    LineRecordsAppend(lines[..n], lines[n..], env);
    assert lines[..n] + lines[n..] == lines;
    FlowAllAppend(rs, LineRecords(lines[..n], env), LineRecords(lines[n..], env), env);
  }

  /** The handler's counts grow record by record. */
  lemma {:induction false} AddTagsAppend(m: map<Option<string>, nat>, a: seq<Emission>, b: seq<Emission>)
    ensures AddTags(m, a + b) == AddTags(AddTags(m, a), b)
    decreases |b|
  {
    if b == [] {
      assert a + b == a;
    } else {
      AddTagsAppend(m, a, b[..|b| - 1]);
      assert (a + b)[..|a + b| - 1] == a + b[..|b| - 1];
    }
  }

  /** `MyTest`'s result: each tag counts the records that carried it. */
  lemma {:induction false} AddTagsCount(m: map<Option<string>, nat>, outs: seq<Emission>, t: Option<string>)
    ensures ReadOnly.Count(AddTags(m, outs), t) == ReadOnly.Count(m, t) + Tagged(outs, t)
    decreases |outs|
  {
    if outs != [] {
      AddTagsCount(m, outs[..|outs| - 1], t);
    }
  }

  /** The counts add up to the number of records received. */
  lemma {:induction false} AddTagsSum(m: map<Option<string>, nat>, outs: seq<Emission>)
    ensures ReadOnly.Sum(AddTags(m, outs)) == ReadOnly.Sum(m) + |outs|
    decreases |outs|
  {
    if outs != [] {
      var p := AddTags(m, outs[..|outs| - 1]);
      AddTagsSum(m, outs[..|outs| - 1]);
      ReadOnly.SumBump(p, outs[|outs| - 1].meta.tag);
    }
  }

  /** A chain of no stages delivers its records unchanged. */
  lemma {:induction false} FlowAllSink(xs: seq<Emission>, env: Env)
    ensures FlowAll([], xs, env) == Emitted(xs, None)
    decreases |xs|
  {
    if xs != [] {
      FlowAllSink(xs[..|xs| - 1], env);
      assert xs[..|xs| - 1] + [xs[|xs| - 1]] == xs;
    }
  }

  /** Records are independent: the walk over `a + b` is the walk over `a`
      followed, unless it raised, by the walk over `b`. */
  lemma {:induction false} FlowAllAppend(rs: seq<Receiver>, a: seq<Emission>, b: seq<Emission>, env: Env)
    ensures FlowAll(rs, a, env).fault.Some? ==> FlowAll(rs, a + b, env) == FlowAll(rs, a, env)
    ensures FlowAll(rs, a, env).fault.None? ==>
      FlowAll(rs, a + b, env) == Emitted(FlowAll(rs, a, env).outs + FlowAll(rs, b, env).outs, FlowAll(rs, b, env).fault)
    decreases |b|
  {
    if b == [] {
      assert a + b == a;
    } else {
      var b' := b[..|b| - 1];
      FlowAllAppend(rs, a, b', env);
      assert (a + b)[..|a + b| - 1] == a + b';
      assert (a + b)[|a + b| - 1] == b[|b| - 1];
    }
  }

  /** A stream that is only `s3-lines` hands the handler one record per
      line that decodes. */
  lemma LinesOnly(content: Bytes, env: Env)
    ensures Outcome(S3Lines, [], content, env) == Emitted(LineRecords(ByteLines(content), env), None)
  {
    FlowAllSink(LineRecords(ByteLines(content), env), env);
  }

  /** A stream rooted at `ignore` delivers nothing; one rooted at a parser
      raises because a parser has no `run`. */
  lemma RootKinds(root: Kind, rs: seq<Receiver>, content: Bytes, env: Env)
    ensures root == Ignore ==> Outcome(root, rs, content, env) == Emitted([], None)
    ensures !IsFetcher(root) ==> Outcome(root, rs, content, env) == Emitted([], Some(NoSuchMethod("run")))
  {
  }

  /** A fetcher placed after the root raises: it has no `recv`. */
  lemma FetcherInside(k: Kind, rs: seq<Receiver>, x: Emission, env: Env)
    requires IsFetcher(k)
    ensures Flow([ReceiverOf(k)] + rs, x, env) == Emitted([], Some(NoSuchMethod("recv")))
  {
    assert ([ReceiverOf(k)] + rs)[1..] == rs;
  }
}
