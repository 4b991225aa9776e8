/** The helpers of `slips.cli` that decide what a deployment uses: nested
    configuration lookups with a fallback, and which files go into the
    Lambda archive under which names. The file system appears as listings
    passed in. */
module Cli {
  import opened Values
  import opened Text

  // ---------------------------------------------------------------------
  // safe_lookup and choose

  /** What `safe_lookup(c, keys)` returns: the value at the end of the key
      path, or None (JSON null) as soon as a key is not in the container it
      is looked up in. */
  function PathValue(c: Value, keys: seq<string>): (r: Result<Value>)
    ensures keys == [] ==> r == Ok(c)
    ensures keys != [] && (c.Null? || c.Bool? || c.Num?) ==> r.Err?
    ensures keys != [] && c.Obj? && keys[0] !in c.fields ==> r == Ok(Null)
    decreases |keys|
  {
    if keys == [] then Ok(c)
    else
      var present :- Contains(c, keys[0]);
      if !present then Ok(Null)
      else
        var next :- Item(c, keys[0]);
        PathValue(next, keys[1..])
  }

  /** `safe_lookup(c, keys)`. */
  method SafeLookup(c: Value, keys: seq<string>) returns (r: Result<Value>)
    ensures r == PathValue(c, keys)
  {
    var v := c;
    var j := 0;
    while j < |keys|
      invariant j <= |keys| && PathValue(c, keys) == PathValue(v, keys[j..])
    {
      assert keys[j..][1..] == keys[j + 1..];
      var present := Contains(v, keys[j]);
      if present.Err? {
        return Err(present.error);
      }
      if !present.value {
        return Ok(Null);
      }
      var next := Item(v, keys[j]);
      if next.Err? {
        return Err(next.error);
      }
      v := next.value;
      j := j + 1;
    }
    return Ok(v);
  }

  /** `choose(func, base, key_set)`: the value found in `func` when it is
      truthy, otherwise the one found in `base`; both lookups are made
      first, and when neither value is truthy there is nothing to use. */
  method Choose(func: Value, base: Value, keys: seq<string>) returns (r: Result<Value>)
    ensures PathValue(func, keys).Err? ==> r == PathValue(func, keys)
    ensures PathValue(func, keys).Ok? && PathValue(base, keys).Err? ==> r == PathValue(base, keys)
    ensures PathValue(func, keys).Ok? && PathValue(base, keys).Ok? ==>
      r == (if Truthy(PathValue(func, keys).value) then PathValue(func, keys)
            else if Truthy(PathValue(base, keys).value) then PathValue(base, keys)
            else Err(Failure("No available value")))
    ensures r.Ok? ==> Truthy(r.value)
  {
    var fv := SafeLookup(func, keys);
    if fv.Err? {
      return fv;
    }
    var bv := SafeLookup(base, keys);
    if bv.Err? {
      return bv;
    }
    if !Truthy(fv.value) && !Truthy(bv.value) {
      return Err(Failure("No available value"));
    }
    r := if Truthy(fv.value) then fv else bv;
  }

  // ---------------------------------------------------------------------
  // fetch_file_path

  /** `os.path.join(a, b)`. */
  function PathJoin(a: string, b: string): (p: string)
    ensures EndsWith(p, b)
  {
    if StartsWith(b, "/") then b
    else if a == [] || EndsWith(a, "/") then a + b
    else a + "/" + b
  }

  /** One directory that `os.walk` visits: its path and the files in it. */
  datatype Dir = Dir(root: string, files: seq<string>)

  /** A file of the archive: where it is on disk and its name inside. */
  type Entry = (string, string)

  /** The archive name of a file: its path without the first
      `len(root_dir) + 1` characters. */
  function ArchiveName(fpath: string, rootDir: string): string {
    DropClamped(fpath, |rootDir| + 1)
  }

  predicate IsCache(root: string) {
    EndsWith(root, "/__pycache__")
  }

  /** The entries of the files of one visited directory. */
  function DirEntries(d: Dir, rootDir: string): (es: seq<Entry>)
    ensures IsCache(d.root) ==> es == []
    ensures !IsCache(d.root) ==> |es| == |d.files|
    ensures !IsCache(d.root) ==> forall i :: 0 <= i < |d.files| ==>
      es[i].0 == PathJoin(d.root, d.files[i]) && es[i].1 == ArchiveName(es[i].0, rootDir)
  {
    if IsCache(d.root) then []
    else seq(|d.files|, i requires 0 <= i < |d.files| => (PathJoin(d.root, d.files[i]), ArchiveName(PathJoin(d.root, d.files[i]), rootDir)))
  }

  /** What `fetch_file_path` returns for the directories `os.walk` visits. */
  function FileEntries(walk: seq<Dir>, rootDir: string): seq<Entry>
    decreases |walk|
  {
    if walk == [] then [] else FileEntries(walk[..|walk| - 1], rootDir) + DirEntries(walk[|walk| - 1], rootDir)
  }

  /** `fetch_file_path(dpath, root_dir)`, given what `os.walk(dpath)` visits. */
  method FetchFilePath(walk: seq<Dir>, rootDir: string) returns (tf: seq<Entry>)
    ensures tf == FileEntries(walk, rootDir)
  {
    tf := [];
    var i := 0;
    while i < |walk|
      invariant i <= |walk| && tf == FileEntries(walk[..i], rootDir)
    {
      assert walk[..i + 1][..i] == walk[..i];
      tf := AddFiles(tf, walk[i], rootDir);
      i := i + 1;
    }
    assert walk[..i] == walk;
  }

  /** The inner loop of `fetch_file_path`, over the files of one visited
      directory: nothing is added from a `__pycache__` directory. */
  method AddFiles(before: seq<Entry>, d: Dir, rootDir: string) returns (tf: seq<Entry>)
    ensures tf == before + DirEntries(d, rootDir)
  {
    tf := before;
    var k := 0;
    while k < |d.files|
      invariant k <= |d.files|
      invariant IsCache(d.root) ==> tf == before
      invariant !IsCache(d.root) ==> tf == before + DirEntries(d, rootDir)[..k]
    {
      if !IsCache(d.root) {
        var fpath := PathJoin(d.root, d.files[k]);
        DirEntriesStep(d, rootDir, k);
        tf := tf + [(fpath, ArchiveName(fpath, rootDir))];
      }
      k := k + 1;
    }
    DirEntriesAll(d, rootDir);
  }

  lemma DirEntriesStep(d: Dir, rootDir: string, k: nat)
    requires !IsCache(d.root) && k < |d.files|
    ensures DirEntries(d, rootDir)[..k + 1] == DirEntries(d, rootDir)[..k] + [(PathJoin(d.root, d.files[k]), ArchiveName(PathJoin(d.root, d.files[k]), rootDir))]
  {
    var es := DirEntries(d, rootDir);
    assert es[..k + 1] == es[..k] + [es[k]];
  }

  lemma DirEntriesAll(d: Dir, rootDir: string)
    ensures !IsCache(d.root) ==> DirEntries(d, rootDir)[..|d.files|] == DirEntries(d, rootDir)
    ensures IsCache(d.root) ==> DirEntries(d, rootDir) == []
  {
  }

  // ---------------------------------------------------------------------
  // search_pkg_dir

  /** The pair `search_pkg_dir` yields for an entry that is a directory. */
  function PkgPair(pkgDir: string, name: string): Entry {
    var fpath := PathJoin(pkgDir, name);
    if EndsWith(fpath, ".egg") then (fpath, fpath) else (fpath, pkgDir)
  }

  /** What `search_pkg_dir(pkg_dir)` yields, given what `os.listdir` lists
      and which of the joined paths are directories. */
  function PkgDirs(pkgDir: string, names: seq<string>, isDir: string -> bool): seq<Entry>
    decreases |names|
  {
    if names == [] then []
    else
      var n := |names| - 1;
      PkgDirs(pkgDir, names[..n], isDir) + (if isDir(PathJoin(pkgDir, names[n])) then [PkgPair(pkgDir, names[n])] else [])
  }

  /** `search_pkg_dir(pkg_dir)`. */
  method SearchPkgDir(pkgDir: string, names: seq<string>, isDir: string -> bool) returns (out: seq<Entry>)
    ensures out == PkgDirs(pkgDir, names, isDir)
  {
    out := [];
    var i := 0;
    while i < |names|
      invariant i <= |names| && out == PkgDirs(pkgDir, names[..i], isDir)
    {
      assert names[..i + 1][..i] == names[..i];
      var fpath := PathJoin(pkgDir, names[i]);
      if isDir(fpath) {
        if EndsWith(fpath, ".egg") {
          out := out + [(fpath, fpath)];
        } else {
          out := out + [(fpath, pkgDir)];
        }
      }
      i := i + 1;
    }
    assert names[..i] == names;
  }

  // ---------------------------------------------------------------------
  // The archive filter of pack_zip_file

  /** `exclude_suffix`: archive names starting with one of these are left
      out, whatever the name says. */
  const ExcludeSuffix: seq<string> := ["boto3", "botocore", "pip", "EGG-INFO", "__pycache__", "setuptools"]

  predicate Excluded(wpath: string) {
    exists e :: e in ExcludeSuffix && StartsWith(wpath, e)
  }

  /** Entry `i` is written: its name is not excluded and no entry before it
      has the same name. */
  predicate Writes(targets: seq<Entry>, i: nat)
    requires i < |targets|
  {
    !Excluded(targets[i].1) && forall j :: 0 <= j < i ==> targets[j].1 != targets[i].1
  }

  /** The entries written to the archive, in order. */
  function Kept(targets: seq<Entry>): (r: seq<Entry>)
    ensures |r| <= |targets|
    ensures forall e :: e in r ==> e in targets && !Excluded(e.1)
    decreases |targets|
  {
    if targets == [] then []
    else
      var n := |targets| - 1;
      Kept(targets[..n]) + (if Writes(targets, n) then [targets[n]] else [])
  }

  /** The archive names of some entries. */
  function Names(es: seq<Entry>): set<string> {
    set i | 0 <= i < |es| :: es[i].1
  }

  /** The names among some entries that are not excluded. */
  function Seen(es: seq<Entry>): set<string> {
    set i | 0 <= i < |es| && !Excluded(es[i].1) :: es[i].1
  }

  /** The loop of `pack_zip_file` that writes the archive: an entry is
      skipped when its name was written before or is excluded. */
  method ZipEntries(targets: seq<Entry>) returns (written: seq<Entry>)
    ensures written == Kept(targets)
  {
    var wrote: set<string> := {};
    written := [];
    var i := 0;
    while i < |targets|
      invariant i <= |targets| && written == Kept(targets[..i]) && wrote == Seen(targets[..i])
    {
      var (fpath, wpath) := targets[i];
      KeptStep(targets, i);
      if wpath in wrote {
      } else if Excluded(wpath) {
      } else {
        written := written + [(fpath, wpath)];
        wrote := wrote + {wpath};
      }
      i := i + 1;
    }
    assert targets[..i] == targets;
  }

  /** One more entry: it is written when its name is neither excluded nor
      seen before. */
  lemma KeptStep(targets: seq<Entry>, i: nat)
    requires i < |targets|
    ensures Kept(targets[..i + 1]) == Kept(targets[..i]) +
      (if !Excluded(targets[i].1) && targets[i].1 !in Seen(targets[..i]) then [targets[i]] else [])
    ensures Seen(targets[..i + 1]) == Seen(targets[..i]) + (if Excluded(targets[i].1) then {} else {targets[i].1})
  {
    assert targets[..i + 1][..i] == targets[..i];
    WritesLast(targets[..i + 1]);
    SeenSnoc(targets[..i], targets[i]);
    assert targets[..i] + [targets[i]] == targets[..i + 1];
  }

  /** `pack_zip_file` from the directory pairs on: the files of every
      `(path, root)` pair in turn, each pair given with what `os.walk`
      visits under its path, then the archive filter. */
  method PackEntries(srcDirs: seq<(seq<Dir>, string)>) returns (written: seq<Entry>)
    ensures written == Kept(AllEntries(srcDirs))
  {
    var all: seq<Entry> := [];
    var i := 0;
    while i < |srcDirs|
      invariant i <= |srcDirs| && all == AllEntries(srcDirs[..i])
    {
      assert srcDirs[..i + 1][..i] == srcDirs[..i];
      var es := FetchFilePath(srcDirs[i].0, srcDirs[i].1);
      all := all + es;
      i := i + 1;
    }
    assert srcDirs[..i] == srcDirs;
    written := ZipEntries(all);
  }

  /** `reduce(lambda x, y: x + y, [fetch_file_path(*d) for d in src_dirs])`. */
  function AllEntries(srcDirs: seq<(seq<Dir>, string)>): seq<Entry>
    decreases |srcDirs|
  {
    if srcDirs == [] then []
    else
      var n := |srcDirs| - 1;
      AllEntries(srcDirs[..n]) + FileEntries(srcDirs[n].0, srcDirs[n].1)
  }

  // ---------------------------------------------------------------------
  // Properties

  /** `safe_lookup` finds what the tree holds at a path that is there. */
  lemma {:induction false} LookupFound(c: Value, keys: seq<string>)
    requires Walk(c, keys).Some?
    ensures PathValue(c, keys) == Ok(Walk(c, keys).value)
    decreases |keys|
  {
    if keys != [] {
      LookupFound(c.fields[keys[0]], keys[1..]);
    }
  }

  /** `safe_lookup` returns None at the first key missing from a dict on
      the path, whatever keys follow it. */
  lemma {:induction false} LookupMissing(c: Value, keys: seq<string>, k: string, rest: seq<string>)
    requires Walk(c, keys).Some? && Walk(c, keys).value.Obj? && k !in Walk(c, keys).value.fields
    ensures PathValue(c, keys + [k] + rest) == Ok(Null)
    decreases |keys|
  {
    if keys == [] {
      assert keys + [k] + rest == [k] + rest;
    } else {
      assert (keys + [k] + rest)[1..] == keys[1..] + [k] + rest;
      LookupMissing(c.fields[keys[0]], keys[1..], k, rest);
    }
  }

  lemma SeenSnoc(es: seq<Entry>, e: Entry)
    ensures Seen(es + [e]) == Seen(es) + (if Excluded(e.1) then {} else {e.1})
  {
    var t := es + [e];
    assert forall i :: 0 <= i < |es| ==> t[i] == es[i];
    assert t[|es|] == e;
  }

  /** The last entry is written exactly when its name is not excluded and
      not among the names seen before. */
  lemma WritesLast(es: seq<Entry>)
    requires es != []
    ensures Writes(es, |es| - 1) <==> !Excluded(es[|es| - 1].1) && es[|es| - 1].1 !in Seen(es[..|es| - 1])
  {
    var n := |es| - 1;
    var w := es[n].1;
    if w in Seen(es[..n]) {
      var j :| 0 <= j < n && es[..n][j].1 == w;
      assert es[j].1 == w;
    }
  }

  /** The names written are the names of the entries that are not excluded. */
  lemma {:induction false} KeptNames(targets: seq<Entry>)
    ensures Names(Kept(targets)) == Seen(targets)
    decreases |targets|
  {
    if targets != [] {
      var n := |targets| - 1;
      KeptNames(targets[..n]);
      WritesLast(targets);
      SeenSnoc(targets[..n], targets[n]);
      assert targets[..n] + [targets[n]] == targets;
      var k := Kept(targets[..n]);
      if Writes(targets, n) {
        var k' := k + [targets[n]];
        assert Kept(targets) == k';
        assert forall i :: 0 <= i < |k| ==> k'[i] == k[i];
        assert k'[|k|] == targets[n];
        assert Names(k') == Names(k) + {targets[n].1};
      } else {
        assert Kept(targets) == k;
        assert Seen(targets) == Seen(targets[..n]);
      }
    }
  }

  /** No archive name is written twice. */
  lemma {:induction false} KeptDistinct(targets: seq<Entry>)
    ensures forall i, j :: 0 <= i < j < |Kept(targets)| ==> Kept(targets)[i].1 != Kept(targets)[j].1
    decreases |targets|
  {
    if targets != [] {
      var n := |targets| - 1;
      KeptDistinct(targets[..n]);
      KeptNames(targets[..n]);
      WritesLast(targets);
      var k := Kept(targets[..n]);
      if Writes(targets, n) {
        forall i | 0 <= i < |k| ensures k[i].1 != targets[n].1 {
          assert k[i].1 in Names(k);
        }
      }
    }
  }

  /** No archive name that starts with an excluded prefix is written. */
  lemma {:induction false} KeptNotExcluded(targets: seq<Entry>)
    ensures forall i :: 0 <= i < |Kept(targets)| ==> !Excluded(Kept(targets)[i].1)
    decreases |targets|
  {
    if targets != [] {
      KeptNotExcluded(targets[..|targets| - 1]);
    }
  }

  /** Every entry written is an entry that is written at its own place. */
  lemma {:induction false} KeptFrom(targets: seq<Entry>)
    ensures forall e :: e in Kept(targets) ==> exists i :: 0 <= i < |targets| && targets[i] == e && Writes(targets, i)
    decreases |targets|
  {
    if targets != [] {
      var n := |targets| - 1;
      var init := targets[..n];
      KeptFrom(init);
      forall e | e in Kept(init) ensures exists i :: 0 <= i < |targets| && targets[i] == e && Writes(targets, i) {
        var i :| 0 <= i < n && init[i] == e && Writes(init, i);
        assert forall j :: 0 <= j < i ==> init[j] == targets[j];
        assert Writes(targets, i);
      }
    }
  }

  /** The first entry of every name that is not excluded is written. */
  lemma {:induction false} KeptFirst(targets: seq<Entry>, i: nat)
    requires i < |targets| && Writes(targets, i)
    ensures targets[i] in Kept(targets)
    decreases |targets|
  {
    var n := |targets| - 1;
    if i < n {
      assert forall j :: 0 <= j < i ==> targets[..n][j] == targets[j];
      KeptFirst(targets[..n], i);
    }
  }

  /** Dropping `len(root_dir) + 1` characters removes exactly `root_dir/`
      from a path below it. */
  lemma ArchiveNameBelow(fpath: string, rootDir: string)
    requires StartsWith(fpath, rootDir + "/")
    ensures rootDir + "/" + ArchiveName(fpath, rootDir) == fpath
  {
    assert fpath == fpath[..|rootDir| + 1] + fpath[|rootDir| + 1..];
  }

  /** `search_pkg_dir` yields one pair per directory and none for the
      other entries. */
  lemma {:induction false} PkgDirsOnly(pkgDir: string, names: seq<string>, isDir: string -> bool)
    ensures forall e :: e in PkgDirs(pkgDir, names, isDir) ==>
      exists i :: 0 <= i < |names| && isDir(PathJoin(pkgDir, names[i])) && e == PkgPair(pkgDir, names[i])
    ensures forall i :: 0 <= i < |names| && isDir(PathJoin(pkgDir, names[i])) ==> PkgPair(pkgDir, names[i]) in PkgDirs(pkgDir, names, isDir)
    decreases |names|
  {
    if names != [] {
      var n := |names| - 1;
      PkgDirsOnly(pkgDir, names[..n], isDir);
      assert forall i :: 0 <= i < n ==> names[..n][i] == names[i];
    }
  }

  /** An `.egg` directory is its own root; any other directory has the
      package directory as root. */
  lemma PkgPairRoot(pkgDir: string, name: string)
    ensures EndsWith(PathJoin(pkgDir, name), ".egg") ==> PkgPair(pkgDir, name) == (PathJoin(pkgDir, name), PathJoin(pkgDir, name))
    ensures !EndsWith(PathJoin(pkgDir, name), ".egg") ==> PkgPair(pkgDir, name) == (PathJoin(pkgDir, name), pkgDir)
  {
  }
}
