/**
 * The label-indexed, merge-on-write profile store
 * (pkg/collector/storage/storage.go) and its no-op double
 * (pkg/collector/storage/noop.go).
 *
 * The file system the store writes to is the state here: a map from the path
 * of every regular file to its contents, and the set of directory paths.
 * Paths are strings joined with '/'.
 */
module Storage {
  import opened Wrappers
  import opened Text

  type Bytes = seq<bv8>
  type Labels = map<string, string>

  /** The part of the disk the store sees. */
  datatype Disk = Disk(files: map<string, Bytes>, dirs: set<string>)

  // ---------------------------------------------------------------------------
  // Paths
  // ---------------------------------------------------------------------------

  /** `path.Join(a, b)` for clean paths: an empty element is dropped. */
  function JoinPath(a: string, b: string): string
  {
    if a == "" then b else if b == "" then a else a + "/" + b
  }

  /** `path.Join(base, parts...)`, element by element. */
  function JoinAll(base: string, parts: seq<string>): string
    decreases |parts|
  {
    if parts == [] then base else JoinPath(JoinAll(base, parts[..|parts| - 1]), parts[|parts| - 1])
  }

  /** The values of the index labels, in `indexBy` order, or an error naming the first missing one. */
  function IndexValues(labels: Labels, indexBy: seq<string>): (r: Result<seq<string>>)
    ensures r.Err? <==> exists i :: 0 <= i < |indexBy| && indexBy[i] !in labels
    ensures r.Ok? ==> |r.value| == |indexBy|
    ensures r.Ok? ==> forall i :: 0 <= i < |indexBy| ==> indexBy[i] in labels && r.value[i] == labels[indexBy[i]]
    decreases |indexBy|
  {
    if indexBy == [] then Ok([])
    else
      var idx := indexBy[|indexBy| - 1];
      match IndexValues(labels, indexBy[..|indexBy| - 1])
      case Err(msg) => Err(msg)
      case Ok(values) =>
        if idx !in labels then Err("missing label " + idx + " to use as index")
        else Ok(values + [labels[idx]])
  }

  /** The error names the first missing label. */
  lemma {:induction false} IndexValuesFirstMissing(labels: Labels, indexBy: seq<string>, i: int)
    requires 0 <= i < |indexBy| && IndexValues(labels, indexBy[..i]).Ok? && indexBy[i] !in labels
    ensures IndexValues(labels, indexBy) == Err("missing label " + indexBy[i] + " to use as index")
    decreases |indexBy|
  {
    var n := |indexBy|;
    if i == n - 1 {
      assert indexBy[..n - 1] == indexBy[..i];
    } else {
      assert indexBy[..n - 1][..i] == indexBy[..i];
      IndexValuesFirstMissing(labels, indexBy[..n - 1], i);
    }
  }

  lemma IndexValuesStep(labels: Labels, indexBy: seq<string>, i: int, values: seq<string>)
    requires 0 <= i < |indexBy| && IndexValues(labels, indexBy[..i]) == Ok(values) && indexBy[i] in labels
    ensures IndexValues(labels, indexBy[..i + 1]) == Ok(values + [labels[indexBy[i]]])
  {
    assert indexBy[..i + 1][..i] == indexBy[..i];
  }

  lemma JoinAllStep(base: string, parts: seq<string>, p: string)
    ensures JoinAll(base, parts + [p]) == JoinPath(JoinAll(base, parts), p)
  {
    assert (parts + [p])[..|parts|] == parts;
  }

  /** Where a profile of this type, labels and key is stored. */
  function BasePathOf(dataDir: string, indexBy: seq<string>, labels: Labels, profileType: string, key: string): Result<string>
  {
    match IndexValues(labels, indexBy)
    case Err(msg) => Err(msg)
    case Ok(values) => Ok(JoinPath(JoinAll(JoinPath(dataDir, profileType), values), key))
  }

  /** The file name `{start}_{end}` of a stored window, in Unix nanoseconds. */
  function FileName(startNano: int, endNano: int): (name: string)
    ensures '/' !in name && name != ""
  {
    FormatIntAvoids(startNano, '/');
    FormatIntAvoids(endNano, '/');
    FormatInt(startNano) + "_" + FormatInt(endNano)
  }

  /** The regular files anywhere below `root`. */
  function FilesUnder(files: map<string, Bytes>, root: string): (s: set<string>)
    ensures s <= files.Keys
  {
    set f | f in files && HasPrefix(f, root + "/")
  }

  /** The directories `os.MkdirAll(p)` makes sure exist: p and every ancestor named in it. */
  function DirsOf(p: string): (s: set<string>)
    ensures p != "" ==> p in s
  {
    assert p[..|p|] == p;
    set i | 0 < i <= |p| && (i == |p| || p[i] == '/') :: p[..i]
  }

  /** The directories a walk from `root` visits: root itself and everything below it. */
  function DirsUnder(dirs: set<string>, root: string): set<string>
  {
    set d | d in dirs && (d == root || HasPrefix(d, root + "/"))
  }

  // ---------------------------------------------------------------------------
  // What Put does to the disk
  // ---------------------------------------------------------------------------

  /**
   * The error Put reports (if any) and the disk it leaves, once its base path
   * is known. The base directory is created first; then, if no file exists
   * below it, the value is written as `{start}_{end}`; otherwise the
   * lexicographically greatest file's start is kept and the merge of its
   * contents with the value is written as `{oldStart}_{end}`. A failure to
   * parse the old start or to merge writes nothing.
   */
  ghost function PutSpec(d: Disk, base: string, startNano: int, endNano: int, value: Bytes,
                         merge: (Bytes, Bytes) -> Result<Bytes>): (Option<string>, Disk)
  {
    var dirs := d.dirs + DirsOf(base);
    var under := FilesUnder(d.files, base);
    if under == {} then
      (None, Disk(d.files[JoinPath(base, FileName(startNano, endNano)) := value], dirs))
    else
      var last := Greatest(under);
      match ParseInt(Split(Base(last), '_')[0])
      case Err(msg) => (Some(msg), Disk(d.files, dirs))
      case Ok(oldStart) =>
        match merge(d.files[last], value)
        case Err(msg) => (Some(msg), Disk(d.files, dirs))
        case Ok(merged) => (None, Disk(d.files[JoinPath(base, FileName(oldStart, endNano)) := merged], dirs))
  }

  /** The keys `ListKeys` reports: the deepest directories at or below `dataDir`, without the `dataDir` prefix. */
  ghost function DeepestKeys(dirs: set<string>, dataDir: string): set<string>
  {
    var walked := DirsUnder(dirs, dataDir);
    set d | d in walked && (forall e :: e in walked ==> Count(e, '/') <= Count(d, '/')) :: TrimPrefix(d, dataDir)
  }

  // ---------------------------------------------------------------------------
  // Properties of the path scheme and of Put
  // ---------------------------------------------------------------------------

  lemma {:induction false} JoinSnoc(parts: seq<string>, p: string)
    requires |parts| >= 1
    ensures Join(parts + [p], "/") == Join(parts, "/") + "/" + p
    decreases |parts|
  {
    if |parts| > 1 {
      JoinSnoc(parts[1..], p);
      assert (parts + [p])[1..] == parts[1..] + [p];
    }
  }

  lemma {:induction false} JoinAllIsJoin(base: string, parts: seq<string>)
    requires base != ""
    requires forall i :: 0 <= i < |parts| ==> parts[i] != ""
    ensures JoinAll(base, parts) == Join([base] + parts, "/")
    decreases |parts|
  {
    if parts != [] {
      var init := parts[..|parts| - 1];
      JoinAllIsJoin(base, init);
      JoinSnoc([base] + init, parts[|parts| - 1]);
      assert [base] + parts == [base] + init + [parts[|parts| - 1]];
    }
  }

  /**
   * With non-empty components the base path is
   * `dataDir/profileType/<label values in IndexBy order>/key`.
   */
  lemma BasePathLayout(dataDir: string, indexBy: seq<string>, labels: Labels, profileType: string, key: string)
    requires dataDir != "" && profileType != "" && key != ""
    requires forall i :: 0 <= i < |indexBy| ==> indexBy[i] in labels && labels[indexBy[i]] != ""
    ensures IndexValues(labels, indexBy).Ok?
    ensures BasePathOf(dataDir, indexBy, labels, profileType, key)
         == Ok(Join([dataDir, profileType] + IndexValues(labels, indexBy).value + [key], "/"))
  {
    var values := IndexValues(labels, indexBy).value;
    var rest := [profileType] + values;
    assert forall i :: 0 <= i < |rest| ==> rest[i] != "" by {
      forall i | 0 <= i < |rest|
        ensures rest[i] != ""
      {
        if i > 0 {
          assert rest[i] == values[i - 1] == labels[indexBy[i - 1]];
        }
      }
    }
    var all := [dataDir] + rest;
    JoinAllPrefix(dataDir, profileType, values);
    JoinAllIsJoin(dataDir, rest);
    assert all == [dataDir, profileType] + values;
    JoinSnoc(all, key);
  }

  lemma {:induction false} JoinAllPrefix(base: string, first: string, parts: seq<string>)
    ensures JoinAll(base, [first] + parts) == JoinAll(JoinPath(base, first), parts)
    decreases |parts|
  {
    if parts != [] {
      var init := parts[..|parts| - 1];
      JoinAllPrefix(base, first, init);
      assert ([first] + parts)[..|parts|] == [first] + init;
    }
  }

  /** The start time is the text before the first '_' of a file name. */
  lemma FileNameStart(startNano: int, endNano: int)
    requires MinInt64 <= startNano <= MaxInt64
    ensures ParseInt(Split(FileName(startNano, endNano), '_')[0]) == Ok(startNano)
  {
    var a, b := FormatInt(startNano), FormatInt(endNano);
    FormatIntAvoids(startNano, '_');
    SplitAround(a, b, '_');
    SplitNoSeparator(a, '_');
    assert FileName(startNano, endNano) == a + ['_'] + b;
    ParseFormatInt(startNano);
  }

  /** `path.Base` of a file joined onto a directory is the file's name. */
  lemma BaseOfJoin(dir: string, name: string)
    requires dir != "" && name != "" && '/' !in name
    ensures Base(JoinPath(dir, name)) == name
  {
    SplitAround(dir, name, '/');
    SplitNoSeparator(name, '/');
    assert JoinPath(dir, name) == dir + ['/'] + name;
  }

  /** A file joined onto a directory lies below it. */
  lemma JoinIsUnder(dir: string, name: string)
    requires dir != "" && name != ""
    ensures HasPrefix(JoinPath(dir, name), dir + "/")
  {
    assert JoinPath(dir, name)[..|dir + "/"|] == dir + "/";
  }

  /**
   * When the greatest file below the base was written for [s0, e0], Put keeps
   * s0 and writes the merge of that file and the new value as `{s0}_{end}`.
   */
  lemma PutMergesIntoLatest(d: Disk, base: string, startNano: int, endNano: int, value: Bytes,
                            merge: (Bytes, Bytes) -> Result<Bytes>, s0: int, e0: int)
    requires base != "" && MinInt64 <= s0 <= MaxInt64
    requires FilesUnder(d.files, base) != {}
    requires Greatest(FilesUnder(d.files, base)) == JoinPath(base, FileName(s0, e0))
    requires merge(d.files[JoinPath(base, FileName(s0, e0))], value).Ok?
    ensures PutSpec(d, base, startNano, endNano, value, merge)
         == (None, Disk(d.files[JoinPath(base, FileName(s0, endNano)) :=
                              merge(d.files[JoinPath(base, FileName(s0, e0))], value).value],
                        d.dirs + DirsOf(base)))
  {
    BaseOfJoin(base, FileName(s0, e0));
    FileNameStart(s0, e0);
  }

  /**
   * Put writes at most one file, below its base path, and never removes one:
   * on failure no file changes.
   */
  lemma PutWritesOneFileBelowBase(d: Disk, base: string, startNano: int, endNano: int, value: Bytes,
                                  merge: (Bytes, Bytes) -> Result<Bytes>)
    requires base != ""
    ensures var r := PutSpec(d, base, startNano, endNano, value, merge);
            && r.1.dirs == d.dirs + DirsOf(base)
            && (r.0.Some? ==> r.1.files == d.files)
            && d.files.Keys <= r.1.files.Keys
            && (r.0.None? ==> exists t :: t in r.1.files && HasPrefix(t, base + "/") &&
                                forall f :: f in r.1.files && f != t ==> f in d.files && r.1.files[f] == d.files[f])
  {
    var r := PutSpec(d, base, startNano, endNano, value, merge);
    var under := FilesUnder(d.files, base);
    if r.0.None? {
      if under == {} {
        var t := JoinPath(base, FileName(startNano, endNano));
        JoinIsUnder(base, FileName(startNano, endNano));
        assert r.1.files == d.files[t := value];
      } else {
        var last := Greatest(under);
        var oldStart := ParseInt(Split(Base(last), '_')[0]).value;
        var t := JoinPath(base, FileName(oldStart, endNano));
        JoinIsUnder(base, FileName(oldStart, endNano));
        assert r.1.files == d.files[t := merge(d.files[last], value).value];
      }
    }
  }

  /** A consequence: files outside the base path are untouched and no file disappears. */
  lemma PutKeepsOtherFiles(d: Disk, base: string, startNano: int, endNano: int, value: Bytes,
                           merge: (Bytes, Bytes) -> Result<Bytes>, f: string)
    requires base != "" && f in d.files
    ensures var r := PutSpec(d, base, startNano, endNano, value, merge);
            f in r.1.files && (!HasPrefix(f, base + "/") ==> r.1.files[f] == d.files[f])
  {
    PutWritesOneFileBelowBase(d, base, startNano, endNano, value, merge);
  }

  /**
   * Two Puts to an empty base path: the first writes its value as
   * `{s1}_{e1}`; the second keeps s1, writes the merge as `{s1}_{e2}`, and
   * leaves the first file in place. Only the first file is below the base
   * after the first Put.
   */
  lemma PutTwice(d: Disk, base: string, s1: int, e1: int, v1: Bytes, s2: int, e2: int, v2: Bytes,
                 merge: (Bytes, Bytes) -> Result<Bytes>)
    requires base != "" && MinInt64 <= s1 <= MaxInt64
    requires FilesUnder(d.files, base) == {}
    requires merge(v1, v2).Ok?
    ensures var first := PutSpec(d, base, s1, e1, v1, merge);
            var second := PutSpec(first.1, base, s2, e2, v2, merge);
            && first.0.None?
            && FilesUnder(first.1.files, base) == {JoinPath(base, FileName(s1, e1))}
            && second.0.None?
            && second.1.files == d.files[JoinPath(base, FileName(s1, e1)) := v1]
                                        [JoinPath(base, FileName(s1, e2)) := merge(v1, v2).value]
  {
    var p1 := JoinPath(base, FileName(s1, e1));
    var first := PutSpec(d, base, s1, e1, v1, merge);
    JoinIsUnder(base, FileName(s1, e1));
    assert FilesUnder(first.1.files, base) == {p1};
    assert Greatest({p1}) == p1;
    PutMergesIntoLatest(first.1, base, s2, e2, v2, merge, s1, e1);
  }

  /**
   * A second Put whose window ends where the first one's did writes the
   * same file name, `{s1}_{e1}`: the base path then holds one file, the
   * merge of both values, whatever the second start.
   */
  lemma PutTwiceSameEnd(d: Disk, base: string, s1: int, e1: int, v1: Bytes, s2: int, v2: Bytes,
                        merge: (Bytes, Bytes) -> Result<Bytes>)
    requires base != "" && MinInt64 <= s1 <= MaxInt64
    requires FilesUnder(d.files, base) == {}
    requires merge(v1, v2).Ok?
    ensures var first := PutSpec(d, base, s1, e1, v1, merge);
            var second := PutSpec(first.1, base, s2, e1, v2, merge);
            && second.0.None?
            && FilesUnder(second.1.files, base) == {JoinPath(base, FileName(s1, e1))}
            && second.1.files[JoinPath(base, FileName(s1, e1))] == merge(v1, v2).value
  {
    var p1 := JoinPath(base, FileName(s1, e1));
    PutTwice(d, base, s1, e1, v1, s2, e1, v2, merge);
    JoinIsUnder(base, FileName(s1, e1));
    var after := d.files[p1 := merge(v1, v2).value];
    assert d.files[p1 := v1][p1 := merge(v1, v2).value] == after;
    assert FilesUnder(after, base) == {p1};
  }

  /**
   * After the first Put below an otherwise empty data directory, the one key
   * `ListKeys` reports is the new base path relative to the data directory.
   */
  lemma FirstPutDeepestKey(dirs: set<string>, dataDir: string, rest: string)
    requires dataDir != "" && rest != ""
    requires DirsUnder(dirs, dataDir) == {dataDir}
    ensures DeepestKeys(dirs + DirsOf(dataDir + "/" + rest), dataDir) == {"/" + rest}
  {
    var base := dataDir + "/" + rest;
    var walked := DirsUnder(dirs + DirsOf(base), dataDir);
    assert base[..|base|] == base;
    assert base in walked;
    assert base[..|dataDir|] == dataDir;
    forall e | e in walked && e != base
      ensures Count(e, '/') < Count(base, '/')
    {
      if e == dataDir {
        CountBefore(base, |dataDir|, '/');
      } else {
        assert e !in DirsUnder(dirs, dataDir);
        var i :| 0 < i <= |base| && (i == |base| || base[i] == '/') && e == base[..i];
        CountBefore(base, i, '/');
      }
    }
    var deepest := set d | d in walked && (forall e :: e in walked ==> Count(e, '/') <= Count(d, '/'));
    assert deepest == {base};
    assert TrimPrefix(base, dataDir) == "/" + rest;
  }

  /** The largest number of separators in a path of a non-empty set (the loop over `dirDepths`). */
  method MaxDepth(walked: set<string>) returns (maxDepth: nat)
    requires walked != {}
    ensures forall e :: e in walked ==> Count(e, '/') <= maxDepth
    ensures exists e :: e in walked && Count(e, '/') == maxDepth
  {
    maxDepth := 0;
    var todo := walked;
    while todo != {}
      invariant todo <= walked
      invariant forall e :: e in walked && e !in todo ==> Count(e, '/') <= maxDepth
      invariant maxDepth == 0 || exists e :: e in walked && e !in todo && Count(e, '/') == maxDepth
      decreases todo
    {
      var d :| d in todo;
      if Count(d, '/') > maxDepth {
        maxDepth := Count(d, '/');
      }
      todo := todo - {d};
    }
    if maxDepth == 0 {
      var e :| e in walked;
      assert Count(e, '/') == 0;
    }
  }

  /** The paths of the given depth with the prefix removed, each once. */
  method TrimmedAtDepth(walked: set<string>, prefix: string, depth: nat) returns (ret: seq<string>)
    requires forall d :: d in walked ==> HasPrefix(d, prefix)
    ensures forall k :: k in ret <==> exists d :: d in walked && Count(d, '/') == depth && k == TrimPrefix(d, prefix)
    ensures NoDup(ret)
  {
    ret := [];
    var todo := walked;
    while todo != {}
      invariant todo <= walked
      invariant forall k :: k in ret <==>
                  exists d :: d in walked && d !in todo && Count(d, '/') == depth && k == TrimPrefix(d, prefix)
      invariant NoDup(ret)
      decreases todo
    {
      var d :| d in todo;
      if Count(d, '/') == depth {
        forall k | k in ret
          ensures k != TrimPrefix(d, prefix)
        {
          var e :| e in walked && e !in todo && Count(e, '/') == depth && k == TrimPrefix(e, prefix);
        }
        NoDupSnoc(ret, TrimPrefix(d, prefix));
        ret := ret + [TrimPrefix(d, prefix)];
      }
      todo := todo - {d};
    }
  }

  /** The loop of `basePath`: `start` followed by the value of each index label, or the first missing label. */
  method IndexedDir(start: string, indexBy: seq<string>, labels: Labels) returns (r: Result<string>)
    ensures IndexValues(labels, indexBy).Err? ==> r == Err(IndexValues(labels, indexBy).msg)
    ensures IndexValues(labels, indexBy).Ok? ==> r == Ok(JoinAll(start, IndexValues(labels, indexBy).value))
  {
    var base := start;
    var values: seq<string> := [];
    var i := 0;
    while i < |indexBy|
      invariant 0 <= i <= |indexBy|
      invariant IndexValues(labels, indexBy[..i]) == Ok(values)
      invariant base == JoinAll(start, values)
    {
      var idx := indexBy[i];
      if idx !in labels {
        IndexValuesFirstMissing(labels, indexBy, i);
        return Err("missing label " + idx + " to use as index");
      }
      IndexValuesStep(labels, indexBy, i, values);
      JoinAllStep(start, values, labels[idx]);
      values := values + [labels[idx]];
      base := JoinPath(base, labels[idx]);
      i := i + 1;
    }
    assert indexBy[..i] == indexBy;
    return Ok(base);
  }

  class LabelBasedFileStore {
    const DataDir: string
    const IndexBy: seq<string>
    const Merge: (Bytes, Bytes) -> Result<Bytes>
    var files: map<string, Bytes>
    var dirs: set<string>

    /** A store over the given disk. */
    constructor (dataDir: string, indexBy: seq<string>, merge: (Bytes, Bytes) -> Result<Bytes>, disk: Disk)
      ensures DataDir == dataDir && IndexBy == indexBy && Merge == merge
      ensures files == disk.files && dirs == disk.dirs
    {
      DataDir, IndexBy, Merge := dataDir, indexBy, merge;
      files, dirs := disk.files, disk.dirs;
    }

    /** `DataDir/profileType/labels[IndexBy[0]]/.../key`, or an error for the first missing label. */
    method BasePath(labels: Labels, profileType: string, key: string) returns (r: Result<string>)
      ensures r == BasePathOf(DataDir, IndexBy, labels, profileType, key)
    {
      var dir := IndexedDir(JoinPath(DataDir, profileType), IndexBy, labels);
      if dir.Err? {
        return Err(dir.msg);
      }
      return Ok(JoinPath(dir.value, key));
    }

    /** The regular files below `root`, in ascending order (a walk followed by `slices.Sort`). */
    method SortedFilesUnder(root: string) returns (paths: seq<string>)
      ensures Elements(paths) == FilesUnder(files, root)
      ensures SortedBy(paths, Id) && NoDup(paths)
    {
      var todo := files.Keys;
      var found: seq<string> := [];
      while todo != {}
        invariant todo <= files.Keys
        invariant forall f :: f in found <==> f in files && f !in todo && HasPrefix(f, root + "/")
        invariant NoDup(found)
        decreases todo
      {
        var f :| f in todo;
        if HasPrefix(f, root + "/") {
          NoDupSnoc(found, f);
          found := found + [f];
        }
        todo := todo - {f};
      }
      var a := new string[|found|](i requires 0 <= i < |found| => found[i]);
      assert a[..] == found;
      SortBy(a, Id);
      paths := a[..];
      forall x
        ensures x in paths <==> x in found
      {
        assert x in paths <==> x in multiset(paths);
        assert x in found <==> x in multiset(found);
      }
      assert Elements(paths) == Elements(found);
      NoDupCard(found);
      NoDupCard(paths);
    }

    /**
     * Stores `value` for the window [startNano, endNano] under the base path
     * of `profileType`, `labels` and `key`, merging it into the latest file
     * already there. A missing index label changes nothing.
     */
    method Put(startNano: int, endNano: int, profileType: string, key: string, labels: Labels, value: Bytes)
      returns (err: Option<string>)
      modifies this
      ensures BasePathOf(DataDir, IndexBy, labels, profileType, key).Err? ==>
                err.Some? && files == old(files) && dirs == old(dirs)
      ensures BasePathOf(DataDir, IndexBy, labels, profileType, key).Ok? ==>
                var spec := PutSpec(Disk(old(files), old(dirs)), BasePathOf(DataDir, IndexBy, labels, profileType, key).value,
                                    startNano, endNano, value, Merge);
                err.Some? == spec.0.Some? && files == spec.1.files && dirs == spec.1.dirs
    {
      var b := BasePath(labels, profileType, key);
      if b.Err? {
        return Some(b.msg);
      }
      var base := b.value;
      ghost var d := Disk(files, dirs);
      dirs := dirs + DirsOf(base);
      var paths := SortedFilesUnder(base);
      var name := FileName(startNano, endNano);
      var contents := value;
      if |paths| > 0 {
        var last := paths[|paths| - 1];
        SortedLastIsGreatestString(paths);
        assert last == Greatest(FilesUnder(d.files, base));
        var oldStart := ParseInt(Split(Base(last), '_')[0]);
        if oldStart.Err? {
          return Some(oldStart.msg);
        }
        name := FileName(oldStart.value, endNano);
        var merged := Merge(files[last], value);
        if merged.Err? {
          return Some(merged.msg);
        }
        contents := merged.value;
      } else {
        assert Elements(paths) == {};
      }
      files := files[JoinPath(base, name) := contents];
      return None;
    }

    /**
     * The regular files a walk from `DataDir/profileType/key` finds, sorted:
     * every file below it when it is a directory, the path itself when it is
     * a regular file, and an error when nothing is there.
     */
    method Get(profileType: string, key: string) returns (r: Result<seq<string>>)
      ensures var base := JoinPath(JoinPath(DataDir, profileType), key);
              && (r.Ok? <==> base in dirs || base in files)
              && (base in dirs ==> r.Ok? && SortedBy(r.value, Id) && NoDup(r.value)
                                   && Elements(r.value) == FilesUnder(files, base))
              && (base !in dirs && base in files ==> r == Ok([base]))
    {
      var base := JoinPath(JoinPath(DataDir, profileType), key);
      if base in dirs {
        var paths := SortedFilesUnder(base);
        return Ok(paths);
      } else if base in files {
        return Ok([base]);
      }
      return Err("lstat " + base + ": no such file or directory");
    }

    /**
     * The deepest directories at or below `DataDir`, with the `DataDir`
     * prefix trimmed, in no set order; none when `DataDir` is a regular file,
     * and an error when nothing is there.
     */
    method ListKeys() returns (r: Result<seq<string>>)
      ensures r.Ok? <==> DataDir in dirs || DataDir in files
      ensures DataDir in dirs ==> r.Ok? && (forall k :: k in r.value <==> k in DeepestKeys(dirs, DataDir)) && NoDup(r.value)
      ensures DataDir !in dirs && DataDir in files ==> r == Ok([])
    {
      if DataDir in dirs {
        var walked := DirsUnder(dirs, DataDir);
        assert DataDir in walked;
        var maxDepth := MaxDepth(walked);
        var ret := TrimmedAtDepth(walked, DataDir, maxDepth);
        return Ok(ret);
      } else if DataDir in files {
        return Ok([]);
      }
      return Err("lstat " + DataDir + ": no such file or directory");
    }
  }

  /** A directory with nothing below it: the one `os.MkdirTemp` returns. */
  lemma FreshDirectory(tmp: string)
    requires tmp != ""
    ensures DirsUnder(DirsOf(tmp), tmp) == {tmp}
  {
    assert tmp[..|tmp|] == tmp;
    forall d | d in DirsUnder(DirsOf(tmp), tmp)
      ensures d == tmp
    {
      var i :| 0 < i <= |tmp| && (i == |tmp| || tmp[i] == '/') && d == tmp[..i];
    }
  }

  const TestLabels: Labels := map["namespace" := "default", "name" := "example1"]
  const TestIndexBy: seq<string> := ["namespace", "name"]
  const TestKey := "pod/example1"
  /** The key the test reads back: the label values, then the stored key. */
  const TestExpected := "default" + "/" + "example1" + "/" + TestKey
  /** The test's base path relative to the data directory. */
  const TestRest := "profile" + "/" + TestExpected

  /** The test's base path, and the Get key that names the same directory. */
  lemma TestBasePath(tmp: string)
    requires tmp != ""
    ensures BasePathOf(tmp, TestIndexBy, TestLabels, "profile", TestKey) == Ok(tmp + "/" + TestRest)
    ensures JoinPath(JoinPath(tmp, "profile"), TestExpected) == tmp + "/" + TestRest
  {
    TestIndexValues();
    BasePathLayout(tmp, TestIndexBy, TestLabels, "profile", TestKey);
    assert [tmp, "profile"] + ["default", "example1"] + [TestKey] == [tmp, "profile", "default", "example1", TestKey];
    TestJoin(tmp);
  }

  lemma TestIndexValues()
    ensures IndexValues(TestLabels, TestIndexBy) == Ok(["default", "example1"])
  {
    assert TestIndexBy[0] in TestLabels && TestIndexBy[1] in TestLabels;
    assert TestLabels[TestIndexBy[0]] == "default" && TestLabels[TestIndexBy[1]] == "example1";
    var r := IndexValues(TestLabels, TestIndexBy);
    assert |r.value| == 2 && r.value[0] == "default" && r.value[1] == "example1";
    assert r.value == ["default", "example1"];
  }

  lemma TestJoin(tmp: string)
    requires tmp != ""
    ensures Join([tmp, "profile", "default", "example1", TestKey], "/") == tmp + "/" + TestRest
  {
    var parts := [tmp, "profile", "default", "example1", TestKey];
    assert parts[1..][1..][1..][1..] == [TestKey];
    assert Join(parts[1..][1..][1..], "/") == "example1" + "/" + TestKey;
    assert Join(parts[1..][1..], "/") == "default" + "/" + ("example1" + "/" + TestKey);
    assert Join(parts[1..], "/") == "profile" + "/" + ("default" + "/" + ("example1" + "/" + TestKey));
  }

  /** The test's Put into the fresh directory writes one file and makes the base directory. */
  lemma TestPut(tmp: string, startNano: int, nowNano: int, value: Bytes, merge: (Bytes, Bytes) -> Result<Bytes>)
    requires tmp != ""
    ensures var base := tmp + "/" + TestRest;
            var r := PutSpec(Disk(map[], DirsOf(tmp)), base, startNano, nowNano, value, merge);
            && r.0.None?
            && r.1.files == map[base + "/" + FileName(startNano, nowNano) := value]
            && r.1.dirs == DirsOf(tmp) + DirsOf(base)
            && FilesUnder(r.1.files, base) == {base + "/" + FileName(startNano, nowNano)}
  {
    var base := tmp + "/" + TestRest;
    assert FilesUnder(map[], base) == {};
    JoinIsUnder(base, FileName(startNano, nowNano));
  }

  /**
   * The storage test: a store indexed by namespace and name over an empty
   * temporary directory; one Put of a profile for key "pod/example1"; then
   * Get by the key that includes the label values finds exactly the file
   * `{start}_{end}`, and ListKeys reports exactly that key's directory.
   */
  method StorageTestScenario(tmp: string, startNano: int, nowNano: int, value: Bytes,
                             merge: (Bytes, Bytes) -> Result<Bytes>)
    returns (put: Option<string>, got: Result<seq<string>>, keys: Result<seq<string>>)
    requires tmp != ""
    ensures put.None?
    ensures got == Ok([tmp + "/" + TestRest + "/" + FileName(startNano, nowNano)])
    ensures keys == Ok(["/" + TestRest])
  {
    var store := new LabelBasedFileStore(tmp, TestIndexBy, merge, Disk(map[], DirsOf(tmp)));
    var rest := TestRest;
    var base := tmp + "/" + rest;
    var file := base + "/" + FileName(startNano, nowNano);
    TestBasePath(tmp);
    TestPut(tmp, startNano, nowNano, value, merge);
    put := store.Put(startNano, nowNano, "profile", TestKey, TestLabels, value);
    got := store.Get("profile", TestExpected);
    assert Elements(got.value) == {file};
    forall y
      ensures y in got.value <==> y == file
    {
      assert y in got.value <==> y in Elements(got.value);
    }
    NoDupSingleton(got.value, file);
    FreshDirectory(tmp);
    FirstPutDeepestKey(DirsOf(tmp), tmp, rest);
    keys := store.ListKeys();
    NoDupSingleton(keys.value, "/" + rest);
  }

  /** The store that keeps nothing, used as a test double. */
  class NoopStore {
    constructor ()
    {
    }

    /** Accepts every profile. */
    method Put(startNano: int, endNano: int, profileType: string, key: string, labels: Labels, value: Bytes)
      returns (err: Option<string>)
      ensures err.None?
    {
      return None;
    }

    /** Reports no keys. */
    method ListKeys() returns (r: Result<seq<string>>)
      ensures r == Ok([])
    {
      return Ok([]);
    }

    /** Reports no groups: the namespace, name and key nesting is always empty. */
    method GroupKeys() returns (r: Result<map<string, map<string, map<string, seq<string>>>>>)
      ensures r == Ok(map[])
    {
      return Ok(map[]);
    }

    /** Finds no files, for any profile type and key. */
    method Get(profileType: string, key: string) returns (r: Result<seq<string>>)
      ensures r == Ok([])
    {
      return Ok([]);
    }
  }

  /** Whatever was put into a no-op store, a Get finds nothing. */
  method NoopGetAfterPut(startNano: int, endNano: int, profileType: string, key: string, labels: Labels, value: Bytes)
    returns (put: Option<string>, got: Result<seq<string>>)
    ensures put.None? && got == Ok([])
  {
    var store := new NoopStore();
    put := store.Put(startNano, endNano, profileType, key, labels, value);
    got := store.Get(profileType, key);
  }
}
