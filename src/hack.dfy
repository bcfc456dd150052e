/**
 * Reading a stored key back into its parts (pkg/collector/storage/hack/hack.go).
 */
module Hack {
  import opened Text

  datatype Metadata = Metadata(namespace: string, name: string, target: string, profileType: string)

  /** The '/'-separated segments of a path, after dropping one leading and one trailing '/'. */
  function Segments(path: string): (segs: seq<string>)
    ensures |segs| >= 1
  {
    Split(TrimSuffix(TrimPrefix(path, "/"), "/"), '/')
  }

  /**
   * The first four segments of the path, as namespace, name, target and
   * profile type; a path with fewer segments is outside the function's domain
   * (the Go code indexes past the end of the split).
   */
  function SplitPathToMd(path: string): (md: Metadata)
    requires |Segments(path)| >= 4
    ensures [md.namespace, md.name, md.target, md.profileType] == Segments(path)[..4]
  {
    var parts := Segments(path);
    Metadata(parts[0], parts[1], parts[2], parts[3])
  }

  /**
   * A path written as non-empty '/'-free segments, with or without a leading
   * and a trailing '/', reads back as its first four segments; any further
   * segments are ignored.
   */
  lemma SplitPathRoundTrip(segs: seq<string>, leading: bool, trailing: bool)
    requires |segs| >= 4
    requires forall i :: 0 <= i < |segs| ==> segs[i] != "" && '/' !in segs[i]
    ensures var path := (if leading then "/" else "") + Join(segs, "/") + (if trailing then "/" else "");
            |Segments(path)| >= 4 &&
            SplitPathToMd(path) == Metadata(segs[0], segs[1], segs[2], segs[3])
  {
    var body := Join(segs, "/");
    var path := (if leading then "/" else "") + body + (if trailing then "/" else "");
    JoinBounds(segs);
    assert body[0] == segs[0][0] && body[|body| - 1] == segs[|segs| - 1][|segs[|segs| - 1]| - 1];
    var afterPrefix := body + (if trailing then "/" else "");
    assert TrimPrefix(path, "/") == afterPrefix by {
      if leading {
        assert path == "/" + afterPrefix;
      } else {
        assert path == afterPrefix && path[0] != '/';
      }
    }
    assert TrimSuffix(afterPrefix, "/") == body by {
      if !trailing {
        assert afterPrefix[|afterPrefix| - 1] != '/';
      }
    }
    SplitJoin(segs, '/');
  }

  /** A join of non-empty parts starts with the first part and ends with the last. */
  lemma {:induction false} JoinBounds(parts: seq<string>)
    requires |parts| >= 1
    requires forall i :: 0 <= i < |parts| ==> parts[i] != ""
    ensures var j := Join(parts, "/");
            |j| >= |parts[0]| && j[..|parts[0]|] == parts[0]
            && |j| >= |parts[|parts| - 1]| && j[|j| - |parts[|parts| - 1]|..] == parts[|parts| - 1]
    decreases |parts|
  {
    if |parts| > 1 {
      JoinBounds(parts[1..]);
      var j := Join(parts, "/");
      var rest := Join(parts[1..], "/");
      assert j == parts[0] + "/" + rest;
      assert j[|j| - |parts[|parts| - 1]|..] == rest[|rest| - |parts[|parts| - 1]|..];
    }
  }

  /** At most one slash is trimmed at each end: a doubled leading slash yields an empty namespace. */
  lemma DoubledSlashGivesEmptyNamespace(segs: seq<string>)
    requires |segs| >= 3
    requires forall i :: 0 <= i < |segs| ==> segs[i] != "" && '/' !in segs[i]
    ensures var path := "//" + Join(segs, "/");
            |Segments(path)| >= 4 && SplitPathToMd(path) == Metadata("", segs[0], segs[1], segs[2])
  {
    SegmentsOfDoubledSlash(segs);
    var parts := [""] + segs;
    assert parts[1] == segs[0] && parts[2] == segs[1] && parts[3] == segs[2];
  }

  lemma SegmentsOfDoubledSlash(segs: seq<string>)
    requires |segs| >= 1
    requires forall i :: 0 <= i < |segs| ==> segs[i] != "" && '/' !in segs[i]
    ensures Segments("//" + Join(segs, "/")) == [""] + segs
  {
    var body := Join(segs, "/");
    TrimDoubledSlash(segs);
    SplitJoin(segs, '/');
    SplitAround("", body, '/');
    assert "" + ['/'] + body == "/" + body;
  }

  lemma TrimDoubledSlash(segs: seq<string>)
    requires |segs| >= 1
    requires forall i :: 0 <= i < |segs| ==> segs[i] != "" && '/' !in segs[i]
    ensures TrimSuffix(TrimPrefix("//" + Join(segs, "/"), "/"), "/") == "/" + Join(segs, "/")
  {
    var body := Join(segs, "/");
    JoinBounds(segs);
    assert body[|body| - 1] == segs[|segs| - 1][|segs[|segs| - 1]| - 1];
    assert TrimPrefix("//" + body, "/") == "/" + body;
    var t := "/" + body;
    assert t[|t| - 1] == body[|body| - 1];
    assert !HasSuffix(t, "/");
  }
}
