/**
 * POSIX path handling: `os.path.join` (string concatenation rules of
 * `posixpath.join`) and the parts of `pathlib.PurePosixPath` that the
 * container staging uses (`Path(p).name` and `str(Path(v).joinpath(n))`).
 */
module PosixPath {
  import opened PyStrings

  /** One step of `posixpath.join(a, b)`: an absolute `b` replaces `a`, otherwise `b` is appended after a `/`. */
  function Join2(a: string, b: string): string {
    if StartsWith(b, "/") then b
    else if a == "" || EndsWith(a, "/") then a + b
    else a + "/" + b
  }

  /** `os.path.join(*parts)` */
  function Join(parts: seq<string>): string
    requires |parts| >= 1
  {
    if |parts| == 1 then parts[0]
    else Join2(Join(parts[..|parts| - 1]), parts[|parts| - 1])
  }

  /** An absolute last component discards everything before it. */
  lemma JoinAbsoluteLast(parts: seq<string>)
    requires |parts| >= 1 && StartsWith(parts[|parts| - 1], "/")
    ensures Join(parts) == parts[|parts| - 1]
  {
  }

  /** A path joined onto an absolute first component is absolute. */
  lemma {:induction false} JoinStaysAbsolute(parts: seq<string>)
    requires |parts| >= 1 && StartsWith(parts[0], "/")
    ensures StartsWith(Join(parts), "/")
  {
    if |parts| > 1 {
      JoinStaysAbsolute(parts[..|parts| - 1]);
    }
  }

  /** The non-empty components, in order. */
  function NonEmpty(parts: seq<string>): (r: seq<string>)
    ensures forall i :: 0 <= i < |r| ==> r[i] != ""
  {
    if parts == [] then []
    else NonEmpty(parts[..|parts| - 1]) + (if parts[|parts| - 1] == "" then [] else [parts[|parts| - 1]])
  }

  lemma {:induction false} JoinWithAppend(xs: seq<string>, x: string, sep: string)
    requires |xs| >= 1
    ensures JoinWith(xs + [x], sep) == JoinWith(xs, sep) + sep + x
  {
    if |xs| > 1 {
      JoinWithAppend(xs[1..], x, sep);
      assert (xs + [x])[1..] == xs[1..] + [x];
    }
  }

  lemma {:induction false} JoinWithLast(xs: seq<string>, sep: string)
    requires |xs| >= 1 && xs[|xs| - 1] != "" && |sep| >= 1
    ensures JoinWith(xs, sep) != "" && EndsWith(JoinWith(xs, sep), [xs[|xs| - 1][|xs[|xs| - 1]| - 1]])
  {
    if |xs| > 1 {
      JoinWithLast(xs[1..], sep);
    }
  }

  /**
   * When no component but the first is absolute and no component ends in `/`,
   * `os.path.join` is `"/".join` of the non-empty components, plus a trailing
   * `/` when the last component is empty.
   */
  lemma {:induction false} JoinIsSlashJoin(parts: seq<string>)
    requires |parts| >= 1 && parts[0] != ""
    requires forall i :: 1 <= i < |parts| ==> !StartsWith(parts[i], "/")
    requires forall i :: 0 <= i < |parts| ==> !EndsWith(parts[i], "/")
    ensures Join(parts) == JoinWith(NonEmpty(parts), "/") + (if |parts| > 1 && parts[|parts| - 1] == "" then "/" else "")
  {
    var n := |parts|;
    if n == 1 {
      assert NonEmpty(parts) == NonEmpty([]) + [parts[0]];
    } else {
      var init := parts[..n - 1];
      var b := parts[n - 1];
      JoinIsSlashJoin(init);
      var ne := NonEmpty(init);
      assert ne != [] && ne[|ne| - 1] != "" && !EndsWith(ne[|ne| - 1], "/") by {
        NonEmptyEndsWithLast(init);
      }
      JoinWithLast(ne, "/");
      var j := JoinWith(ne, "/");
      assert !EndsWith(j, "/");
      var t := if |init| > 1 && init[|init| - 1] == "" then "/" else "";
      var j0 := Join(init);
      assert j0 == j + t;
      assert NonEmpty(parts) == ne + (if b == "" then [] else [b]) by {
        assert parts[..n - 1] == init;
      }
      assert !StartsWith(b, "/");
      if t == "/" {
        assert EndsWith(j0, "/");
        assert Join(parts) == j0 + b;
      } else {
        assert j0 == j && j != "";
        assert Join(parts) == j + "/" + b;
      }
      if b != "" {
        JoinWithAppend(ne, b, "/");
      } else {
        assert ne + [] == ne;
      }
    }
  }

  /** The last non-empty component of a list whose first component is non-empty. */
  lemma {:induction false} NonEmptyEndsWithLast(parts: seq<string>)
    requires |parts| >= 1 && parts[0] != ""
    requires forall i :: 0 <= i < |parts| ==> !EndsWith(parts[i], "/")
    ensures var ne := NonEmpty(parts); ne != [] && !EndsWith(ne[|ne| - 1], "/")
  {
    if |parts| > 1 {
      NonEmptyEndsWithLast(parts[..|parts| - 1]);
    }
  }

  /** The components pathlib keeps: the `/`-separated pieces other than `""` and `"."`. */
  predicate IsSegment(p: string) {
    p != "" && p != "." && '/' !in p
  }

  function KeepSegments(pieces: seq<string>): (r: seq<string>)
    ensures forall i :: 0 <= i < |r| ==> r[i] in pieces
  {
    if pieces == [] then []
    else (if pieces[0] == "" || pieces[0] == "." then [] else [pieces[0]]) + KeepSegments(pieces[1..])
  }

  function Segments(s: string): (r: seq<string>)
    ensures forall i :: 0 <= i < |r| ==> IsSegment(r[i])
  {
    var pieces := Split(s, '/');
    var r := KeepSegments(pieces);
    assert forall i :: 0 <= i < |r| ==> IsSegment(r[i]) by {
      forall i | 0 <= i < |r| ensures IsSegment(r[i]) {
        KeptAreSegments(pieces, r[i]);
      }
    }
    r
  }

  lemma {:induction false} KeptAreSegments(pieces: seq<string>, p: string)
    requires p in KeepSegments(pieces)
    requires forall i, j :: 0 <= i < |pieces| && 0 <= j < |pieces[i]| ==> pieces[i][j] != '/'
    ensures IsSegment(p)
  {
    if pieces != [] && !(pieces[0] != "" && pieces[0] != "." && p == pieces[0]) {
      KeptAreSegments(pieces[1..], p);
    }
  }

  /**
   * `str(PurePosixPath(...))` of a path given by its root flag and components.
   * The root is always a single `/`: the `//` root that `pathlib` keeps for
   * a path starting with exactly two slashes is not modelled.
   */
  function Render(absolute: bool, segs: seq<string>): string {
    if absolute then "/" + JoinWith(segs, "/")
    else if segs == [] then "."
    else JoinWith(segs, "/")
  }

  /** `Path(s).name` */
  function PathName(s: string): string {
    var segs := Segments(s);
    if segs == [] then "" else segs[|segs| - 1]
  }

  /** `str(Path(dir).joinpath(name))` for a name that is `""` or one component. */
  function JoinName(dir: string, name: string): string {
    Render(StartsWith(dir, "/"), Segments(dir) + (if name == "" then [] else [name]))
  }

  lemma {:induction false} KeepSegmentsOfSegments(segs: seq<string>)
    requires forall i :: 0 <= i < |segs| ==> IsSegment(segs[i])
    ensures KeepSegments(segs) == segs
  {
    if segs != [] {
      KeepSegmentsOfSegments(segs[1..]);
    }
  }

  lemma SegmentsHaveNoSlash(segs: seq<string>)
    requires forall i :: 0 <= i < |segs| ==> IsSegment(segs[i])
    ensures forall i, k :: 0 <= i < |segs| && 0 <= k < |segs[i]| ==> segs[i][k] != '/'
  {
    forall i, k | 0 <= i < |segs| && 0 <= k < |segs[i]| ensures segs[i][k] != '/' {
      assert IsSegment(segs[i]);
      assert segs[i][k] in segs[i];
    }
  }

  /** Splitting `"/".join(segs)` on `/` and keeping the components gives `segs` back. */
  lemma JoinedSegments(segs: seq<string>)
    requires segs != []
    requires forall i :: 0 <= i < |segs| ==> IsSegment(segs[i])
    ensures Segments(JoinWith(segs, "/")) == segs
    ensures JoinWith(segs, "/")[0] == segs[0][0]
  {
    SegmentsHaveNoSlash(segs);
    SplitJoin(segs, '/');
    KeepSegmentsOfSegments(segs);
  }

  lemma KeepSegmentsDropsEmpty(pieces: seq<string>)
    ensures KeepSegments([""] + pieces) == KeepSegments(pieces)
  {
    assert ([""] + pieces)[1..] == pieces;
  }

  /** `Path("/")` has no components. */
  lemma RootSegments()
    ensures Segments("/") == []
  {
    assert "/" == "" + ['/'] + "";
    SplitAt("", "", '/');
    assert Split("", '/') == [""];
    KeepSegmentsDropsEmpty([""]);
    KeepSegmentsDropsEmpty([]);
  }

  lemma AbsoluteSegments(segs: seq<string>)
    requires segs != []
    requires forall i :: 0 <= i < |segs| ==> IsSegment(segs[i])
    ensures Segments("/" + JoinWith(segs, "/")) == segs
  {
    var j := JoinWith(segs, "/");
    assert "/" + j == "" + ['/'] + j;
    SplitAt("", j, '/');
    KeepSegmentsDropsEmpty(Split(j, '/'));
    JoinedSegments(segs);
  }

  /** Parsing a rendered path gives back its components and its root. */
  lemma RenderRoundTrip(absolute: bool, segs: seq<string>)
    requires forall i :: 0 <= i < |segs| ==> IsSegment(segs[i])
    ensures Segments(Render(absolute, segs)) == segs
    ensures StartsWith(Render(absolute, segs), "/") == absolute
  {
    if absolute && segs == [] {
      RootSegments();
    } else if absolute {
      AbsoluteSegments(segs);
    } else if segs == [] {
      assert Split(".", '/') == ["."];
    } else {
      JoinedSegments(segs);
      assert segs[0][0] != '/';
    }
  }
}
