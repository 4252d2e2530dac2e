/**
 * POSIX path handling as the modelled code does it: `os.path.join` of two parts,
 * `os.path.basename`, and the `"/".join(p.split("/")[...])` slicing idioms.
 */
module Paths {
  import opened Text

  function Last<T>(s: seq<T>): T
    requires |s| > 0
  {
    s[|s| - 1]
  }

  /** `s[-n:]` in Python: the last `n` elements, or all of them when there are fewer. */
  function LastN<T>(s: seq<T>, n: nat): (r: seq<T>)
    ensures |r| == if |s| <= n then |s| else n
    ensures forall i :: 0 <= i < |r| ==> r[i] == s[|s| - |r| + i]
  {
    if |s| <= n then s else s[|s| - n..]
  }

  /** `posixpath.join(a, b)`: an absolute `b` replaces `a`; otherwise one '/' separates them. */
  function PathJoin(a: string, b: string): string
  {
    if b != [] && b[0] == '/' then b
    else if a == [] || a[|a| - 1] == '/' then a + b
    else a + "/" + b
  }

  /** A directory entry's name as a file system lists it: non-empty and free of '/'. */
  predicate ValidName(n: string)
  {
    n != [] && '/' !in n
  }

  /** `p.split("/")[-1]`, which is also `posixpath.basename(p)`. */
  function Basename(p: string): string
  {
    Last(Split(p, '/'))
  }

  /** `os.path.basename(p).split(".")[0]`: the file name up to its first '.'. */
  function Stem(p: string): string
  {
    Split(Basename(p), '.')[0]
  }

  /** `"/".join(p.split("/")[-n:])`: the last `n` segments of a path. */
  function LastSegments(p: string, n: nat): string
  {
    Join(LastN(Split(p, '/'), n), '/')
  }

  /** `"/".join(p.split("/")[:-1])`: everything before the last segment. */
  function DirPart(p: string): string
  {
    var segments := Split(p, '/');
    Join(segments[..|segments| - 1], '/')
  }

  /** The segments a directory path contributes to the paths of its entries. */
  function ParentSegments(a: string): seq<string>
  {
    if a == [] then []
    else
      var segments := Split(a, '/');
      if a[|a| - 1] == '/' then segments[..|segments| - 1] else segments
  }

  /** Joining a relative path onto a directory appends the relative path's segments. */
  lemma JoinRelativeSegments(a: string, rel: string)
    requires rel == [] || rel[0] != '/'
    ensures Split(PathJoin(a, rel), '/') == ParentSegments(a) + Split(rel, '/')
  {
    if a == [] {
      assert PathJoin(a, rel) == rel;
    } else if a[|a| - 1] == '/' {
      var front := a[..|a| - 1];
      assert a == front + ['/'];
      assert PathJoin(a, rel) == front + ['/'] + rel;
      TrailingSlashSegments(front, rel);
    } else {
      assert PathJoin(a, rel) == a + ['/'] + rel;
      SplitAround(a, rel, '/');
    }
  }

  /** A directory written with a trailing '/' contributes the segments of the path without it. */
  lemma TrailingSlashSegments(front: string, rel: string)
    ensures ParentSegments(front + ['/']) == Split(front, '/')
    ensures Split(front + ['/'] + rel, '/') == Split(front, '/') + Split(rel, '/')
  {
    var a := front + ['/'];
    SplitAround(front, "", '/');
    assert front + ['/'] + "" == a;
    var segments := Split(front, '/');
    assert Split(a, '/') == segments + [""];
    assert (segments + [""])[..|segments + [""]| - 1] == segments;
    SplitAround(front, rel, '/');
  }

  /** The path of a directory entry: the parent's segments, then the entry's name. */
  lemma JoinNameSegments(a: string, name: string)
    requires ValidName(name)
    ensures Split(PathJoin(a, name), '/') == ParentSegments(a) + [name]
    ensures PathJoin(a, name) != [] && Last(PathJoin(a, name)) != '/'
    ensures ParentSegments(PathJoin(a, name)) == ParentSegments(a) + [name]
    ensures Basename(PathJoin(a, name)) == name
  {
    JoinRelativeSegments(a, name);
    SplitWithoutSeparator(name, '/');
    var p := PathJoin(a, name);
    assert p[|p| - 1] == name[|name| - 1];
  }

  /** Three names joined in turn onto a directory add exactly those three segments. */
  lemma JoinThreeNames(a: string, x: string, y: string, z: string)
    requires ValidName(x) && ValidName(y) && ValidName(z)
    ensures Split(PathJoin(PathJoin(PathJoin(a, x), y), z), '/') == ParentSegments(a) + [x, y, z]
    ensures PathJoin(PathJoin(PathJoin(a, x), y), z) != [] && Last(PathJoin(PathJoin(PathJoin(a, x), y), z)) != '/'
  {
    var d1 := PathJoin(a, x);
    var d2 := PathJoin(d1, y);
    var p := ParentSegments(a);
    ParentAfterName(a, x);
    ParentAfterName(d1, y);
    assert ParentSegments(d2) == p + [x] + [y];
    JoinNameSegments(d2, z);
    assert p + [x] + [y] + [z] == p + [x, y, z];
  }

  lemma ParentAfterName(a: string, name: string)
    requires ValidName(name)
    ensures ParentSegments(PathJoin(a, name)) == ParentSegments(a) + [name]
  {
    JoinNameSegments(a, name);
  }

  /** Python's `os.path.join(d, name)` followed by `"/".join(path.split("/")[:-1])` gives `d` back. */
  lemma DirPartOfJoin(d: string, name: string)
    requires ValidName(name)
    requires d != [] && Last(d) != '/'
    ensures DirPart(PathJoin(d, name)) == d
  {
    JoinNameSegments(d, name);
    var segments := Split(PathJoin(d, name), '/');
    assert segments[..|segments| - 1] == Split(d, '/');
    SplitThenJoin(d, '/');
  }

  /** Joining valid names with '/' gives a relative path whose segments are the names. */
  lemma JoinNames(names: seq<string>)
    requires |names| >= 1
    requires forall i :: 0 <= i < |names| ==> ValidName(names[i])
    ensures Split(Join(names, '/'), '/') == names
    ensures Join(names, '/') != [] && Join(names, '/')[0] != '/'
  {
    JoinThenSplit(names, '/');
    assert names[0] <= Join(names, '/');
  }

  lemma JoinThree(x: string, y: string, z: string)
    ensures Join([x, y, z], '/') == x + "/" + (y + "/" + z)
  {
    var names := [x, y, z];
    assert names[1..] == [y, z] && names[1..][1..] == [z];
    assert Join([z], '/') == z;
    assert Join([y, z], '/') == y + "/" + z;
  }

  /** The last three segments of `root/top/session/scan` are `top/session/scan`. */
  lemma SeriesDirSegments(root: string, top: string, session: string, scan: string)
    requires ValidName(top) && ValidName(session) && ValidName(scan)
    ensures LastSegments(PathJoin(PathJoin(PathJoin(root, top), session), scan), 3) == Join([top, session, scan], '/')
  {
    JoinThreeNames(root, top, session, scan);
    var names := [top, session, scan];
    var segs := ParentSegments(root) + names;
    assert LastN(segs, 3) == names;
  }

  /** Joining two relative parts one after the other is joining them once, with '/' between them. */
  lemma JoinTwice(a: string, x: string, y: string)
    requires x != [] && x[0] != '/' && Last(x) != '/' && ValidName(y)
    ensures PathJoin(PathJoin(a, x), y) == PathJoin(a, x + "/" + y)
  {
    var xy := x + "/" + y;
    assert xy[0] == x[0];
    var ax := PathJoin(a, x);
    assert Last(ax) == Last(x);
    assert PathJoin(ax, y) == ax + "/" + y;
    if a == [] || a[|a| - 1] == '/' {
      assert ax + "/" + y == a + xy;
    } else {
      assert ax + "/" + y == a + "/" + xy;
    }
  }

  /** Joining `top/session/scan` onto `root` is joining the three names one at a time. */
  lemma SeriesDirJoinBack(root: string, top: string, session: string, scan: string)
    requires ValidName(top) && ValidName(session) && ValidName(scan)
    ensures PathJoin(root, Join([top, session, scan], '/')) == PathJoin(PathJoin(PathJoin(root, top), session), scan)
  {
    JoinThree(top, session, scan);
    var front := top + "/" + session;
    assert Last(front) == Last(session);
    JoinTwice(root, top, session);
    JoinTwice(root, front, scan);
    assert front + "/" + scan == top + "/" + (session + "/" + scan);
  }

  /**
   * A scan directory `oxygen_dir/top/session/scan`: its last three segments are the relative
   * `series_dir` stored in the mapping, and joining that back onto `oxygen_dir` gives the directory again.
   */
  lemma SeriesDirRoundTrip(root: string, top: string, session: string, scan: string)
    requires ValidName(top) && ValidName(session) && ValidName(scan)
    ensures var dir := PathJoin(PathJoin(PathJoin(root, top), session), scan);
      PathJoin(root, LastSegments(dir, 3)) == dir
  {
    SeriesDirSegments(root, top, session, scan);
    SeriesDirJoinBack(root, top, session, scan);
  }

  /** The last `|b| + 1` elements of `a + b` are the last element of `a`, then `b`. */
  lemma LastNAfter<T>(a: seq<T>, b: seq<T>)
    requires a != []
    ensures LastN(a + b, |b| + 1) == [Last(a)] + b
  {
    var s := a + b;
    assert s[|s| - (|b| + 1)..] == [Last(a)] + b;
  }

  /** A file name part: free of '/' and of '.'. */
  predicate Plain(x: string)
  {
    '/' !in x && '.' !in x
  }

  /** A plain stem with `.nii.gz` after it is a file name whose part before the first '.' is the stem. */
  lemma FnameParts(stem: string)
    requires Plain(stem) && stem != []
    ensures ValidName(stem + ".nii.gz")
    ensures Split(stem + ".nii.gz", '.')[0] == stem
  {
    assert stem + ".nii.gz" == stem + ['.'] + "nii.gz";
    SplitAround(stem, "nii.gz", '.');
    SplitWithoutSeparator(stem, '.');
  }
}
