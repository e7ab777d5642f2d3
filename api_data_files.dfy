/**
 * The containment check of the file browser routes `/arquivos` and
 * `/arquivos/download`: the requested path is joined to the absolute
 * output directory, made absolute and normalised, and access is granted
 * only to a target inside that directory.
 *
 * Paths are POSIX. A normalised absolute path is its sequence of segments
 * and its root: `normpath` keeps a leading "//" as it is (exactly two
 * slashes), and makes any other run of leading slashes one. Its text is the
 * root followed by the segments joined with "/". The working directory is a
 * parameter; reading directories and files is I/O and is outside this
 * model.
 */
module WebFiles {
  import opened Common

  // ---------------------------------------------------------------------
  // os.path.join, os.path.normpath, os.path.abspath
  // ---------------------------------------------------------------------

  /** `os.path.join(a, b)`: `b` alone when it is absolute, otherwise `a` and `b` with one '/' between. */
  function PathJoin(a: string, b: string): (r: string)
    ensures EndsWith(r, b)
    ensures StartsWith(b, "/") ==> r == b
    ensures !StartsWith(b, "/") ==> StartsWith(r, a) && |r| <= |a| + 1 + |b|
  {
    if StartsWith(b, "/") then b
    else if a == "" || a[|a| - 1] == '/' then a + b
    else a + "/" + b
  }

  /** Segments of a normalised path: none empty, none "." or "..", none holding '/'. */
  predicate Clean(segs: seq<string>)
  {
    forall i :: 0 <= i < |segs| ==> Segment(segs[i])
  }

  predicate Segment(s: string)
  {
    s != "" && s != "." && s != ".." && '/' !in s
  }

  /** One component of `normpath`: "" and "." vanish, ".." drops the last segment (none at the root). */
  function Push(st: seq<string>, c: string): (r: seq<string>)
  {
    if c == "" || c == "." then st
    else if c == ".." then (if |st| > 0 then st[..|st| - 1] else st)
    else st + [c]
  }

  /** `normpath` of an absolute path given by its components. */
  function Normal(parts: seq<string>): (r: seq<string>)
  {
    if |parts| == 0 then [] else Push(Normal(parts[..|parts| - 1]), parts[|parts| - 1])
  }

  /** An absolute normalised path: `double` when its root is "//", and its segments. */
  datatype AbsolutePath = AbsolutePath(double: bool, segs: seq<string>)

  /** The text of an absolute normalised path with a single-slash root. */
  function SegsText(segs: seq<string>): (r: string)
    ensures StartsWith(r, "/")
  {
    if segs == [] then "/" else Rendered(segs)
  }

  /** The text of an absolute normalised path: one more '/' in front for a "//" root. */
  function PathText(a: AbsolutePath): (r: string)
    ensures StartsWith(r, "/")
    ensures a.double ==> StartsWith(r, "//")
  {
    if a.double then "/" + SegsText(a.segs) else SegsText(a.segs)
  }

  /** `normpath` keeps the root "//" of a path that starts with exactly two slashes. */
  predicate DoubleRoot(p: string)
  {
    StartsWith(p, "//") && !StartsWith(p, "///")
  }

  /** "/s" for each segment `s`, one after the other. */
  function Rendered(segs: seq<string>): (r: string)
    ensures segs != [] ==> StartsWith(r, "/")
    ensures segs == [] ==> r == ""
  {
    if segs == [] then "" else "/" + segs[0] + Rendered(segs[1..])
  }

  /** `os.path.abspath(p)` with `cwd` as the working directory. */
  function AbsPath(cwd: AbsolutePath, p: string): AbsolutePath
  {
    var joined := PathJoin(PathText(cwd), p);
    AbsolutePath(DoubleRoot(joined), Normal(Split(joined, '/')))
  }

  lemma {:induction false} SplitAnyParts(s: string, seps: set<char>)
    ensures forall k, i :: 0 <= k < |SplitAny(s, seps)| && 0 <= i < |SplitAny(s, seps)[k]| ==> SplitAny(s, seps)[k][i] !in seps
  {
    if |s| > 0 {
      SplitAnyParts(s[1..], seps);
    }
  }

  /** Normalising components free of '/' gives clean segments. */
  lemma {:induction false} NormalClean(parts: seq<string>)
    requires forall k :: 0 <= k < |parts| ==> '/' !in parts[k]
    ensures Clean(Normal(parts))
  {
    if |parts| > 0 {
      NormalClean(parts[..|parts| - 1]);
    }
  }

  /** An absolute path is made of clean segments. */
  lemma AbsPathClean(cwd: AbsolutePath, p: string)
    ensures Clean(AbsPath(cwd, p).segs)
  {
    var parts := Split(PathJoin(PathText(cwd), p), '/');
    SplitAnyParts(PathJoin(PathText(cwd), p), {'/'});
    forall k | 0 <= k < |parts|
      ensures '/' !in parts[k]
    {
      forall i | 0 <= i < |parts[k]|
        ensures parts[k][i] != '/'
      {
      }
    }
    NormalClean(parts);
  }

  // ---------------------------------------------------------------------
  // The guard
  // ---------------------------------------------------------------------

  /** The guard as written: `target.startswith(base)` on the texts. */
  predicate GuardAsWritten(base: AbsolutePath, target: AbsolutePath)
  {
    StartsWith(PathText(target), PathText(base))
  }

  /** The guard as intended: the target has the base's root and is the base or lies below it. */
  predicate Inside(base: AbsolutePath, target: AbsolutePath)
  {
    base.double == target.double && base.segs <= target.segs
  }

  /** The textual form of that guard on segments: the same text, or the base's text and a '/' in front. */
  predicate InsideText(base: seq<string>, target: seq<string>)
  {
    target == base || StartsWith(SegsText(target), if base == [] then "/" else SegsText(base) + "/")
  }

  lemma {:induction false} RenderedAppend(a: seq<string>, b: seq<string>)
    ensures Rendered(a + b) == Rendered(a) + Rendered(b)
  {
    if a != [] {
      RenderedAppend(a[1..], b);
      assert (a + b)[1..] == a[1..] + b;
    } else {
      assert a + b == b;
    }
  }

  /** Two texts that start with a segment each, and then a '/' or nothing, agree on that segment. */
  lemma SameHead(t0: string, rt: string, b0: string, rb: string)
    requires '/' !in t0 && '/' !in b0
    requires rt == "" || rt[0] == '/'
    requires rb != "" && rb[0] == '/'
    requires StartsWith(t0 + rt, b0 + rb)
    ensures t0 == b0 && StartsWith(rt, rb)
  {
    var x := t0 + rt;
    var p := b0 + rb;
    assert p[|b0|] == '/';
    assert t0 == x[..|t0|] == p[..|b0|] == b0;
    assert rt[..|rb|] == x[|t0|..|t0| + |rb|];
  }

  /** A text that starts with a base's text and a '/' belongs to a path the base is a proper prefix of. */
  lemma {:induction false} PrefixFromText(b: seq<string>, t: seq<string>)
    requires forall i :: 0 <= i < |b| ==> '/' !in b[i]
    requires forall i :: 0 <= i < |t| ==> '/' !in t[i]
    requires StartsWith(Rendered(t), Rendered(b) + "/")
    ensures b <= t && |b| < |t|
  {
    if b != [] {
      var rb := Rendered(b[1..]) + "/";
      assert t != [];
      var rt := Rendered(t[1..]);
      assert Rendered(t) == "/" + (t[0] + rt);
      assert Rendered(b) + "/" == "/" + (b[0] + rb);
      DropSlash(t[0] + rt, b[0] + rb);
      SameHead(t[0], rt, b[0], rb);
      PrefixFromText(b[1..], t[1..]);
    }
  }

  lemma DropSlash(x: string, p: string)
    requires StartsWith("/" + x, "/" + p)
    ensures StartsWith(x, p)
  {
    assert x[..|p|] == ("/" + x)[1..|p| + 1];
  }

  /** A path with the base as a proper prefix has a text starting with the base's and a '/'. */
  lemma TextFromPrefix(b: seq<string>, t: seq<string>)
    requires b <= t && |b| < |t|
    ensures StartsWith(Rendered(t), Rendered(b) + "/")
  {
    var rest := t[|b|..];
    assert t == b + rest;
    RenderedAppend(b, rest);
    assert Rendered(rest) == "/" + rest[0] + Rendered(rest[1..]);
  }

  /** The textual guard grants exactly the targets whose segments extend the base's. */
  lemma InsideIsPrefix(base: seq<string>, target: seq<string>)
    requires Clean(base) && Clean(target)
    ensures InsideText(base, target) <==> base <= target
  {
    if base != [] && target != base {
      if StartsWith(SegsText(target), SegsText(base) + "/") {
        assert target != [];
        PrefixFromText(base, target);
      }
      if base <= target {
        TextFromPrefix(base, target);
      }
    }
  }

  /**
   * As written, the guard lets through a sibling whose name extends the
   * base's last segment: with base /srv/out, the path "../out_old/x"
   * resolves to /srv/out_old/x, which starts with "/srv/out".
   */
  lemma SiblingPassesGuard(d: bool, p: seq<string>, s: string, u: string, r: seq<string>)
    requires Clean(p + [s]) && Clean(p + [s + u] + r) && u != ""
    ensures var base, target := AbsolutePath(d, p + [s]), AbsolutePath(d, p + [s + u] + r);
            GuardAsWritten(base, target) && !Inside(base, target)
  {
    var t := p + [s + u] + r;
    assert StartsWith(SegsText(t), SegsText(p + [s])) by {
      SiblingText(p, s, u, r);
      var x, y := Rendered(p + [s]), u + Rendered(r);
      assert (x + y)[..|x|] == x;
    }
    PrependKeepsPrefix(if d then "/" else "", SegsText(t), SegsText(p + [s]));
    assert !(p + [s] <= t) by {
      assert (p + [s])[|p|] == s != s + u == t[|p|];
    }
  }

  /** Putting the same text in front of both keeps a prefix a prefix. */
  lemma PrependKeepsPrefix(c: string, x: string, y: string)
    requires StartsWith(x, y)
    ensures StartsWith(c + x, c + y)
  {
    assert (c + x)[..|c + y|] == c + x[..|y|];
  }

  /** The sibling's text is the base's text followed by the rest of the sibling's name and path. */
  lemma SiblingText(p: seq<string>, s: string, u: string, r: seq<string>)
    ensures Rendered(p + [s + u] + r) == Rendered(p + [s]) + (u + Rendered(r))
  {
    RenderedAppend(p, [s]);
    RenderedAppend(p, [s + u] + r);
    assert Rendered([s]) == "/" + s + "";
    assert Rendered([s + u] + r) == "/" + (s + u) + Rendered(r) by {
      assert ([s + u] + r)[1..] == r;
    }
    assert p + [s + u] + r == p + ([s + u] + r);
  }

  // ---------------------------------------------------------------------
  // The routes
  // ---------------------------------------------------------------------

  datatype Access = Denied | Granted(target: AbsolutePath)

  /** Whatever the intended guard grants, the guard as written grants too. */
  lemma InsidePassesGuard(base: AbsolutePath, target: AbsolutePath)
    requires Clean(base.segs) && Clean(target.segs)
    ensures Inside(base, target) ==> GuardAsWritten(base, target)
  {
    if Inside(base, target) {
      InsideIsPrefix(base.segs, target.segs);
      var t, b := SegsText(target.segs), SegsText(base.segs);
      if target.segs != base.segs && base.segs != [] {
        assert t[..|b|] == t[..|b + "/"|][..|b|];
      }
      assert StartsWith(t, b);
      PrependKeepsPrefix(if base.double then "/" else "", t, b);
    }
  }

  /**
   * A target with the root "//" never passes the guard as written under a
   * base with the root "/" below the root directory: the texts differ at
   * their second character.
   */
  lemma DoubleRootFailsGuard(base: AbsolutePath, target: AbsolutePath)
    requires !base.double && base.segs != [] && Clean(base.segs) && target.double
    ensures !GuardAsWritten(base, target)
  {
    var b := PathText(base);
    assert b == "/" + base.segs[0] + Rendered(base.segs[1..]);
    assert Segment(base.segs[0]);
    assert b[1] == base.segs[0][0] != '/';
    assert PathText(target)[1] == '/';
  }

  /**
   * The check shared by `list_arquivos` and `download_file`, as written:
   * `base` is the absolute output directory, the target the absolute form
   * of the path joined to it, and access is granted when the target's text
   * starts with the base's. Every target inside the base is granted, and so
   * is a sibling that extends the base's last name (`SiblingPassesGuard`).
   */
  function Check(cwd: AbsolutePath, outputDir: string, path: string): (r: Access)
    ensures var base := AbsPath(cwd, outputDir);
            var target := AbsPath(base, path);
            && (r.Granted? <==> GuardAsWritten(base, target))
            && (Inside(base, target) ==> r.Granted?)
            && (r.Granted? ==> r.target == target && Clean(r.target.segs))
  {
    var base := AbsPath(cwd, outputDir);
    var target := AbsPath(base, path);
    AbsPathClean(cwd, outputDir);
    AbsPathClean(base, path);
    InsidePassesGuard(base, target);
    if GuardAsWritten(base, target) then Granted(target) else Denied
  }

  /**
   * A request path that starts with exactly two slashes keeps the root "//",
   * so under an output directory with the root "/" it is denied even when
   * it names a file inside that directory ("//srv/out/x" under /srv/out).
   */
  lemma DoubleSlashRequestDenied(cwd: AbsolutePath, outputDir: string, path: string)
    requires DoubleRoot(path)
    requires var base := AbsPath(cwd, outputDir); !base.double && base.segs != []
    ensures Check(cwd, outputDir, path) == Denied
  {
    var base := AbsPath(cwd, outputDir);
    AbsPathClean(cwd, outputDir);
    assert PathJoin(PathText(base), path) == path;
    DoubleRootFailsGuard(base, AbsPath(base, path));
  }

  /** The check as intended: access only to the base and what lies below it. */
  function CheckInside(cwd: AbsolutePath, outputDir: string, path: string): (r: Access)
    ensures var base := AbsPath(cwd, outputDir);
            var target := AbsPath(base, path);
            (r.Granted? <==> base.double == target.double && base.segs <= target.segs)
            && (r.Granted? ==> r.target == target && Clean(r.target.segs) && GuardAsWritten(base, target))
  {
    var base := AbsPath(cwd, outputDir);
    var target := AbsPath(base, path);
    AbsPathClean(cwd, outputDir);
    AbsPathClean(base, path);
    InsidePassesGuard(base, target);
    if Inside(base, target) then Granted(target) else Denied
  }
}
