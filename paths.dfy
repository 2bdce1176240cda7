/**
 * Route path construction: `join_prefix` of src/P2PHttp.cpp, which glues a
 * configured base prefix and a sub-path into the path a route is registered
 * under.
 *
 * Each part is first normalised (a missing leading '/' is added, trailing
 * '/' are removed but a lone "/" is kept); then an empty base yields the
 * path (or "/"), an empty or "/" path yields the base, and otherwise the two
 * are concatenated.
 */
module Paths {

  /** A non-empty part that does not start with '/' gets one in front. */
  function WithLeadingSlash(s: string): string
  {
    if s != [] && s[0] != '/' then "/" + s else s
  }

  /** Removes trailing '/' while more than one character is left. */
  function StripTrailingSlashes(s: string): string
    decreases |s|
  {
    if |s| > 1 && s[|s| - 1] == '/' then StripTrailingSlashes(s[..|s| - 1]) else s
  }

  /** The normal form of one part, as both halves of `join_prefix` compute it. */
  function Normalize(s: string): string
  {
    StripTrailingSlashes(WithLeadingSlash(s))
  }

  /** The value `join_prefix(base, path)` returns. */
  function Join(base: string, path: string): string
  {
    var b := Normalize(base);
    var p := Normalize(path);
    if b == [] then (if p == [] then "/" else p)
    else if p == [] || p == "/" then b
    else b + p
  }

  /** A well-formed route path: non-empty, rooted, no trailing '/' unless it is "/". */
  predicate IsRoutePath(r: string)
  {
    |r| > 0 && r[0] == '/' && (r[|r| - 1] == '/' ==> r == "/")
  }

  predicate AllSlashes(s: string)
  {
    forall i :: 0 <= i < |s| ==> s[i] == '/'
  }

  /**
   * What stripping means, independently of how it is computed: the result is
   * a prefix of the input, only '/' were cut off, nothing non-empty becomes
   * empty, and the result has no trailing '/' unless it is one character long.
   */
  ghost predicate IsStripOf(s: string, r: string)
  {
    && r <= s
    && AllSlashes(s[|r|..])
    && (|s| > 0 ==> |r| > 0)
    && (|r| > 1 ==> r[|r| - 1] != '/')
  }

  lemma {:induction false} StripTrailingSlashesIsStrip(s: string)
    ensures IsStripOf(s, StripTrailingSlashes(s))
  {
    if |s| > 1 && s[|s| - 1] == '/' {
      var t := s[..|s| - 1];
      StripTrailingSlashesIsStrip(t);
      var r := StripTrailingSlashes(t);
      assert s[|r|..] == t[|r|..] + ['/'];
    }
  }

  /** The characterisation determines the stripped string uniquely. */
  lemma {:induction false} StripUnique(s: string, r: string)
    requires IsStripOf(s, r)
    ensures r == StripTrailingSlashes(s)
  {
    if |s| > 1 && s[|s| - 1] == '/' {
      assert |r| < |s|;
      var t := s[..|s| - 1];
      assert s[|r|..] == t[|r|..] + ['/'];
      assert t[|r|..] == s[|r|..][..|s[|r|..]| - 1];
      StripUnique(t, r);
    }
  }

  /** A normalised part is empty exactly when the input is, and otherwise a route path. */
  lemma NormalizeShape(s: string)
    ensures Normalize(s) == [] <==> s == []
    ensures s != [] ==> IsRoutePath(Normalize(s))
  {
    var w := WithLeadingSlash(s);
    StripTrailingSlashesIsStrip(w);
    var r := Normalize(s);
    if s != [] {
      assert r[0] == w[0];
    }
  }

  /** Normalisation leaves route paths, and the empty part, as they are. */
  lemma NormalizeFixesRoutePaths(s: string)
    requires s == [] || IsRoutePath(s)
    ensures Normalize(s) == s
  {
    if s != [] {
      StripUnique(s, s);
    }
  }

  lemma NormalizeIdempotent(s: string)
    ensures Normalize(Normalize(s)) == Normalize(s)
  {
    NormalizeShape(s);
    NormalizeFixesRoutePaths(Normalize(s));
  }

  /** The result of `join_prefix` is always a well-formed route path. */
  lemma JoinIsRoutePath(base: string, path: string)
    ensures IsRoutePath(Join(base, path))
  {
    NormalizeShape(base);
    NormalizeShape(path);
    var b, p := Normalize(base), Normalize(path);
    if b != [] && p != [] && p != "/" {
      assert (b + p)[|b + p| - 1] == p[|p| - 1];
    }
  }

  /**
   * Adding a missing leading '/' or extra trailing '/' to either part does
   * not change the joined path: only the normal forms of the parts matter.
   */
  lemma JoinDependsOnNormalForms(base: string, path: string)
    ensures Join(base, path) == Join(Normalize(base), Normalize(path))
  {
    NormalizeIdempotent(base);
    NormalizeIdempotent(path);
  }

  /** Joining a route path with an empty or root sub-path gives it back. */
  lemma JoinFixedPoint(r: string)
    requires IsRoutePath(r)
    ensures Join(r, "") == r
    ensures Join(r, "/") == r
  {
    NormalizeFixesRoutePaths(r);
    NormalizeFixesRoutePaths("/");
  }

  /** Every result of `join_prefix` is such a fixed point. */
  lemma JoinResultIsFixedPoint(base: string, path: string)
    ensures var r := Join(base, path); Join(r, "") == r && Join(r, "/") == r
  {
    JoinIsRoutePath(base, path);
    JoinFixedPoint(Join(base, path));
  }

  /** With an empty base the normalised path is returned, or "/" when the path is empty too. */
  lemma JoinEmptyBase(path: string)
    ensures Join("", path) == if path == [] then "/" else Normalize(path)
  {
    NormalizeShape(path);
  }

  /**
   * With a non-empty base, a sub-path that normalises to "" or "/" adds
   * nothing, and any other sub-path is appended to the normalised base.
   */
  lemma JoinNonEmptyBase(base: string, path: string)
    requires base != []
    ensures Normalize(path) in {"", "/"} ==> Join(base, path) == Normalize(base)
    ensures Normalize(path) !in {"", "/"} ==> Join(base, path) == Normalize(base) + Normalize(path)
  {
    NormalizeShape(base);
  }

  /** One extra trailing '/' on a route path is stripped off again. */
  lemma StripOneSlash(s: string)
    requires IsRoutePath(s) && s != "/"
    ensures StripTrailingSlashes(s + "/") == s
  {
    assert (s + "/")[..|s|] == s;
    StripUnique(s, s);
  }

  /** Missing leading and extra trailing '/' on either part are repaired. */
  lemma JoinRepairsSlashes()
    ensures Join("p2p/", "ping/") == "/p2p/ping"
  {
    assert WithLeadingSlash("p2p/") == "/p2p" + "/";
    assert WithLeadingSlash("ping/") == "/ping" + "/";
    StripOneSlash("/p2p");
    StripOneSlash("/ping");
  }

  /** The paths of the default route table. */
  lemma JoinDefaultPaths()
    ensures Join("/p2p", "/ping") == "/p2p/ping"
    ensures Join("/p2p", "/status") == "/p2p/status"
    ensures Join("/p2p", "/admin/hook") == "/p2p/admin/hook"
  {
    NormalizeFixesRoutePaths("/p2p");
    NormalizeFixesRoutePaths("/ping");
    NormalizeFixesRoutePaths("/status");
    NormalizeFixesRoutePaths("/admin/hook");
  }

  lemma JoinDegenerateParts()
    ensures Join("/p2p///", "") == "/p2p"
    ensures Join("", "") == "/"
  {
    StripOneSlash("/p2p");
    assert "/p2p///"[..6] == "/p2p//" && "/p2p//"[..5] == "/p2p" + "/";
  }

  /**
   * A base of "/" survives normalisation (the strip loop keeps one
   * character), so it is concatenated with the sub-path as is.
   */
  lemma JoinRootBaseDoublesSlash()
    ensures Join("/", "/ping") == "//ping"
  {
    NormalizeFixesRoutePaths("/ping");
  }

  /**
   * `join_prefix` as written: each part is edited in place, a '/' inserted
   * at the front and trailing '/' popped off in a loop.
   */
  method JoinPrefix(base: string, path: string) returns (r: string)
    ensures r == Join(base, path)
    ensures IsRoutePath(r)
  {
    var b := base;
    if b != [] && b[0] != '/' {
      b := "/" + b;
    }
    ghost var b0 := b;
    while |b| > 1 && b[|b| - 1] == '/'
      invariant StripTrailingSlashes(b) == StripTrailingSlashes(b0)
      decreases |b|
    {
      b := b[..|b| - 1];
    }

    var p := path;
    if p != [] && p[0] != '/' {
      p := "/" + p;
    }
    ghost var p0 := p;
    while |p| > 1 && p[|p| - 1] == '/'
      invariant StripTrailingSlashes(p) == StripTrailingSlashes(p0)
      decreases |p|
    {
      p := p[..|p| - 1];
    }

    if b == [] {
      r := if p == [] then "/" else p;
    } else if p == [] || p == "/" {
      r := b;
    } else {
      r := b + p;
    }
    JoinIsRoutePath(base, path);
  }
}
