/**
  Relative-reference resolution after section 5.2 of RFC 3986 ("Uniform Resource
  Identifier: Generic Syntax"): the parse of Appendix B, the strict transform of
  section 5.2.2, merging (5.2.3), dot-segment removal (5.2.4) and recomposition (5.3).
  The proxy resolves every request path against its base URL with this operation.
*/
module Uri {
  import opened Results
  import opened Text
  import Paths

  /** The five components of a URI reference; an absent component is `None`. */
  datatype Reference = Reference(
    scheme: Option<string>,
    authority: Option<string>,
    path: string,
    query: Option<string>,
    fragment: Option<string>)

  const SchemeStops: set<char> := {':', '/', '?', '#'}
  const AuthorityStops: set<char> := {'/', '?', '#'}
  const PathStops: set<char> := {'?', '#'}

  // ---- Appendix B: splitting a reference into its components ----

  function SplitScheme(s: string): (Option<string>, string)
  {
    var i := IndexOfAny(s, SchemeStops);
    if 0 < i < |s| && s[i] == ':' then (Some(s[..i]), s[i + 1..]) else (None, s)
  }

  function SplitAuthority(s: string): (Option<string>, string)
  {
    if |s| >= 2 && s[0] == '/' && s[1] == '/' then
      var j := IndexOfAny(s[2..], AuthorityStops);
      (Some(s[2..2 + j]), s[2 + j..])
    else
      (None, s)
  }

  function SplitPath(s: string): (string, string)
  {
    var p := IndexOfAny(s, PathStops);
    (s[..p], s[p..])
  }

  function SplitQuery(s: string): (Option<string>, string)
  {
    if |s| > 0 && s[0] == '?' then
      var q := IndexOfAny(s[1..], {'#'});
      (Some(s[1..1 + q]), s[1 + q..])
    else
      (None, s)
  }

  /** Splits any string into reference components (the regular expression of Appendix B). */
  function Parse(s: string): Reference
  {
    var scheme := SplitScheme(s);
    var authority := SplitAuthority(scheme.1);
    var path := SplitPath(authority.1);
    var query := SplitQuery(path.1);
    Reference(scheme.0, authority.0, path.0, query.0, FragmentOf(query.1))
  }

  /** What follows the query is empty or a `#` and the fragment. */
  function FragmentOf(s: string): Option<string>
  {
    if |s| > 0 then Some(s[1..]) else None
  }

  function SchemePart(scheme: Option<string>): string
  {
    if scheme.Some? then scheme.value + ":" else ""
  }

  function AuthorityPart(authority: Option<string>): string
  {
    if authority.Some? then "//" + authority.value else ""
  }

  function QueryPart(query: Option<string>): string
  {
    if query.Some? then "?" + query.value else ""
  }

  function FragmentPart(fragment: Option<string>): string
  {
    if fragment.Some? then "#" + fragment.value else ""
  }

  /** Section 5.3: writes the components back out as one string. */
  function Recompose(r: Reference): string
  {
    SchemePart(r.scheme) + (AuthorityPart(r.authority) + (r.path + (QueryPart(r.query) + FragmentPart(r.fragment))))
  }

  lemma SplitSchemeRest(s: string)
    ensures SchemePart(SplitScheme(s).0) + SplitScheme(s).1 == s
  {
    var i := IndexOfAny(s, SchemeStops);
    if 0 < i < |s| && s[i] == ':' {
      assert s == s[..i] + ":" + s[i + 1..];
    }
  }

  lemma SplitAuthorityRest(s: string)
    ensures AuthorityPart(SplitAuthority(s).0) + SplitAuthority(s).1 == s
  {
    if |s| >= 2 && s[0] == '/' && s[1] == '/' {
      var j := IndexOfAny(s[2..], AuthorityStops);
      assert s == "//" + s[2..2 + j] + s[2 + j..];
    }
  }

  lemma SplitPathRest(s: string)
    ensures SplitPath(s).0 + SplitPath(s).1 == s
    ensures SplitPath(s).1 == "" || SplitPath(s).1[0] in PathStops
  {
    var p := IndexOfAny(s, PathStops);
    assert s == s[..p] + s[p..];
  }

  lemma SplitQueryRest(s: string)
    requires s == "" || s[0] in PathStops
    ensures SplitQuery(s).1 == "" || SplitQuery(s).1[0] == '#'
    ensures QueryPart(SplitQuery(s).0) + SplitQuery(s).1 == s
  {
    if |s| > 0 && s[0] == '?' {
      var q := IndexOfAny(s[1..], {'#'});
      assert s == [s[0]] + s[1..1 + q] + s[1 + q..];
    }
  }

  /** What follows the authority is given back by the path, query and fragment. */
  lemma PathRecompose(x: string)
    ensures var path := SplitPath(x);
            var query := SplitQuery(path.1);
            path.0 + (QueryPart(query.0) + FragmentPart(FragmentOf(query.1))) == x
  {
    var path := SplitPath(x);
    var query := SplitQuery(path.1);
    var tail := QueryPart(query.0) + FragmentPart(FragmentOf(query.1));
    assert path.0 + path.1 == x && (path.1 == "" || path.1[0] in PathStops) by {
      SplitPathRest(x);
    }
    assert tail == path.1 by {
      SplitQueryRest(path.1);
      if query.1 != "" {
        assert FragmentPart(FragmentOf(query.1)) == "#" + query.1[1..];
        assert query.1 == [query.1[0]] + query.1[1..];
      }
    }
  }

  /** What follows the scheme is given back by the authority and the rest. */
  lemma AuthorityRecompose(y: string)
    ensures var authority := SplitAuthority(y);
            var path := SplitPath(authority.1);
            var query := SplitQuery(path.1);
            AuthorityPart(authority.0) + (path.0 + (QueryPart(query.0) + FragmentPart(FragmentOf(query.1)))) == y
  {
    SplitAuthorityRest(y);
    PathRecompose(SplitAuthority(y).1);
  }

  /** Parsing loses nothing: every string is the recomposition of its parse. */
  lemma ParseRecompose(s: string)
    ensures Recompose(Parse(s)) == s
  {
    SplitSchemeRest(s);
    AuthorityRecompose(SplitScheme(s).1);
  }

  // ---- Section 5.2.4: removing dot segments ----

  /** Length of the first segment of a non-empty path, with its leading `/` if any. */
  function FirstSegmentLength(input: string): (n: nat)
    requires input != ""
    ensures 1 <= n <= |input|
  {
    if input[0] == '/' then 1 + IndexOfAny(input[1..], {'/'})
    else IndexOfAny(input, {'/'})
  }

  /** Removes the last segment of the output buffer and the `/` before it. */
  function DropLastSegment(output: string): string
  {
    var e := LastSlashEnd(output);
    if e == 0 then "" else output[..e - 1]
  }

  /** The loop of section 5.2.4, with the input buffer as the decreasing argument. */
  function RemoveDotSegments(input: string, output: string): string
    decreases |input|
  {
    if input == "" then output
    else if StartsWith(input, "../") then RemoveDotSegments(input[3..], output)
    else if StartsWith(input, "./") then RemoveDotSegments(input[2..], output)
    else if StartsWith(input, "/./") then RemoveDotSegments(input[2..], output)
    else if input == "/." then RemoveDotSegments("/", output)
    else if StartsWith(input, "/../") then RemoveDotSegments(input[3..], DropLastSegment(output))
    else if input == "/.." then RemoveDotSegments("/", DropLastSegment(output))
    else if input == "." || input == ".." then output
    else
      var n := FirstSegmentLength(input);
      RemoveDotSegments(input[n..], output + input[..n])
  }

  // ---- Sections 5.2.2 and 5.2.3: the transform ----

  /** Section 5.2.3: appends a relative path to the directory part of the base path. */
  function Merge(base: Reference, relPath: string): string
  {
    if base.authority.Some? && base.path == "" then "/" + relPath
    else base.path[..LastSlashEnd(base.path)] + relPath
  }

  /** Section 5.2.2 (strict parser): the target components of `rel` against `base`. */
  function Transform(base: Reference, rel: Reference): Reference
  {
    if rel.scheme.Some? then
      Reference(rel.scheme, rel.authority, RemoveDotSegments(rel.path, ""), rel.query, rel.fragment)
    else if rel.authority.Some? then
      Reference(base.scheme, rel.authority, RemoveDotSegments(rel.path, ""), rel.query, rel.fragment)
    else if rel.path == "" then
      Reference(base.scheme, base.authority, base.path,
                if rel.query.Some? then rel.query else base.query, rel.fragment)
    else if rel.path[0] == '/' then
      Reference(base.scheme, base.authority, RemoveDotSegments(rel.path, ""), rel.query, rel.fragment)
    else
      Reference(base.scheme, base.authority, RemoveDotSegments(Merge(base, rel.path), ""),
                rel.query, rel.fragment)
  }

  /** Resolves the reference `rel` against the base URI `base`. */
  function Resolve(base: string, rel: string): string
  {
    Recompose(Transform(Parse(base), Parse(rel)))
  }

  // ---- The simple case: a plain relative path under a directory URL ----

  predicate Unreserved(c: char)
  {
    ('a' <= c <= 'z') || ('A' <= c <= 'Z') || ('0' <= c <= '9') || c in {'-', '.', '_', '~'}
  }

  /** A path segment made of unreserved characters that is not a dot segment. */
  predicate UrlSegment(s: string)
  {
    s != "" && s != "." && s != ".." && forall k :: 0 <= k < |s| ==> Unreserved(s[k])
  }

  predicate AllUrlSegments(segs: seq<string>)
  {
    forall i :: 0 <= i < |segs| ==> UrlSegment(segs[i])
  }

  /** A scheme name as section 3.1 defines it. */
  predicate SchemeName(s: string)
  {
    |s| > 0
    && (('a' <= s[0] <= 'z') || ('A' <= s[0] <= 'Z'))
    && forall k :: 0 <= k < |s| ==>
         ('a' <= s[k] <= 'z') || ('A' <= s[k] <= 'Z') || ('0' <= s[k] <= '9') || s[k] in {'+', '-', '.'}
  }

  lemma UrlSegmentsArePlain(segs: seq<string>)
    requires AllUrlSegments(segs)
    ensures Paths.AllPlain(segs)
    ensures forall i :: 0 <= i < |segs| ==> Avoids(segs[i], SchemeStops)
  {
    forall i | 0 <= i < |segs|
      ensures Paths.PlainSegment(segs[i]) && Avoids(segs[i], SchemeStops)
    {
      var s := segs[i];
      assert forall k :: 0 <= k < |s| ==> Unreserved(s[k]);
    }
  }

  /** None of the dot rules of section 5.2.4 applies to `/x...` when `x` is a plain segment. */
  lemma NoDotRuleApplies(x: string, rest: string)
    requires Paths.PlainSegment(x)
    requires rest == "" || rest[0] == '/'
    ensures var input := "/" + x + rest;
            && !StartsWith(input, "../") && !StartsWith(input, "./")
            && !StartsWith(input, "/./") && input != "/."
            && !StartsWith(input, "/../") && input != "/.."
            && input != "." && input != ".."
  {
    var input := "/" + x + rest;
    assert input[0] == '/' && input[1] == x[0];
    if |x| == 1 {
      assert x == [x[0]];
      assert x[0] != '.';
    } else {
      assert input[2] == x[1];
      if |x| == 2 {
        assert x == [x[0], x[1]];
      } else {
        assert input[3] == x[2];
      }
    }
  }

  /** Rule E of section 5.2.4 moves `/x` across whole when `x` has no `/`. */
  lemma FirstSegmentIsPlain(x: string, rest: string)
    requires Avoids(x, {'/'})
    requires rest == "" || rest[0] == '/'
    ensures var input := "/" + x + rest;
            && input != ""
            && FirstSegmentLength(input) == 1 + |x|
            && input[..1 + |x|] == "/" + x
            && input[1 + |x|..] == rest
  {
    var input := "/" + x + rest;
    assert input[1..] == x + rest;
    IndexOfAnyAfter(x, rest, {'/'});
    if rest != "" {
      assert IndexOfAny(rest, {'/'}) == 0;
    }
  }

  /** Dot-segment removal leaves an absolute path of plain segments untouched. */
  lemma {:induction false} RemoveDotSegmentsPlain(segs: seq<string>, output: string)
    requires Paths.AllPlain(segs)
    ensures RemoveDotSegments(Paths.AbsPath(segs), output) == output + Paths.AbsPath(segs)
    decreases |segs|
  {
    if |segs| > 0 {
      var x := segs[0];
      var rest := Paths.AbsPath(segs[1..]);
      assert Paths.AbsPath(segs) == "/" + x + rest;
      assert Paths.PlainSegment(x);
      assert rest == "" || rest[0] == '/';
      NoDotRuleApplies(x, rest);
      FirstSegmentIsPlain(x, rest);
      RemoveDotSegmentsPlain(segs[1..], output + ("/" + x));
      AppendAssoc(output, "/" + x, rest);
    }
  }

  /** A string with no scheme, authority, query or fragment delimiters parses as a bare path. */
  lemma ParseBarePath(s: string)
    requires Avoids(s, PathStops)
    requires s == "" || s[0] != '/'
    requires var i := IndexOfAny(s, SchemeStops); i == |s| || s[i] != ':'
    ensures Parse(s) == Reference(None, None, s, None, None)
  {
    BareHasNoScheme(s);
    BareHasNoAuthority(s);
    BarePathIsWhole(s);
  }

  lemma BareHasNoScheme(s: string)
    requires var i := IndexOfAny(s, SchemeStops); i == |s| || s[i] != ':'
    ensures SplitScheme(s) == (None, s)
  {
  }

  lemma BareHasNoAuthority(s: string)
    requires s == "" || s[0] != '/'
    ensures SplitAuthority(s) == (None, s)
  {
  }

  lemma BarePathIsWhole(s: string)
    requires Avoids(s, PathStops)
    ensures SplitPath(s) == (s, "")
  {
    AvoidsIndexOfAny(s, PathStops);
    assert s[..|s|] == s && s[|s|..] == "";
  }

  /** A rendered path of URL segments parses as a bare relative path. */
  lemma ParseRelativePath(segs: seq<string>)
    requires |segs| > 0 && AllUrlSegments(segs)
    ensures Parse(Paths.Render(segs)) == Reference(None, None, Paths.Render(segs), None, None)
  {
    var s := Paths.Render(segs);
    assert Avoids(s, PathStops) by { RelativeAvoidsPathStops(segs); }
    assert s != "" && s[0] != '/' by { RelativeFirstChar(segs); }
    assert (var i := IndexOfAny(s, SchemeStops); i == |s| || s[i] != ':') by {
      RelativeSchemeIndex(segs);
    }
    ParseBarePath(s);
  }

  lemma RelativeFirstChar(segs: seq<string>)
    requires |segs| > 0 && AllUrlSegments(segs)
    ensures Paths.Render(segs) != "" && Unreserved(Paths.Render(segs)[0])
  {
    assert UrlSegment(segs[0]);
    Paths.RenderHead(segs);
  }

  /** The first scheme delimiter of a rendered relative path, if any, is a `/`. */
  lemma RelativeSchemeIndex(segs: seq<string>)
    requires |segs| > 0 && AllUrlSegments(segs)
    ensures var s := Paths.Render(segs);
            var i := IndexOfAny(s, SchemeStops);
            i == |s| || s[i] == '/'
  {
    UrlSegmentsArePlain(segs);
    var head := segs[0];
    assert Avoids(head, SchemeStops);
    if |segs| == 1 {
      AvoidsIndexOfAny(head, SchemeStops);
    } else {
      var tail := Paths.Render(segs[1..]);
      var s := head + ("/" + tail);
      assert Paths.Render(segs) == s;
      IndexOfAnyAfter(head, "/" + tail, SchemeStops);
      assert ("/" + tail)[0] == '/';
      assert s[|head|] == '/';
    }
  }

  lemma {:induction false} RelativeAvoidsPathStops(segs: seq<string>)
    requires AllUrlSegments(segs)
    ensures Avoids(Paths.Render(segs), PathStops)
    decreases |segs|
  {
    if |segs| > 1 {
      RelativeAvoidsPathStops(segs[1..]);
      var head := segs[0];
      var tail := Paths.Render(segs[1..]);
      var s := head + "/" + tail;
      forall k | 0 <= k < |s| ensures s[k] !in PathStops {
        if k < |head| {
          assert s[k] == head[k];
          assert Unreserved(head[k]);
        } else if k > |head| {
          assert s[k] == tail[k - |head| - 1];
        }
      }
    } else if |segs| == 1 {
      assert forall k :: 0 <= k < |segs[0]| ==> Unreserved(segs[0][k]);
    }
  }

  /** An authority component: no `/`, `?` or `#`. */
  predicate AuthorityText(s: string)
  {
    Avoids(s, AuthorityStops)
  }

  lemma SchemeNameAvoidsStops(scheme: string)
    requires SchemeName(scheme)
    ensures Avoids(scheme, SchemeStops)
  {
    forall k | 0 <= k < |scheme| ensures scheme[k] !in SchemeStops {
      assert ('a' <= scheme[k] <= 'z') || ('A' <= scheme[k] <= 'Z') || ('0' <= scheme[k] <= '9')
        || scheme[k] in {'+', '-', '.'};
    }
  }

  /** The directory path of a base URL, written with its trailing `/`, has no query or fragment delimiter. */
  lemma {:induction false} DirectoryAvoidsPathStops(dir: seq<string>)
    requires AllUrlSegments(dir)
    ensures Avoids(Paths.AbsPath(dir) + "/", PathStops)
    decreases |dir|
  {
    if |dir| > 0 {
      DirectoryAvoidsPathStops(dir[1..]);
      var head := dir[0];
      var rest := Paths.AbsPath(dir[1..]) + "/";
      var s := Paths.AbsPath(dir) + "/";
      assert s == "/" + head + rest;
      assert UrlSegment(head);
      forall k | 0 <= k < |s| ensures s[k] !in PathStops {
        if 1 <= k <= |head| {
          assert s[k] == head[k - 1];
          assert Unreserved(head[k - 1]);
        } else if k > |head| {
          assert s[k] == rest[k - |head| - 1];
        }
      }
    }
  }

  lemma BaseScheme(scheme: string, rest: string)
    requires SchemeName(scheme)
    ensures SplitScheme(scheme + ":" + rest) == (Some(scheme), rest)
  {
    var s := scheme + ":" + rest;
    assert s == scheme + (":" + rest);
    SchemeNameAvoidsStops(scheme);
    IndexOfAnyAfter(scheme, ":" + rest, SchemeStops);
    assert IndexOfAny(":" + rest, SchemeStops) == 0;
    assert s[|scheme|] == ':';
    assert s[..|scheme|] == scheme && s[|scheme| + 1..] == rest;
  }

  lemma BaseAuthority(authority: string, path: string)
    requires AuthorityText(authority)
    requires path != "" && path[0] == '/'
    ensures SplitAuthority("//" + authority + path) == (Some(authority), path)
  {
    var s := "//" + authority + path;
    assert s[2..] == authority + path;
    IndexOfAnyAfter(authority, path, AuthorityStops);
    assert IndexOfAny(path, AuthorityStops) == 0;
    assert s[2..2 + |authority|] == authority;
    assert s[2 + |authority|..] == path;
  }

  /** The path of a directory URL: its segments, each behind a `/`, and a closing `/`. */
  function DirectoryPath(dir: seq<string>): string
  {
    Paths.AbsPath(dir) + "/"
  }

  /** The directory URL `scheme://authority/seg/.../`. */
  function DirectoryUrl(scheme: string, authority: string, dir: seq<string>): string
  {
    scheme + ":" + ("//" + authority + DirectoryPath(dir))
  }

  /** A directory URL parses into its scheme, authority and path. */
  lemma ParseDirectoryUrl(scheme: string, authority: string, dir: seq<string>)
    requires SchemeName(scheme) && AuthorityText(authority) && AllUrlSegments(dir)
    ensures Parse(DirectoryUrl(scheme, authority, dir))
         == Reference(Some(scheme), Some(authority), DirectoryPath(dir), None, None)
  {
    var path := DirectoryPath(dir);
    var hier := "//" + authority + path;
    assert SplitScheme(scheme + ":" + hier) == (Some(scheme), hier) by {
      BaseScheme(scheme, hier);
    }
    assert path[0] == '/' by {
      if |dir| > 0 {
        assert Paths.AbsPath(dir)[0] == '/';
      }
    }
    assert SplitAuthority(hier) == (Some(authority), path) by {
      BaseAuthority(authority, path);
    }
    assert SplitPath(path) == (path, "") by {
      DirectoryAvoidsPathStops(dir);
      BarePathIsWhole(path);
    }
  }

  lemma RecomposeDirectoryTarget(scheme: string, authority: string, dir: seq<string>, r: string)
    ensures Recompose(Reference(Some(scheme), Some(authority), DirectoryPath(dir) + r, None, None))
         == DirectoryUrl(scheme, authority, dir) + r
  {
    var path := DirectoryPath(dir);
    assert path + r + ("" + "") == path + r;
    AppendAssoc("//" + authority, path, r);
    AppendAssoc(scheme + ":", "//" + authority + path, r);
  }

  /** Transforming a bare relative path against a base whose path ends in `/` appends it. */
  lemma TransformUnderDirectory(b: Reference, r: string)
    requires b.authority.Some? && b.path != "" && b.path[|b.path| - 1] == '/'
    requires r != "" && r[0] != '/'
    requires RemoveDotSegments(b.path + r, "") == b.path + r
    ensures Transform(b, Reference(None, None, r, None, None))
         == Reference(b.scheme, b.authority, b.path + r, None, None)
  {
    assert LastSlashEnd(b.path) == |b.path|;
    assert b.path[..|b.path|] == b.path;
  }

  /** A directory path followed by a relative path of URL segments has no dot segment to remove. */
  lemma DirectoryJoinHasNoDots(dir: seq<string>, rel: seq<string>)
    requires AllUrlSegments(dir) && |rel| > 0 && AllUrlSegments(rel)
    ensures RemoveDotSegments(DirectoryPath(dir) + Paths.Render(rel), "") == DirectoryPath(dir) + Paths.Render(rel)
  {
    var r := Paths.Render(rel);
    assert DirectoryPath(dir) + r == Paths.AbsPath(dir + rel) by {
      Paths.SlashRender(rel);
      Paths.AbsPathAppend(dir, rel);
      AppendAssoc(Paths.AbsPath(dir), "/", r);
    }
    UrlSegmentsArePlain(dir + rel);
    RemoveDotSegmentsPlain(dir + rel, "");
  }

  /**
    Under a directory URL, a relative path of URL segments resolves to the base
    followed by the path: resolution neither drops nor rewrites anything.
  */
  lemma ResolveUnderDirectory(scheme: string, authority: string, dir: seq<string>, rel: seq<string>)
    requires SchemeName(scheme) && AuthorityText(authority) && AllUrlSegments(dir)
    requires |rel| > 0 && AllUrlSegments(rel)
    ensures Resolve(DirectoryUrl(scheme, authority, dir), Paths.Render(rel))
         == DirectoryUrl(scheme, authority, dir) + Paths.Render(rel)
  {
    var path := DirectoryPath(dir);
    var r := Paths.Render(rel);
    var b := Reference(Some(scheme), Some(authority), path, None, None);
    ParseDirectoryUrl(scheme, authority, dir);
    ParseRelativePath(rel);
    RelativeFirstChar(rel);
    DirectoryJoinHasNoDots(dir, rel);
    TransformUnderDirectory(b, r);
    RecomposeDirectoryTarget(scheme, authority, dir, r);
  }
}
