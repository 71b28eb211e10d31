/** Equality of compute API names, fully qualified or not (pkg/clients/gcp.go:227-257). */
module ComputeUrls {

  const COMPUTE_URI_PREFIX := "https://www.googleapis.com/compute/v1/"

  predicate Qualified(a: string) {
    COMPUTE_URI_PREFIX <= a
  }

  /** strings.TrimPrefix with the compute prefix. */
  function Trim(a: string): string {
    if Qualified(a) then a[|COMPUTE_URI_PREFIX|..] else a
  }

  // ---- path.Base ----

  function StripSlashes(p: string): string {
    if p != "" && p[|p| - 1] == '/' then StripSlashes(p[..|p| - 1]) else p
  }

  /** What follows the last slash. */
  function LastElement(p: string): string {
    if p == "" || p[|p| - 1] == '/' then "" else LastElement(p[..|p| - 1]) + [p[|p| - 1]]
  }

  function Base(p: string): string {
    if p == "" then "."
    else
      var last := LastElement(StripSlashes(p));
      if last == "" then "/" else last
  }

  predicate EquateComputeURLs(a: string, b: string) {
    if a == b then true
    else if !Qualified(a) && !Qualified(b) then a == b
    else if Trim(a) == Trim(b) then true
    else Base(Trim(a)) == Base(Trim(b))
  }

  // ---- what the relation is ----

  /** Exactly: if one side is fully qualified, the base names agree; otherwise the
      strings are equal. */
  lemma EquatesIff(a: string, b: string)
    ensures EquateComputeURLs(a, b) <==>
            if Qualified(a) || Qualified(b) then Base(Trim(a)) == Base(Trim(b)) else a == b
  {
  }

  /** Only URLs of version 1 of the API count as qualified. */
  lemma OnlyV1IsQualified(path: string)
    ensures Qualified("https://www.googleapis.com/compute/v1/" + path)
    ensures !Qualified("https://www.googleapis.com/compute/beta/" + path)
  {
    var beta := "https://www.googleapis.com/compute/beta/" + path;
    assert beta[35] == 'b' && COMPUTE_URI_PREFIX[35] == 'v';
  }

  lemma EquatesIsSymmetric(a: string, b: string)
    ensures EquateComputeURLs(a, a)
    ensures EquateComputeURLs(a, b) <==> EquateComputeURLs(b, a)
  {
  }

  /** Two steps compose exactly when an end is fully qualified or the ends are equal. */
  lemma EquatesComposes(a: string, b: string, c: string)
    requires EquateComputeURLs(a, b) && EquateComputeURLs(b, c)
    ensures EquateComputeURLs(a, c) <==> Qualified(a) || Qualified(c) || a == c
  {
  }

  /** So it is not transitive: two different unqualified names u/n and v/n are each
      equal to the qualified w/n, but not to each other. */
  lemma EquatesIsNotTransitive(u: string, v: string, w: string, n: string)
    requires !OnlySlashes(n) && u + "/" + n != v + "/" + n
    requires !Qualified(u + "/" + n) && !Qualified(v + "/" + n)
    ensures var full := COMPUTE_URI_PREFIX + (w + "/" + n);
            && EquateComputeURLs(u + "/" + n, full)
            && EquateComputeURLs(full, v + "/" + n)
            && !EquateComputeURLs(u + "/" + n, v + "/" + n)
  {
    QualifiedEquates(u, w, n);
    QualifiedEquates(v, w, n);
    EquatesIsSymmetric(v + "/" + n, COMPUTE_URI_PREFIX + (w + "/" + n));
  }

  lemma QualifiedEquates(u: string, w: string, n: string)
    requires !OnlySlashes(n)
    ensures EquateComputeURLs(u + "/" + n, COMPUTE_URI_PREFIX + (w + "/" + n)) || Qualified(u + "/" + n)
  {
    var full := COMPUTE_URI_PREFIX + (w + "/" + n);
    assert Qualified(full) && Trim(full) == w + "/" + n;
    BaseOfSuffix(u, n);
    BaseOfSuffix(w, n);
    EquatesIff(u + "/" + n, full);
  }

  // ---- a name is equal to every URL it is a path suffix of ----

  predicate OnlySlashes(p: string) {
    forall i :: 0 <= i < |p| ==> p[i] == '/'
  }

  lemma {:induction false} StripSlashesOfSuffix(u: string, v: string)
    requires !OnlySlashes(v)
    ensures StripSlashes(u + v) == u + StripSlashes(v) && StripSlashes(v) != ""
  {
    assert v != "";
    if v[|v| - 1] == '/' {
      var w := v[..|v| - 1];
      assert (u + v)[..|u + v| - 1] == u + w;
      var i :| 0 <= i < |v| && v[i] != '/';
      assert w[i] != '/';
      StripSlashesOfSuffix(u, w);
    }
  }

  lemma {:induction false} LastElementOfSuffix(u: string, v: string)
    requires v != ""
    ensures LastElement(u + "/" + v) == LastElement(v)
  {
    var p := u + "/" + v;
    assert p[|p| - 1] == v[|v| - 1];
    if v[|v| - 1] != '/' {
      var w := v[..|v| - 1];
      assert p[..|p| - 1] == u + "/" + w;
      if w == "" {
        assert (u + "/" + w)[|u|] == '/';
      } else {
        LastElementOfSuffix(u, w);
      }
    }
  }

  lemma BaseOfSuffix(u: string, v: string)
    requires !OnlySlashes(v)
    ensures Base(u + "/" + v) == Base(v)
  {
    StripSlashesOfSuffix(u + "/", v);
    StripSlashesOfSuffix("", v);
    LastElementOfSuffix(u, StripSlashes(v));
  }

  // ---- what the base name is ----

  lemma {:induction false} LastElementOfName(n: string)
    requires '/' !in n
    ensures LastElement(n) == n
  {
    if n != "" {
      LastElementOfName(n[..|n| - 1]);
      assert n == n[..|n| - 1] + [n[|n| - 1]];
    }
  }

  lemma {:induction false} SlashesHaveNoName(p: string)
    requires OnlySlashes(p)
    ensures StripSlashes(p) == ""
  {
    if p != "" {
      SlashesHaveNoName(p[..|p| - 1]);
    }
  }

  /** path.Base: the last component, whatever slashes follow it; a slash for slashes
      only, and a dot for nothing. */
  lemma BaseIsLastComponent(u: string, n: string, slashes: string)
    requires n != "" && '/' !in n && OnlySlashes(slashes)
    ensures Base(u + "/" + n + slashes) == n && Base(n + slashes) == n
    ensures Base(slashes) == if slashes == "" then "." else "/"
  {
    assert n[0] != '/';
    StripsTrailing(n, slashes);
    StripsTrailing(u + "/" + n, slashes);
    LastElementOfSuffix(u, n);
    LastElementOfName(n);
    SlashesHaveNoName(slashes);
  }

  lemma {:induction false} StripsTrailing(p: string, slashes: string)
    requires p != "" && p[|p| - 1] != '/' && OnlySlashes(slashes)
    ensures StripSlashes(p + slashes) == p
  {
    if slashes == "" {
      assert p + slashes == p;
    } else {
      assert (p + slashes)[..|p + slashes| - 1] == p + slashes[..|slashes| - 1];
      StripsTrailing(p, slashes[..|slashes| - 1]);
    }
  }

  /** Two qualified URLs are equal exactly when their last components are. */
  lemma QualifiedEquatesIff(u: string, n: string, v: string, m: string)
    requires n != "" && m != "" && '/' !in n && '/' !in m
    ensures EquateComputeURLs(COMPUTE_URI_PREFIX + (u + "/" + n), COMPUTE_URI_PREFIX + (v + "/" + m)) <==> n == m
  {
    var a, b := COMPUTE_URI_PREFIX + (u + "/" + n), COMPUTE_URI_PREFIX + (v + "/" + m);
    assert Qualified(a) && Trim(a) == u + "/" + n;
    assert Qualified(b) && Trim(b) == v + "/" + m;
    assert u + "/" + n + "" == u + "/" + n && v + "/" + m + "" == v + "/" + m;
    BaseIsLastComponent(u, n, "");
    BaseIsLastComponent(v, m, "");
    EquatesIff(a, b);
  }

  /** A qualified URL and an unqualified path: the same. */
  lemma UnqualifiedEquatesIff(u: string, n: string, v: string, m: string)
    requires n != "" && m != "" && '/' !in n && '/' !in m && !Qualified(v + "/" + m)
    ensures EquateComputeURLs(COMPUTE_URI_PREFIX + (u + "/" + n), v + "/" + m) <==> n == m
  {
    var full := COMPUTE_URI_PREFIX + (u + "/" + n);
    assert Qualified(full) && Trim(full) == u + "/" + n;
    assert u + "/" + n + "" == u + "/" + n && v + "/" + m + "" == v + "/" + m;
    BaseIsLastComponent(u, n, "");
    BaseIsLastComponent(v, m, "");
    EquatesIff(full, v + "/" + m);
  }

  /** `v` names the resource at `path` by its last components, or in full. */
  predicate PathSuffix(v: string, path: string) {
    v == path || (|v| < |path| && path[|path| - |v| - 1] == '/' && path[|path| - |v|..] == v)
  }

  /** An unqualified name is equal to every qualified URL it is a path suffix of. */
  lemma SuffixEquates(v: string, path: string)
    requires PathSuffix(v, path) && !OnlySlashes(v) && !Qualified(v)
    ensures EquateComputeURLs(v, COMPUTE_URI_PREFIX + path)
  {
    var full := COMPUTE_URI_PREFIX + path;
    assert Qualified(full) && Trim(full) == path;
    EquatesIff(v, full);
    if v != path {
      var u := path[..|path| - |v| - 1];
      assert path == u + "/" + v;
      BaseOfSuffix(u, v);
    }
  }
}
