/** Comparing IAM policies: cmp.Equal after sorting bindings by role and members by
    name, both descending (pkg/clients/bucketpolicy/bucketpolicy.go:76-81 and
    pkg/clients/cryptokeypolicy/cryptokeypolicy.go:88-93). */
module PolicyComparison {
  import opened Gcp
  import opened BucketPolicy
  import opened Sorting

  function RoleOf(b: Binding): string {
    b.role
  }

  /** A binding as cmp.Equal sees it: members sorted. */
  function Canon(b: Binding): Binding {
    b.(members := Sort(Self, true, b.members))
  }

  function CanonAll(bs: seq<Binding>): (r: seq<Binding>)
    ensures |r| == |bs| && forall i :: 0 <= i < |bs| ==> r[i] == Canon(bs[i])
  {
    if bs == [] then [] else [Canon(bs[0])] + CanonAll(bs[1..])
  }

  predicate SameBindings(bs: seq<Binding>, cs: seq<Binding>) {
    CanonAll(Sort(RoleOf, true, bs)) == CanonAll(Sort(RoleOf, true, cs))
  }

  /** bucketpolicy.ArePoliciesSame: everything but the version. */
  predicate AreBucketPoliciesSame(p: Policy, q: Policy) {
    p.etag == q.etag && p.kind == q.kind && p.resourceId == q.resourceId && SameBindings(p.bindings, q.bindings)
  }

  // ---- what the comparison means ----

  /** The same bindings, member order aside. */
  ghost predicate Alike(bs: seq<Binding>, cs: seq<Binding>) {
    && |bs| == |cs|
    && forall i :: 0 <= i < |bs| ==>
      && bs[i].role == cs[i].role
      && bs[i].condition == cs[i].condition
      && multiset(bs[i].members) == multiset(cs[i].members)
  }

  lemma CanonAgrees(b: Binding, c: Binding)
    ensures Canon(b) == Canon(c) <==>
            b.role == c.role && b.condition == c.condition && multiset(b.members) == multiset(c.members)
  {
    SortedStringsAgree(true, b.members, c.members);
  }

  lemma CanonAllAgrees(bs: seq<Binding>, cs: seq<Binding>)
    ensures CanonAll(bs) == CanonAll(cs) <==> Alike(bs, cs)
  {
    if |bs| == |cs| {
      forall i | 0 <= i < |bs|
        ensures CanonAll(bs)[i] == CanonAll(cs)[i] <==>
                bs[i].role == cs[i].role && bs[i].condition == cs[i].condition &&
                multiset(bs[i].members) == multiset(cs[i].members)
      {
        CanonAgrees(bs[i], cs[i]);
      }
    }
  }

  lemma {:induction false} CanonInsert(b: Binding, bs: seq<Binding>)
    ensures CanonAll(Insert(RoleOf, true, b, bs)) == Insert(RoleOf, true, Canon(b), CanonAll(bs))
  {
    if bs != [] {
      CanonInsert(b, bs[1..]);
    }
  }

  lemma {:induction false} CanonSort(bs: seq<Binding>)
    ensures CanonAll(Sort(RoleOf, true, bs)) == Sort(RoleOf, true, CanonAll(bs))
  {
    if bs != [] {
      CanonSort(bs[1..]);
      CanonInsert(bs[0], Sort(RoleOf, true, bs[1..]));
    }
  }

  lemma {:induction false} CanonWithKey(bs: seq<Binding>, r: string)
    ensures WithKey(RoleOf, CanonAll(bs), r) == CanonAll(WithKey(RoleOf, bs, r))
  {
    if bs != [] {
      CanonWithKey(bs[1..], r);
    }
  }

  /** Both list the same conditions and the same multisets of members for a role, in
      the same order. */
  ghost predicate AlikeAt(bs: seq<Binding>, cs: seq<Binding>, r: string) {
    Alike(WithKey(RoleOf, bs, r), WithKey(RoleOf, cs, r))
  }

  lemma AlikeAtRole(bs: seq<Binding>, cs: seq<Binding>, r: string)
    ensures WithKey(RoleOf, CanonAll(bs), r) == WithKey(RoleOf, CanonAll(cs), r) <==> AlikeAt(bs, cs, r)
  {
    CanonWithKey(bs, r);
    CanonWithKey(cs, r);
    CanonAllAgrees(WithKey(RoleOf, bs, r), WithKey(RoleOf, cs, r));
  }

  /** For all policies, also those with several bindings for a role: the comparison
      holds exactly when the two are alike role by role. */
  lemma SameIffAlikePerRole(bs: seq<Binding>, cs: seq<Binding>)
    ensures SameBindings(bs, cs) <==> forall r: string :: AlikeAt(bs, cs, r)
  {
    CanonSort(bs);
    CanonSort(cs);
    SortsAgree(RoleOf, true, CanonAll(bs), CanonAll(cs));
    if SameByKey(RoleOf, CanonAll(bs), CanonAll(cs)) {
      forall r: string
        ensures AlikeAt(bs, cs, r)
      {
        assert WithKey(RoleOf, CanonAll(bs), r) == WithKey(RoleOf, CanonAll(cs), r);
        AlikeAtRole(bs, cs, r);
      }
    }
    if forall r: string :: AlikeAt(bs, cs, r) {
      forall r: string
        ensures WithKey(RoleOf, CanonAll(bs), r) == WithKey(RoleOf, CanonAll(cs), r)
      {
        assert AlikeAt(bs, cs, r);
        AlikeAtRole(bs, cs, r);
      }
    }
  }

  /** So two policies are the same exactly when, versions aside, all else is equal and
      the bindings are alike role by role. */
  lemma BucketPoliciesSameIff(p: Policy, q: Policy)
    ensures AreBucketPoliciesSame(p, q) <==>
            && p == q.(bindings := p.bindings, version := p.version)
            && forall r: string :: AlikeAt(p.bindings, q.bindings, r)
  {
    SameIffAlikePerRole(p.bindings, q.bindings);
  }

  /** What a policy says about a role: the condition and how often each member is listed. */
  function MeaningOf(bs: seq<Binding>, r: string): Option<(Option<Expr>, multiset<string>)> {
    var k := FirstFor(bs, r);
    if k < |bs| then Some((bs[k].condition, multiset(bs[k].members))) else None
  }

  /** The one binding of a role, or none. */
  function Only(bs: seq<Binding>, r: string): seq<Binding> {
    var k := FirstFor(bs, r);
    if k < |bs| then [bs[k]] else []
  }

  lemma {:induction false} OneBindingPerRole(bs: seq<Binding>, r: string)
    requires DistinctRoles(bs)
    ensures WithKey(RoleOf, bs, r) == Only(bs, r)
  {
    if bs != [] {
      OneBindingPerRole(bs[1..], r);
      if bs[0].role == r {
        assert FirstFor(bs[1..], r) == |bs[1..]|;
      }
    }
  }

  lemma OnlyAlike(bs: seq<Binding>, cs: seq<Binding>, r: string)
    ensures Alike(Only(bs, r), Only(cs, r)) <==> MeaningOf(bs, r) == MeaningOf(cs, r)
  {
    var x, y := Only(bs, r), Only(cs, r);
    if |x| == 1 && |y| == 1 {
      assert Alike(x, y) <==>
             x[0].condition == y[0].condition && multiset(x[0].members) == multiset(y[0].members);
    }
  }

  lemma MeaningAtRole(bs: seq<Binding>, cs: seq<Binding>, r: string)
    requires DistinctRoles(bs) && DistinctRoles(cs)
    ensures AlikeAt(bs, cs, r) <==> MeaningOf(bs, r) == MeaningOf(cs, r)
  {
    OneBindingPerRole(bs, r);
    OneBindingPerRole(cs, r);
    OnlyAlike(bs, cs, r);
  }

  /** With one binding per role, two policies are the same exactly when they map
      every role to the same condition and the same multiset of members. */
  lemma SameIffSameMap(bs: seq<Binding>, cs: seq<Binding>)
    requires DistinctRoles(bs) && DistinctRoles(cs)
    ensures SameBindings(bs, cs) <==> forall r: string :: MeaningOf(bs, r) == MeaningOf(cs, r)
  {
    SameIffAlikePerRole(bs, cs);
    forall r: string
      ensures AlikeAt(bs, cs, r) <==> MeaningOf(bs, r) == MeaningOf(cs, r)
    {
      MeaningAtRole(bs, cs, r);
    }
  }

  /** For all policies: reorder the members inside each binding, giving `ds`, and then
      the bindings so that each role keeps its own in order. Nothing changes. */
  lemma SameUnderReordering(bs: seq<Binding>, ds: seq<Binding>, cs: seq<Binding>)
    requires Alike(bs, ds) && SameByKey(RoleOf, ds, cs)
    ensures SameBindings(bs, cs)
  {
    SameIffAlikePerRole(bs, cs);
    forall r: string
      ensures AlikeAt(bs, cs, r)
    {
      AlikeByRole(bs, ds, r);
      assert WithKey(RoleOf, ds, r) == WithKey(RoleOf, cs, r);
    }
  }

  lemma {:induction false} AlikeByRole(bs: seq<Binding>, ds: seq<Binding>, r: string)
    requires Alike(bs, ds)
    ensures AlikeAt(bs, ds, r)
  {
    if bs != [] {
      AlikeByRole(bs[1..], ds[1..], r);
    }
  }

  /** The two say the same about a role in some order of the members. */
  predicate SameMembers(b: Binding, c: Binding) {
    b.role == c.role && b.condition == c.condition && multiset(b.members) == multiset(c.members)
  }

  ghost predicate Covers(bs: seq<Binding>, cs: seq<Binding>) {
    forall i :: 0 <= i < |bs| ==> exists j :: 0 <= j < |cs| && SameMembers(bs[i], cs[j])
  }

  /** With one binding per role the bindings too may come in any order. */
  lemma SameInAnyOrder(bs: seq<Binding>, cs: seq<Binding>)
    requires DistinctRoles(bs) && DistinctRoles(cs) && Covers(bs, cs) && Covers(cs, bs)
    ensures SameBindings(bs, cs)
  {
    forall r: string
      ensures MeaningOf(bs, r) == MeaningOf(cs, r)
    {
      MeaningsAgree(bs, cs, r);
    }
    SameIffSameMap(bs, cs);
  }

  lemma MeaningsAgree(bs: seq<Binding>, cs: seq<Binding>, r: string)
    requires DistinctRoles(bs) && DistinctRoles(cs) && Covers(bs, cs) && Covers(cs, bs)
    ensures MeaningOf(bs, r) == MeaningOf(cs, r)
  {
    MeaningIsCovered(bs, cs, r);
    MeaningIsCovered(cs, bs, r);
  }

  lemma MeaningIsCovered(bs: seq<Binding>, cs: seq<Binding>, r: string)
    requires DistinctRoles(cs) && Covers(bs, cs)
    ensures MeaningOf(bs, r).Some? ==> MeaningOf(cs, r) == MeaningOf(bs, r)
  {
    var k := FirstFor(bs, r);
    if k < |bs| {
      var j :| 0 <= j < |cs| && SameMembers(bs[k], cs[j]);
      assert FirstFor(cs, r) == j;
    }
  }
}
