/** Editing the IAM policy of a bucket in place (pkg/clients/bucketpolicy/bucketpolicy.go:88-135):
    binding a role to a member and unbinding it again, as operations on the set of
    granted (role, member) pairs. */
module BucketPolicy {
  import opened Gcp

  const POLICY_VERSION := 3

  datatype Expr = Expr(description: string, expression: string, location: string, title: string)
  datatype Binding = Binding(role: string, members: seq<string>, condition: Option<Expr>)
  datatype Policy = Policy(bindings: seq<Binding>, version: int, etag: string, kind: string, resourceId: string)

  // ---- the two edits as functions of the bindings ----

  /** The first binding for a role: the only one either edit looks at. */
  function FirstFor(bs: seq<Binding>, r: string): (k: nat)
    ensures k <= |bs|
    ensures forall i :: 0 <= i < k ==> bs[i].role != r
    ensures k < |bs| ==> bs[k].role == r
  {
    if bs == [] || bs[0].role == r then 0 else 1 + FirstFor(bs[1..], r)
  }

  function FirstMembers(bs: seq<Binding>, r: string): seq<string> {
    var k := FirstFor(bs, r);
    if k < |bs| then bs[k].members else []
  }

  function BindIn(bs: seq<Binding>, r: string, m: string): seq<Binding> {
    var k := FirstFor(bs, r);
    if k == |bs| then bs + [Binding(r, [m], None)]
    else if m in bs[k].members then bs
    else bs[k := bs[k].(members := bs[k].members + [m])]
  }

  function IndexOf(s: seq<string>, m: string): (k: nat)
    ensures k <= |s|
    ensures forall i :: 0 <= i < k ==> s[i] != m
    ensures k < |s| ==> s[k] == m
    ensures k < |s| <==> m in s
  {
    if s == [] || s[0] == m then 0 else 1 + IndexOf(s[1..], m)
  }

  function RemoveFirst(s: seq<string>, m: string): seq<string> {
    var k := IndexOf(s, m);
    if k < |s| then s[..k] + s[k + 1..] else s
  }

  function UnbindIn(bs: seq<Binding>, r: string, m: string): seq<Binding> {
    var k := FirstFor(bs, r);
    if k == |bs| then bs else bs[k := bs[k].(members := RemoveFirst(bs[k].members, m))]
  }

  // ---- the granted pairs ----

  ghost predicate Granted(bs: seq<Binding>, r: string, m: string) {
    exists i :: 0 <= i < |bs| && bs[i].role == r && m in bs[i].members
  }

  ghost function Grants(bs: seq<Binding>): set<(string, string)> {
    set i, m | 0 <= i < |bs| && m in bs[i].members :: (bs[i].role, m)
  }

  lemma GrantedIsInGrants(bs: seq<Binding>, r: string, m: string)
    ensures Granted(bs, r, m) <==> (r, m) in Grants(bs)
  {
  }

  /** How often one binding, and a whole policy, lists a pair. */
  function Lists(b: Binding, r: string, m: string): nat {
    if b.role == r then multiset(b.members)[m] else 0
  }

  function Occurs(bs: seq<Binding>, r: string, m: string): nat {
    if bs == [] then 0 else Lists(bs[0], r, m) + Occurs(bs[1..], r, m)
  }

  lemma {:induction false} OccursIffGranted(bs: seq<Binding>, r: string, m: string)
    ensures Occurs(bs, r, m) > 0 <==> Granted(bs, r, m)
  {
    if bs != [] {
      OccursIffGranted(bs[1..], r, m);
      if Granted(bs[1..], r, m) {
        var i :| 0 <= i < |bs[1..]| && bs[1..][i].role == r && m in bs[1..][i].members;
        assert bs[i + 1].role == r && m in bs[i + 1].members;
      }
      if Granted(bs, r, m) {
        var i :| 0 <= i < |bs| && bs[i].role == r && m in bs[i].members;
        assert i > 0 ==> bs[1..][i - 1] == bs[i];
      }
    }
  }

  lemma {:induction false} OccursUpdate(bs: seq<Binding>, k: nat, b: Binding, r: string, m: string)
    requires k < |bs|
    ensures Occurs(bs[k := b], r, m) == Occurs(bs, r, m) - Lists(bs[k], r, m) + Lists(b, r, m)
  {
    var cs := bs[k := b];
    if k == 0 {
      assert cs[1..] == bs[1..];
    } else {
      assert cs[1..] == bs[1..][k - 1 := b];
      OccursUpdate(bs[1..], k - 1, b, r, m);
    }
  }

  // ---- Bind inserts the pair, for every policy ----

  lemma BindGrants(bs: seq<Binding>, r: string, m: string, r': string, m': string)
    ensures Granted(BindIn(bs, r, m), r', m') <==> Granted(bs, r', m') || (r' == r && m' == m)
  {
    var k, cs := FirstFor(bs, r), BindIn(bs, r, m);
    assert cs[k].role == r && m in cs[k].members;
    if Granted(bs, r', m') {
      var i :| 0 <= i < |bs| && bs[i].role == r' && m' in bs[i].members;
      assert cs[i].role == r' && m' in cs[i].members;
    }
  }

  /** The granted pairs after binding are those before, plus the pair. */
  lemma BindInserts(bs: seq<Binding>, r: string, m: string)
    ensures Grants(BindIn(bs, r, m)) == Grants(bs) + {(r, m)}
  {
    forall p: (string, string)
      ensures p in Grants(BindIn(bs, r, m)) <==> p in Grants(bs) + {(r, m)}
    {
      BindGrants(bs, r, m, p.0, p.1);
      GrantedIsInGrants(bs, p.0, p.1);
      GrantedIsInGrants(BindIn(bs, r, m), p.0, p.1);
    }
  }

  // ---- Unbind removes one listing of the pair ----

  lemma RemoveFirstCounts(s: seq<string>, m: string)
    ensures multiset(RemoveFirst(s, m)) == multiset(s) - multiset{m}
  {
    var k := IndexOf(s, m);
    if k < |s| {
      assert s == s[..k] + [s[k]] + s[k + 1..];
    } else {
      assert m !in multiset(s);
    }
  }

  lemma UnbindOccurs(bs: seq<Binding>, r: string, m: string, r': string, m': string)
    ensures Occurs(UnbindIn(bs, r, m), r', m') ==
            Occurs(bs, r', m') - (if r' == r && m' == m && m in FirstMembers(bs, r) then 1 else 0)
  {
    var k := FirstFor(bs, r);
    if k < |bs| {
      var b := bs[k].(members := RemoveFirst(bs[k].members, m));
      RemoveFirstCounts(bs[k].members, m);
      OccursUpdate(bs, k, b, r', m');
    }
  }

  /** Unbinding leaves every other pair alone, and withdraws the pair itself exactly
      when it is listed once and in the first binding for its role, or not at all. */
  lemma UnbindRemoves(bs: seq<Binding>, r: string, m: string)
    ensures Grants(UnbindIn(bs, r, m)) - {(r, m)} == Grants(bs) - {(r, m)}
    ensures Grants(UnbindIn(bs, r, m)) == Grants(bs) - {(r, m)} <==>
            Occurs(bs, r, m) == if m in FirstMembers(bs, r) then 1 else 0
  {
    var cs := UnbindIn(bs, r, m);
    forall p: (string, string)
      ensures p in Grants(cs) <==> Occurs(cs, p.0, p.1) > 0
      ensures p in Grants(bs) <==> Occurs(bs, p.0, p.1) > 0
      ensures p != (r, m) ==> Occurs(cs, p.0, p.1) == Occurs(bs, p.0, p.1)
    {
      GrantedIsInGrants(bs, p.0, p.1);
      GrantedIsInGrants(cs, p.0, p.1);
      OccursIffGranted(bs, p.0, p.1);
      OccursIffGranted(cs, p.0, p.1);
      UnbindOccurs(bs, r, m, p.0, p.1);
    }
    UnbindOccurs(bs, r, m, r, m);
    assert (r, m) in Grants(cs) <==> Occurs(cs, r, m) > 0;
  }

  /** Two bindings for one role, as a conditional and an unconditional grant: after
      unbinding, the pair is still granted. */
  lemma UnbindMayLeaveGranted(r: string, m: string, c: Expr)
    ensures var bs := [Binding(r, [m], Some(c)), Binding(r, [m], None)];
            (r, m) in Grants(UnbindIn(bs, r, m))
  {
    var bs := [Binding(r, [m], Some(c)), Binding(r, [m], None)];
    assert UnbindIn(bs, r, m)[1] == bs[1];
    GrantedIsInGrants(UnbindIn(bs, r, m), r, m);
  }

  // ---- what neither edit touches ----

  /** Every binding keeps its place, role and condition; those for other roles keep
      their members too. At most one binding, for `r` and unconditional, is added. */
  ghost predicate OnlyRoleEdited(bs: seq<Binding>, cs: seq<Binding>, r: string) {
    && |bs| <= |cs| <= |bs| + 1
    && (forall i :: 0 <= i < |bs| ==>
          && cs[i].role == bs[i].role && cs[i].condition == bs[i].condition
          && (bs[i].role != r ==> cs[i] == bs[i]))
    && (|cs| > |bs| ==> cs[|bs|].role == r && cs[|bs|].condition == None)
  }

  lemma EditsOnlyRole(bs: seq<Binding>, r: string, m: string)
    ensures OnlyRoleEdited(bs, BindIn(bs, r, m), r)
    ensures OnlyRoleEdited(bs, UnbindIn(bs, r, m), r) && |UnbindIn(bs, r, m)| == |bs|
  {
  }

  // ---- tidiness ----

  ghost predicate NoRepeats(s: seq<string>) {
    forall i, j :: 0 <= i < j < |s| ==> s[i] != s[j]
  }

  ghost predicate DistinctRoles(bs: seq<Binding>) {
    forall i, j :: 0 <= i < j < |bs| ==> bs[i].role != bs[j].role
  }

  /** One binding per role, no member twice in a binding. */
  ghost predicate Tidy(bs: seq<Binding>) {
    DistinctRoles(bs) && forall i :: 0 <= i < |bs| ==> NoRepeats(bs[i].members)
  }

  lemma BindKeepsTidy(bs: seq<Binding>, r: string, m: string)
    requires Tidy(bs)
    ensures Tidy(BindIn(bs, r, m))
  {
  }

  lemma RemoveFirstKeeps(s: seq<string>, m: string)
    requires NoRepeats(s)
    ensures NoRepeats(RemoveFirst(s, m))
  {
  }

  lemma UnbindKeepsTidy(bs: seq<Binding>, r: string, m: string)
    requires Tidy(bs)
    ensures Tidy(UnbindIn(bs, r, m))
  {
    var k := FirstFor(bs, r);
    if k < |bs| {
      RemoveFirstKeeps(bs[k].members, m);
    }
  }

  lemma {:induction false} NoRepeatsCount(s: seq<string>, m: string)
    requires NoRepeats(s)
    ensures multiset(s)[m] == if m in s then 1 else 0
  {
    if s != [] {
      assert s == [s[0]] + s[1..];
      forall i | 0 <= i < |s[1..]|
        ensures s[1..][i] != s[0]
      {
        assert s[1..][i] == s[i + 1];
      }
      NoRepeatsCount(s[1..], m);
    }
  }

  lemma {:induction false} AbsentRole(bs: seq<Binding>, r: string, m: string)
    requires forall i :: 0 <= i < |bs| ==> bs[i].role != r
    ensures Occurs(bs, r, m) == 0
  {
    if bs != [] {
      AbsentRole(bs[1..], r, m);
    }
  }

  /** In a tidy policy a pair is listed once, in the first binding for its role, or not at all. */
  lemma TidyOccurs(bs: seq<Binding>, r: string, m: string)
    requires Tidy(bs)
    ensures Occurs(bs, r, m) == if m in FirstMembers(bs, r) then 1 else 0
    ensures (r, m) in Grants(bs) <==> m in FirstMembers(bs, r)
  {
    OccursIffGranted(bs, r, m);
    GrantedIsInGrants(bs, r, m);
    var k := FirstFor(bs, r);
    if k == |bs| {
      AbsentRole(bs, r, m);
    } else {
      var b := bs[k].(members := []);
      var cs := bs[k := b];
      NoRepeatsCount(bs[k].members, m);
      OccursUpdate(bs, k, b, r, m);
      assert Lists(bs[k], r, m) == if m in bs[k].members then 1 else 0;
      assert !Granted(cs, r, m);
      OccursIffGranted(cs, r, m);
    }
  }

  // ---- runs of edits ----

  datatype Op = Bind(role: string, member: string) | Unbind(role: string, member: string)

  /** What an edit does to the bindings, and the flag it returns. */
  function Edit(bs: seq<Binding>, op: Op): seq<Binding> {
    match op
    case Bind(r, m) => BindIn(bs, r, m)
    case Unbind(r, m) => UnbindIn(bs, r, m)
  }

  predicate Reports(bs: seq<Binding>, op: Op) {
    match op
    case Bind(r, m) => m !in FirstMembers(bs, r)
    case Unbind(r, m) => m in FirstMembers(bs, r)
  }

  /** The reference: insert and remove on a plain set of pairs. */
  function SetEdit(g: set<(string, string)>, op: Op): set<(string, string)> {
    match op
    case Bind(r, m) => g + {(r, m)}
    case Unbind(r, m) => g - {(r, m)}
  }

  function EditAll(bs: seq<Binding>, ops: seq<Op>): seq<Binding> {
    if ops == [] then bs else Edit(EditAll(bs, ops[..|ops| - 1]), ops[|ops| - 1])
  }

  function SetEditAll(g: set<(string, string)>, ops: seq<Op>): set<(string, string)> {
    if ops == [] then g else SetEdit(SetEditAll(g, ops[..|ops| - 1]), ops[|ops| - 1])
  }

  /** One more edit. */
  lemma EditOneMore(bs: seq<Binding>, g: set<(string, string)>, ops: seq<Op>, op: Op)
    ensures EditAll(bs, ops + [op]) == Edit(EditAll(bs, ops), op)
    ensures SetEditAll(g, ops + [op]) == SetEdit(SetEditAll(g, ops), op)
  {
    assert (ops + [op])[..|ops|] == ops;
  }

  /** One edit of a tidy policy is one edit of its set of pairs, and it reports true
      exactly when that set changed. */
  lemma EditRefines(bs: seq<Binding>, op: Op)
    requires Tidy(bs)
    ensures Tidy(Edit(bs, op))
    ensures Grants(Edit(bs, op)) == SetEdit(Grants(bs), op)
    ensures Reports(bs, op) <==> SetEdit(Grants(bs), op) != Grants(bs)
  {
    TidyOccurs(bs, op.role, op.member);
    match op
    case Bind(r, m) =>
      BindKeepsTidy(bs, r, m);
      BindInserts(bs, r, m);
    case Unbind(r, m) =>
      UnbindKeepsTidy(bs, r, m);
      UnbindRemoves(bs, r, m);
  }

  /** Any run of binds and unbinds is the same run on the set of pairs, and every edit
      of the run reports true exactly when it changes that set. */
  lemma {:induction false} EditsRefine(bs: seq<Binding>, ops: seq<Op>)
    requires Tidy(bs)
    ensures Tidy(EditAll(bs, ops))
    ensures Grants(EditAll(bs, ops)) == SetEditAll(Grants(bs), ops)
    ensures forall k :: 0 <= k < |ops| ==>
              (Reports(EditAll(bs, ops[..k]), ops[k]) <==>
               SetEditAll(Grants(bs), ops[..k + 1]) != SetEditAll(Grants(bs), ops[..k]))
  {
    if ops != [] {
      var n := |ops| - 1;
      EditsRefine(bs, ops[..n]);
      EditRefines(EditAll(bs, ops[..n]), ops[n]);
      assert ops[..n + 1] == ops;
      forall k | 0 <= k < n
        ensures Reports(EditAll(bs, ops[..k]), ops[k]) <==>
                SetEditAll(Grants(bs), ops[..k + 1]) != SetEditAll(Grants(bs), ops[..k])
      {
        assert ops[..n][..k] == ops[..k] && ops[..n][..k + 1] == ops[..k + 1];
      }
    }
  }

  ghost predicate Names(ops: seq<Op>, r: string) {
    exists k :: 0 <= k < |ops| && ops[k].role == r
  }

  /** What a run leaves alone, for every policy: each old binding keeps its place, role
      and condition, and its members too unless an edit names its role; each new
      binding is unconditional and for a role that an edit names. */
  lemma {:induction false} EditsTouchOnlyNamedRoles(bs: seq<Binding>, ops: seq<Op>)
    ensures var cs := EditAll(bs, ops);
            && |bs| <= |cs|
            && (forall i :: 0 <= i < |bs| ==>
                  && cs[i].role == bs[i].role && cs[i].condition == bs[i].condition
                  && (!Names(ops, bs[i].role) ==> cs[i] == bs[i]))
            && (forall i :: |bs| <= i < |cs| ==> cs[i].condition == None && Names(ops, cs[i].role))
  {
    if ops != [] {
      var n := |ops| - 1;
      var mid := EditAll(bs, ops[..n]);
      EditsTouchOnlyNamedRoles(bs, ops[..n]);
      EditsOnlyRole(mid, ops[n].role, ops[n].member);
      forall r | Names(ops[..n], r)
        ensures Names(ops, r)
      {
        var k :| 0 <= k < n && ops[..n][k].role == r;
        assert ops[k].role == r;
      }
      assert Names(ops, ops[n].role);
    }
  }

  /** For every policy: a pair that was bound stays granted until that very pair is
      unbound. */
  lemma {:induction false} BindSurvives(bs: seq<Binding>, ops: seq<Op>, i: nat, n: nat)
    requires i < n <= |ops| && ops[i].Bind?
    requires forall j :: i < j < |ops| ==> ops[j] != Unbind(ops[i].role, ops[i].member)
    ensures (ops[i].role, ops[i].member) in Grants(EditAll(bs, ops[..n]))
  {
    var mid, op := EditAll(bs, ops[..n - 1]), ops[n - 1];
    assert ops[..n] == ops[..n - 1] + [op];
    EditOneMore(bs, {}, ops[..n - 1], op);
    if i < n - 1 {
      BindSurvives(bs, ops, i, n - 1);
    }
    EditKeepsPair(mid, op, ops[i].role, ops[i].member);
  }

  lemma EditKeepsPair(bs: seq<Binding>, op: Op, r: string, m: string)
    requires op == Bind(r, m) || ((r, m) in Grants(bs) && op != Unbind(r, m))
    ensures (r, m) in Grants(Edit(bs, op))
  {
    match op
    case Bind(r', m') => BindInserts(bs, r', m');
    case Unbind(r', m') =>
      UnbindRemoves(bs, r', m');
      assert (r, m) in Grants(bs) - {(r', m')};
  }

  // ---- the code ----

  /** A *storage.PolicyBindings: its members are edited through the pointer. */
  class PolicyBinding {
    var role: string
    var members: seq<string>
    var condition: Option<Expr>

    constructor (r: string, ms: seq<string>, c: Option<Expr>)
      ensures role == r && members == ms && condition == c
    {
      role, members, condition := r, ms, c;
    }

    function View(): Binding
      reads this
    {
      Binding(role, members, condition)
    }
  }

  function ViewAll(bs: seq<PolicyBinding>): (r: seq<Binding>)
    reads bs
    ensures |r| == |bs| && forall i :: 0 <= i < |bs| ==> r[i] == bs[i].View()
  {
    if bs == [] then [] else [bs[0].View()] + ViewAll(bs[1..])
  }

  /** A *storage.Policy. */
  class StoragePolicy {
    var bindings: seq<PolicyBinding>
    var version: int
    var etag: string
    var kind: string
    var resourceId: string

    /** No two entries are the same pointer. */
    ghost predicate Valid()
      reads this
    {
      forall i, j :: 0 <= i < j < |bindings| ==> bindings[i] != bindings[j]
    }
  }

  lemma FirstIsUnique(bs: seq<Binding>, r: string, k: nat)
    requires k <= |bs| && forall i :: 0 <= i < k ==> bs[i].role != r
    requires k < |bs| ==> bs[k].role == r
    ensures FirstFor(bs, r) == k
  {
  }

  /** The loop over the bindings: the first one for the role, or none. */
  method FindRole(sp: StoragePolicy, role: string) returns (k: nat)
    ensures k <= |sp.bindings|
    ensures forall i :: 0 <= i < k ==> sp.bindings[i].role != role
    ensures k < |sp.bindings| ==> sp.bindings[k].role == role
  {
    for i := 0 to |sp.bindings|
      invariant forall j :: 0 <= j < i ==> sp.bindings[j].role != role
    {
      if sp.bindings[i].role == role {
        return i;
      }
    }
    return |sp.bindings|;
  }

  /** The loop over the members: the first index of the member, or -1. */
  method FindMember(members: seq<string>, m: string) returns (ix: int)
    ensures -1 <= ix < |members|
    ensures ix < 0 ==> m !in members
    ensures ix >= 0 ==> members[ix] == m && m !in members[..ix]
  {
    for i := 0 to |members|
      invariant m !in members[..i]
    {
      if members[i] == m {
        return i;
      }
    }
    return -1;
  }

  /** Writing the members through the pointer changes that binding and no other. */
  method SetMembers(sp: StoragePolicy, k: nat, ms: seq<string>)
    requires sp.Valid() && k < |sp.bindings|
    modifies sp.bindings[k]
    ensures ViewAll(sp.bindings) ==
            old(ViewAll(sp.bindings))[k := old(ViewAll(sp.bindings))[k].(members := ms)]
  {
    sp.bindings[k].members := ms;
  }

  method AppendBinding(sp: StoragePolicy, role: string, m: string)
    requires sp.Valid()
    modifies sp`bindings
    ensures sp.Valid()
    ensures ViewAll(sp.bindings) == old(ViewAll(sp.bindings)) + [Binding(role, [m], None)]
  {
    var added := new PolicyBinding(role, [m], None);
    sp.bindings := sp.bindings + [added];
  }

  method BindMember(role: string, m: string, sp: StoragePolicy) returns (changed: bool)
    requires sp.Valid()
    modifies sp`bindings, sp.bindings
    ensures sp.Valid()
    ensures ViewAll(sp.bindings) == BindIn(old(ViewAll(sp.bindings)), role, m)
    ensures changed <==> m !in FirstMembers(old(ViewAll(sp.bindings)), role)
  {
    ghost var bs := ViewAll(sp.bindings);
    var k := FindRole(sp, role);
    FirstIsUnique(bs, role, k);
    if k < |sp.bindings| {
      var ix := FindMember(sp.bindings[k].members, m);
      if ix >= 0 {
        return false;
      }
      SetMembers(sp, k, sp.bindings[k].members + [m]);
      return true;
    }
    AppendBinding(sp, role, m);
    return true;
  }

  /** Version and bindings are all that changes: the etag read with the policy goes
      back with it. */
  method BindRoleToMember(role: string, member: Option<string>, sp: StoragePolicy) returns (changed: bool)
    requires sp.Valid()
    modifies sp`version, sp`bindings, sp.bindings
    ensures sp.Valid() && sp.version == POLICY_VERSION
    ensures ViewAll(sp.bindings) == BindIn(old(ViewAll(sp.bindings)), role, StringValue(member))
    ensures changed <==> StringValue(member) !in FirstMembers(old(ViewAll(sp.bindings)), role)
  {
    sp.version := POLICY_VERSION;
    changed := BindMember(role, StringValue(member), sp);
  }

  /** The member at the found index is cut out of the slice. */
  method CutMember(members: seq<string>, m: string) returns (found: bool, rest: seq<string>)
    ensures found <==> m in members
    ensures rest == RemoveFirst(members, m)
  {
    var ix := FindMember(members, m);
    if ix >= 0 {
      return true, members[..ix] + members[ix + 1..];
    }
    return false, members;
  }

  method UnbindRoleFromMember(role: string, member: Option<string>, sp: StoragePolicy) returns (changed: bool)
    requires sp.Valid()
    modifies sp.bindings
    ensures sp.Valid()
    ensures ViewAll(sp.bindings) == UnbindIn(old(ViewAll(sp.bindings)), role, StringValue(member))
    ensures changed <==> StringValue(member) in FirstMembers(old(ViewAll(sp.bindings)), role)
  {
    ghost var bs := ViewAll(sp.bindings);
    var k := FindRole(sp, role);
    FirstIsUnique(bs, role, k);
    if k < |sp.bindings| {
      var found, rest := CutMember(sp.bindings[k].members, StringValue(member));
      if found {
        SetMembers(sp, k, rest);
        return true;
      }
      assert bs[k := bs[k].(members := rest)] == bs;
    }
    return false;
  }
}
