/** Whole IAM policies from a spec: buckets (pkg/clients/bucketpolicy/bucketpolicy.go:41-73)
    and crypto keys, which add nested audit configs
    (pkg/clients/cryptokeypolicy/cryptokeypolicy.go:41-93). */
module IamPolicies {
  import opened Gcp
  import opened BucketPolicy
  import opened Sorting
  import opened PolicyComparison

  datatype ExprSpec = ExprSpec(description: Option<string>, expression: string, location: Option<string>, title: Option<string>)
  datatype BindingSpec = BindingSpec(role: string, members: seq<string>, condition: Option<ExprSpec>)

  datatype AuditLog = AuditLog(logType: string, exempted: seq<string>)
  datatype AuditConfig = AuditConfig(service: string, logs: seq<AuditLog>)
  datatype KmsPolicy = KmsPolicy(bindings: seq<Binding>, audits: seq<AuditConfig>, version: int, etag: string)
  datatype KmsPolicySpec = KmsPolicySpec(bindings: seq<BindingSpec>, audits: seq<AuditConfig>)

  function GenerateBinding(s: BindingSpec): Binding {
    Binding(s.role, s.members,
            if s.condition.None? then None
            else Some(Expr(StringValue(s.condition.value.description), s.condition.value.expression,
                           StringValue(s.condition.value.location), StringValue(s.condition.value.title))))
  }

  function GenerateBindings(s: seq<BindingSpec>): (r: seq<Binding>)
    ensures |r| == |s|
  {
    seq(|s|, i requires 0 <= i < |s| => GenerateBinding(s[i]))
  }

  function GenerateBucketPolicy(s: seq<BindingSpec>, p: Policy): Policy {
    p.(bindings := GenerateBindings(s), version := POLICY_VERSION)
  }

  function GenerateKmsPolicy(s: KmsPolicySpec, p: KmsPolicy): KmsPolicy {
    p.(bindings := GenerateBindings(s.bindings), audits := s.audits, version := POLICY_VERSION)
  }

  // ---- comparison ----

  function CanonLogs(ls: seq<AuditLog>): (r: seq<AuditLog>)
    ensures |r| == |ls|
  {
    seq(|ls|, i requires 0 <= i < |ls| => AuditLog(ls[i].logType, Sort(Self, true, ls[i].exempted)))
  }

  function CanonAudits(a: seq<AuditConfig>): (r: seq<AuditConfig>)
    ensures |r| == |a|
  {
    seq(|a|, i requires 0 <= i < |a| => AuditConfig(a[i].service, CanonLogs(a[i].logs)))
  }

  /** cryptokeypolicy.ArePoliciesSame: audit configs and their logs are compared in
      order, only the exempted members are sorted. */
  predicate AreKmsPoliciesSame(p: KmsPolicy, q: KmsPolicy) {
    p.etag == q.etag && SameBindings(p.bindings, q.bindings) && CanonAudits(p.audits) == CanonAudits(q.audits)
  }

  predicate BucketUpToDate(s: seq<BindingSpec>, observed: Policy) {
    AreBucketPoliciesSame(GenerateBucketPolicy(s, observed), observed)
  }

  predicate KmsUpToDate(s: KmsPolicySpec, observed: KmsPolicy) {
    AreKmsPoliciesSame(GenerateKmsPolicy(s, observed), observed)
  }

  // ---- what it means ----

  ghost predicate LogsAlike(a: seq<AuditLog>, b: seq<AuditLog>) {
    && |a| == |b|
    && forall j :: 0 <= j < |a| ==>
      a[j].logType == b[j].logType && multiset(a[j].exempted) == multiset(b[j].exempted)
  }

  ghost predicate AuditsAlike(a: seq<AuditConfig>, b: seq<AuditConfig>) {
    && |a| == |b|
    && forall i :: 0 <= i < |a| ==> a[i].service == b[i].service && LogsAlike(a[i].logs, b[i].logs)
  }

  lemma LogsAgree(a: seq<AuditLog>, b: seq<AuditLog>)
    ensures CanonLogs(a) == CanonLogs(b) <==> LogsAlike(a, b)
  {
    if |a| == |b| {
      forall j | 0 <= j < |a|
        ensures CanonLogs(a)[j] == CanonLogs(b)[j] <==>
                a[j].logType == b[j].logType && multiset(a[j].exempted) == multiset(b[j].exempted)
      {
        SortedStringsAgree(true, a[j].exempted, b[j].exempted);
      }
    }
  }

  lemma AuditsAgree(a: seq<AuditConfig>, b: seq<AuditConfig>)
    ensures CanonAudits(a) == CanonAudits(b) <==> AuditsAlike(a, b)
  {
    if |a| == |b| {
      forall i | 0 <= i < |a|
        ensures CanonAudits(a)[i] == CanonAudits(b)[i] <==>
                a[i].service == b[i].service && LogsAlike(a[i].logs, b[i].logs)
      {
        LogsAgree(a[i].logs, b[i].logs);
      }
    }
  }

  lemma KmsPoliciesSameIff(p: KmsPolicy, q: KmsPolicy)
    ensures AreKmsPoliciesSame(p, q) <==>
            && p.etag == q.etag && AuditsAlike(p.audits, q.audits)
            && forall r: string :: AlikeAt(p.bindings, q.bindings, r)
  {
    SameIffAlikePerRole(p.bindings, q.bindings);
    AuditsAgree(p.audits, q.audits);
  }

  // ---- the spec, read by itself ----

  function SpecRole(s: BindingSpec): string {
    s.role
  }

  predicate OptionalText(s: Option<string>, o: string) {
    match s
    case None => o == ""
    case Some(text) => o == text
  }

  /** The condition is there exactly when the spec has one, with the same four texts. */
  predicate ConditionSays(s: Option<ExprSpec>, o: Option<Expr>) {
    && (s.Some? <==> o.Some?)
    && (s.Some? ==>
          && OptionalText(s.value.description, o.value.description)
          && s.value.expression == o.value.expression
          && OptionalText(s.value.location, o.value.location)
          && OptionalText(s.value.title, o.value.title))
  }

  predicate BindingSays(s: BindingSpec, b: Binding) {
    s.role == b.role && multiset(s.members) == multiset(b.members) && ConditionSays(s.condition, b.condition)
  }

  ghost predicate BindingsSay(s: seq<BindingSpec>, bs: seq<Binding>) {
    |s| == |bs| && forall i :: 0 <= i < |s| ==> BindingSays(s[i], bs[i])
  }

  /** For one role, spec and policy list the same, in order, member order aside. */
  ghost predicate SaysAt(s: seq<BindingSpec>, bs: seq<Binding>, r: string) {
    BindingsSay(WithKey(SpecRole, s, r), WithKey(RoleOf, bs, r))
  }

  lemma GeneratedSays(s: BindingSpec, b: Binding)
    ensures BindingSays(s, GenerateBinding(s))
    ensures BindingSays(s, b) <==> SameMembers(GenerateBinding(s), b)
  {
  }

  lemma {:induction false} GeneratedWithKey(s: seq<BindingSpec>, r: string)
    ensures WithKey(RoleOf, GenerateBindings(s), r) == GenerateBindings(WithKey(SpecRole, s, r))
  {
    if s != [] {
      GeneratedWithKey(s[1..], r);
      assert GenerateBindings(s)[1..] == GenerateBindings(s[1..]);
      var head := if s[0].role == r then [s[0]] else [];
      assert GenerateBindings(head + WithKey(SpecRole, s[1..], r)) ==
             GenerateBindings(head) + GenerateBindings(WithKey(SpecRole, s[1..], r));
    }
  }

  lemma SaysAtIff(s: seq<BindingSpec>, bs: seq<Binding>, r: string)
    ensures SaysAt(s, bs, r) <==> AlikeAt(GenerateBindings(s), bs, r)
  {
    GeneratedWithKey(s, r);
    var x, y := WithKey(SpecRole, s, r), WithKey(RoleOf, bs, r);
    if |x| == |y| {
      forall i | 0 <= i < |x|
        ensures BindingSays(x[i], y[i]) <==> SameMembers(GenerateBindings(x)[i], y[i])
      {
        GeneratedSays(x[i], y[i]);
      }
    }
  }

  /** A bucket policy is up to date exactly when, role by role, it lists what the spec
      lists, member order aside. Version, etag and the rest do not matter. */
  lemma BucketUpToDateIff(s: seq<BindingSpec>, observed: Policy)
    ensures BucketUpToDate(s, observed) <==> forall r: string :: SaysAt(s, observed.bindings, r)
  {
    SameIffSpecSays(s, observed.bindings);
  }

  lemma SameIffSpecSays(s: seq<BindingSpec>, bs: seq<Binding>)
    ensures SameBindings(GenerateBindings(s), bs) <==> forall r: string :: SaysAt(s, bs, r)
  {
    SameIffAlikePerRole(GenerateBindings(s), bs);
    forall r: string
      ensures SaysAt(s, bs, r) <==> AlikeAt(GenerateBindings(s), bs, r)
    {
      SaysAtIff(s, bs, r);
    }
  }

  lemma KmsUpToDateIff(s: KmsPolicySpec, observed: KmsPolicy)
    ensures KmsUpToDate(s, observed) <==>
            && (forall r: string :: SaysAt(s.bindings, observed.bindings, r))
            && AuditsAlike(s.audits, observed.audits)
  {
    SameIffSpecSays(s.bindings, observed.bindings);
    AuditsAgree(s.audits, observed.audits);
  }

  /** What is generated: the bindings of the spec one for one, in order, and the format
      version that supports conditions; nothing else changes. */
  lemma GeneratedPolicyIsSpec(s: KmsPolicySpec, prior: KmsPolicy, bindings: seq<BindingSpec>, priorBucket: Policy)
    ensures var p := GenerateKmsPolicy(s, prior);
            BindingsSay(s.bindings, p.bindings) && p.audits == s.audits && p.version == 3 && p.etag == prior.etag
    ensures var p := GenerateBucketPolicy(bindings, priorBucket);
            && BindingsSay(bindings, p.bindings) && p.version == 3
            && p == priorBucket.(bindings := p.bindings, version := 3)
  {
  }

  /** Writing settles: for every spec, whatever was there before, what was written is
      up to date. */
  lemma WritingSettles(s: KmsPolicySpec, prior: KmsPolicy, bindings: seq<BindingSpec>, priorBucket: Policy)
    ensures KmsUpToDate(s, GenerateKmsPolicy(s, prior))
    ensures BucketUpToDate(bindings, GenerateBucketPolicy(bindings, priorBucket))
  {
  }

  /** And with one binding per role, in whichever order the service gives back the
      bindings and members of what was written, the policy is up to date. */
  lemma WrittenKmsPolicySettles(s: KmsPolicySpec, prior: KmsPolicy, later: KmsPolicy)
    requires DistinctRoles(GenerateBindings(s.bindings)) && DistinctRoles(later.bindings)
    requires var written := GenerateKmsPolicy(s, prior);
             && (forall r: string :: MeaningOf(later.bindings, r) == MeaningOf(written.bindings, r))
             && AuditsAlike(written.audits, later.audits)
    ensures KmsUpToDate(s, later)
  {
    SameIffSameMap(GenerateBindings(s.bindings), later.bindings);
    AuditsAgree(s.audits, later.audits);
  }

  // ---- the code ----

  method FillBindings(s: seq<BindingSpec>) returns (r: seq<Binding>)
    ensures r == GenerateBindings(s)
  {
    r := seq(|s|, _ => Binding("", [], None));
    for i := 0 to |s|
      invariant |r| == |s|
      invariant forall k | 0 <= k < i :: r[k] == GenerateBinding(s[k])
    {
      var b := Binding("", [], None);
      if s[i].condition.Some? {
        var c := s[i].condition.value;
        b := b.(condition := Some(Expr(StringValue(c.description), c.expression,
                                       StringValue(c.location), StringValue(c.title))));
      }
      b := b.(members := s[i].members);
      r := r[i := b.(role := s[i].role)];
    }
  }

  method GenerateBucketPolicyInstance(s: seq<BindingSpec>, sp: Pointer<Policy>)
    modifies sp
    ensures sp.it == GenerateBucketPolicy(s, old(sp.it))
    ensures BindingsSay(s, sp.it.bindings)
  {
    var bindings := FillBindings(s);
    sp.it := sp.it.(bindings := bindings);
    sp.it := sp.it.(version := POLICY_VERSION);
  }

  method FillLogs(s: seq<AuditLog>) returns (r: seq<AuditLog>)
    ensures r == s
  {
    r := seq(|s|, _ => AuditLog("", []));
    for i := 0 to |s|
      invariant |r| == |s|
      invariant forall k | 0 <= k < i :: r[k] == s[k]
    {
      r := r[i := AuditLog(s[i].logType, s[i].exempted)];
    }
  }

  method FillAudits(s: seq<AuditConfig>) returns (r: seq<AuditConfig>)
    ensures r == s
  {
    r := seq(|s|, _ => AuditConfig("", []));
    for i := 0 to |s|
      invariant |r| == |s|
      invariant forall k | 0 <= k < i :: r[k] == s[k]
    {
      var logs := FillLogs(s[i].logs);
      r := r[i := AuditConfig(s[i].service, logs)];
    }
  }

  method GenerateCryptoKeyPolicyInstance(s: KmsPolicySpec, ck: Pointer<KmsPolicy>)
    modifies ck
    ensures ck.it == GenerateKmsPolicy(s, old(ck.it))
    ensures BindingsSay(s.bindings, ck.it.bindings) && ck.it.audits == s.audits
  {
    var bindings := FillBindings(s.bindings);
    ck.it := ck.it.(bindings := bindings);
    var audits := FillAudits(s.audits);
    ck.it := ck.it.(audits := audits);
    ck.it := ck.it.(version := POLICY_VERSION);
  }

  method IsCryptoKeyPolicyUpToDate(s: KmsPolicySpec, observed: KmsPolicy) returns (upToDate: bool)
    ensures upToDate <==>
            && (forall r: string :: SaysAt(s.bindings, observed.bindings, r))
            && AuditsAlike(s.audits, observed.audits)
  {
    var desired := new Pointer(observed);
    GenerateCryptoKeyPolicyInstance(s, desired);
    upToDate := AreKmsPoliciesSame(desired.it, observed);
    KmsUpToDateIff(s, observed);
  }
}
