/** Conversion of a bucket's updatable attributes to the storage API's form and back
    (apis/storage/v1alpha3/types.go:199-668). */
module BucketAttrs {
  import opened Gcp

  /** An instant; ZERO_TIME is Go's zero time. */
  type Time = int
  const ZERO_TIME: Time := 0

  datatype Action = Action(kind: string, storageClass: string)
  datatype PolicyOnly = PolicyOnly(enabled: bool, lockedTime: Time)
  datatype Cors = Cors(maxAge: int, methods: seq<string>, origins: seq<string>, headers: seq<string>)
  datatype Logging = Logging(bucket: string, prefix: string)
  datatype Website = Website(suffix: string, notFound: string)
  datatype Plain = Plain(
    hold: bool, encryption: Option<string>, labels: map<string, string>, logging: Option<Logging>,
    acl: string, objectAcl: string, requesterPays: bool, versioning: bool, website: Option<Website>)

  // ---- the storage API's form ----

  datatype StorageCondition = StorageCondition(
    age: int, createdBefore: Time, liveness: int, classes: seq<string>, newer: int)
  datatype StorageRule = StorageRule(action: Action, condition: StorageCondition)

  /** The period is in nanoseconds, as a time.Duration. */
  datatype StorageRetention = StorageRetention(period: int, effectiveTime: Time, locked: bool)
  datatype StorageAttrs = StorageAttrs(
    policyOnly: PolicyOnly, cors: Option<seq<Cors>>, rules: Option<seq<StorageRule>>,
    retention: Option<StorageRetention>, plain: Plain)

  // ---- the provider's form ----

  datatype Condition = Condition(
    age: int, createdBefore: Option<Time>, liveness: int, classes: seq<string>, newer: int)
  datatype Rule = Rule(action: Action, condition: Condition)
  datatype UpdatableAttrs = UpdatableAttrs(
    policyOnly: Option<PolicyOnly>, cors: Option<seq<Cors>>, rules: Option<seq<Rule>>,
    retention: Option<int>, plain: Plain)

  // ---- retention time ----

  const SECOND := 1_000_000_000
  const TWO_63 := 0x8000_0000_0000_0000
  const TWO_64 := 0x1_0000_0000_0000_0000

  /** The largest number of whole seconds that a time.Duration holds. */
  const MAX_SECONDS := 9_223_372_036

  /** The longest period that the API type admits. */
  const MAX_RETENTION := 3_155_673_600

  predicate Int64(x: int) {
    -TWO_63 <= x < TWO_63
  }

  /** Two's complement wrap-around. */
  function Wrap64(x: int): (r: int)
    ensures Int64(r)
    ensures Int64(x) ==> r == x
  {
    (x + TWO_63) % TWO_64 - TWO_63
  }

  /** int(d.Seconds()): towards zero. */
  function Seconds(d: int): (r: int)
    ensures ReadsAs(d, r) || !Int64(d)
  {
    if d >= 0 then d / SECOND else -((-d) / SECOND)
  }

  /** Every number of seconds that a floating-point reading of `d` could truncate to:
      the exact one, or for a fraction of a second either neighbour. */
  predicate ReadsAs(d: int, r: int) {
    && -MAX_SECONDS <= r <= MAX_SECONDS
    && (d % SECOND == 0 ==> r * SECOND == d)
    && -SECOND < r * SECOND - d < SECOND
  }

  function CopyToRetention(r: Option<int>): Option<StorageRetention> {
    Some(StorageRetention(Wrap64(Int64Value(r) * SECOND), ZERO_TIME, false))
  }

  function NewRetention(r: Option<StorageRetention>): Option<int> {
    if r.None? then None else Some(Seconds(r.value.period))
  }

  /** The seconds come back unchanged exactly up to the range of a Duration, however
      the fraction is rounded, and every admitted period is in that range. */
  lemma RetentionReturnsIff(seconds: int, r: int)
    requires Int64(seconds) && ReadsAs(Wrap64(seconds * SECOND), r)
    ensures r == seconds <==> -MAX_SECONDS <= seconds <= MAX_SECONDS
    ensures 0 <= seconds <= MAX_RETENTION ==> Int64(seconds * SECOND) && r == seconds
  {
  }

  // ---- lists, element by element ----

  function CopyToCondition(c: Condition): StorageCondition {
    StorageCondition(c.age, OrZero(c.createdBefore, ZERO_TIME), c.liveness, c.classes, c.newer)
  }

  function NewCondition(c: StorageCondition): Condition {
    Condition(c.age, Some(c.createdBefore), c.liveness, c.classes, c.newer)
  }

  function CopyToRule(r: Rule): StorageRule {
    StorageRule(r.action, CopyToCondition(r.condition))
  }

  function NewRule(r: StorageRule): Rule {
    Rule(r.action, NewCondition(r.condition))
  }

  /** Nil and empty both become nil. */
  function CopyToRules(rs: Option<seq<Rule>>): Option<seq<StorageRule>> {
    if rs.None? || rs.value == [] then None
    else Some(seq(|rs.value|, i requires 0 <= i < |rs.value| => CopyToRule(rs.value[i])))
  }

  function NewRules(rs: Option<seq<StorageRule>>): Option<seq<Rule>> {
    if rs.None? || rs.value == [] then None
    else Some(seq(|rs.value|, i requires 0 <= i < |rs.value| => NewRule(rs.value[i])))
  }

  /** Each conversion keeps every part in its place. */
  lemma RulesKeepTheirParts(r: Rule, t: StorageRule)
    ensures var c := CopyToRule(r);
            && c.action == r.action && c.condition.age == r.condition.age
            && c.condition.liveness == r.condition.liveness && c.condition.classes == r.condition.classes
            && c.condition.newer == r.condition.newer
            && Says(r.condition.createdBefore, c.condition.createdBefore)
    ensures var n := NewRule(t);
            && n.action == t.action && n.condition.age == t.condition.age
            && n.condition.liveness == t.condition.liveness && n.condition.classes == t.condition.classes
            && n.condition.newer == t.condition.newer && n.condition.createdBefore == Some(t.condition.createdBefore)
  {
  }

  /** An admitted retention period is sent as that many times 10^9 nanoseconds, and none
      as zero. */
  lemma RetentionIsSent(r: Option<int>)
    requires r.Some? ==> 0 <= r.value <= MAX_RETENTION
    ensures CopyToRetention(r).Some?
    ensures CopyToRetention(r).value.period == if r.Some? then r.value * 1_000_000_000 else 0
  {
  }

  // ---- the whole record ----

  function CopyToBucketAttrs(u: UpdatableAttrs): StorageAttrs {
    StorageAttrs(OrZero(u.policyOnly, PolicyOnly(false, ZERO_TIME)), u.cors, CopyToRules(u.rules),
                 CopyToRetention(u.retention), u.plain)
  }

  function NewBucketUpdatableAttrs(a: StorageAttrs): UpdatableAttrs {
    UpdatableAttrs(if a.policyOnly == PolicyOnly(false, ZERO_TIME) then None else Some(a.policyOnly), a.cors,
                   NewRules(a.rules), NewRetention(a.retention), a.plain)
  }

  /** Both conversions of the whole record keep every part in its place. No retention
      policy is read as none, but written as one of zero; an all-zero policy-only block
      is read as none. */
  lemma AttrsKeepTheirParts(u: UpdatableAttrs, a: StorageAttrs)
    ensures var c := CopyToBucketAttrs(u);
            && c.cors == u.cors && c.plain == u.plain && Says(u.policyOnly, c.policyOnly)
            && (u.policyOnly.None? ==> !c.policyOnly.enabled && c.policyOnly.lockedTime == ZERO_TIME)
            && (c.rules.Some? <==> u.rules.Some? && u.rules.value != []) && c.retention.Some?
    ensures var n := NewBucketUpdatableAttrs(a);
            && n.cors == a.cors && n.plain == a.plain
            && (n.policyOnly.Some? <==> a.policyOnly.enabled || a.policyOnly.lockedTime != ZERO_TIME)
            && Says(n.policyOnly, a.policyOnly)
            && (n.rules.Some? <==> a.rules.Some? && a.rules.value != [])
            && (n.retention.Some? <==> a.retention.Some?)
  {
  }

  /** Into storage form and back. */
  function Normalise(u: UpdatableAttrs): UpdatableAttrs {
    NewBucketUpdatableAttrs(CopyToBucketAttrs(u))
  }

  predicate Dated(rs: seq<Rule>) {
    forall i :: 0 <= i < |rs| ==> rs[i].condition.createdBefore.Some?
  }

  /** What survives unchanged: no all-zero policy-only block, a retention period a
      Duration can hold, and a rule list that is nil, or non-empty and fully dated. */
  predicate Normal(u: UpdatableAttrs) {
    && u.policyOnly != Some(PolicyOnly(false, ZERO_TIME))
    && u.retention.Some? && -MAX_SECONDS <= u.retention.value <= MAX_SECONDS
    && (u.rules.Some? ==> u.rules.value != [] && Dated(u.rules.value))
  }

  lemma RulesElementwise(rs: seq<Rule>)
    requires rs != []
    ensures NewRules(CopyToRules(Some(rs))).Some?
    ensures var n := NewRules(CopyToRules(Some(rs))).value;
            && |n| == |rs|
            && forall i :: 0 <= i < |rs| ==>
                 n[i] == rs[i].(condition := rs[i].condition.(
                                  createdBefore := Some(OrZero(rs[i].condition.createdBefore, ZERO_TIME))))
  {
  }

  lemma RulesReturnIff(rs: Option<seq<Rule>>)
    ensures NewRules(CopyToRules(rs)) == rs <==> (rs.Some? ==> rs.value != [] && Dated(rs.value))
  {
    if rs.Some? && rs.value != [] {
      RulesElementwise(rs.value);
      var n := NewRules(CopyToRules(rs)).value;
      if Dated(rs.value) {
        assert n == rs.value;
      } else {
        var i :| 0 <= i < |rs.value| && rs.value[i].condition.createdBefore.None?;
        assert n[i] != rs.value[i];
      }
    }
  }

  lemma RetentionNormalises(r: Option<int>)
    requires r.Some? ==> Int64(r.value)
    ensures var n := NewRetention(CopyToRetention(r));
            && n.Some? && -MAX_SECONDS <= n.value <= MAX_SECONDS
            && (n == r <==> r.Some? && -MAX_SECONDS <= r.value <= MAX_SECONDS)
  {
  }

  /** The round trip is the identity exactly on the normal attributes. */
  lemma RoundTripIff(u: UpdatableAttrs)
    requires u.retention.Some? ==> Int64(u.retention.value)
    ensures Normalise(u) == u <==> Normal(u)
  {
    RulesReturnIff(u.rules);
    RetentionNormalises(u.retention);
  }

  /** And always ends on normal attributes, so a second round trip changes nothing. */
  lemma NormaliseIsIdempotent(u: UpdatableAttrs)
    requires u.retention.Some? ==> Int64(u.retention.value)
    ensures Normal(Normalise(u)) && Normalise(Normalise(u)) == Normalise(u)
  {
    var n := Normalise(u);
    RetentionNormalises(u.retention);
    if u.rules.Some? && u.rules.value != [] {
      RulesElementwise(u.rules.value);
    }
    RoundTripIff(n);
  }

  /** From the API's side the round trip keeps everything but what only the service
      sets, the difference between nil and no rules, and fractions of a second. */
  lemma StorageRoundTrip(a: StorageAttrs)
    requires a.retention.Some? ==> Int64(a.retention.value.period)
    ensures CopyToBucketAttrs(NewBucketUpdatableAttrs(a)) == a <==>
            && a.rules != Some([])
            && a.retention.Some? && a.retention.value.period % SECOND == 0
            && a.retention.value.effectiveTime == ZERO_TIME && !a.retention.value.locked
  {
    StorageRulesReturn(a.rules);
    if a.retention.Some? {
      var d := a.retention.value.period;
      PeriodReturnsIff(d);
    }
  }

  lemma PeriodReturnsIff(d: int)
    requires Int64(d)
    ensures Wrap64(Seconds(d) * SECOND) == d <==> d % SECOND == 0
  {
  }

  lemma StorageRulesReturn(rs: Option<seq<StorageRule>>)
    ensures CopyToRules(NewRules(rs)) == rs <==> rs != Some([])
  {
    if rs.Some? && rs.value != [] {
      assert CopyToRules(NewRules(rs)).value == rs.value;
    }
  }

  // ---- the code: list converters fill slices by index ----

  method NewLifecycle(rs: Option<seq<StorageRule>>) returns (r: Option<seq<Rule>>)
    ensures r == NewRules(rs)
  {
    r := None;
    if rs.Some? && |rs.value| > 0 {
      var v := rs.value;
      var out := seq(|v|, _ => Rule(Action("", ""), Condition(0, None, 0, [], 0)));
      for i := 0 to |v|
        invariant |out| == |v|
        invariant forall k | 0 <= k < i :: out[k] == NewRule(v[k])
      {
        out := out[i := NewRule(v[i])];
      }
      assert out == NewRules(rs).value;
      r := Some(out);
    }
  }

  method CopyToLifecycle(rs: Option<seq<Rule>>) returns (r: Option<seq<StorageRule>>)
    ensures r == CopyToRules(rs)
  {
    r := None;
    if rs.Some? && |rs.value| > 0 {
      var v := rs.value;
      var out := seq(|v|, _ => StorageRule(Action("", ""), StorageCondition(0, ZERO_TIME, 0, [], 0)));
      for i := 0 to |v|
        invariant |out| == |v|
        invariant forall k | 0 <= k < i :: out[k] == CopyToRule(v[k])
      {
        out := out[i := CopyToRule(v[i])];
      }
      assert out == CopyToRules(rs).value;
      r := Some(out);
    }
  }

  /** Both directions of the CORS list: nil stays nil, an empty list stays empty. */
  method ConvertCorsList(c: Option<seq<Cors>>) returns (r: Option<seq<Cors>>)
    ensures r == c
  {
    if c.None? {
      return None;
    }
    var v := c.value;
    var out := seq(|v|, _ => Cors(0, [], [], []));
    for i := 0 to |v|
      invariant |out| == |v|
      invariant forall k | 0 <= k < i :: out[k] == v[k]
    {
      out := out[i := Cors(v[i].maxAge, v[i].methods, v[i].origins, v[i].headers)];
    }
    assert out == v;
    return Some(out);
  }
}
