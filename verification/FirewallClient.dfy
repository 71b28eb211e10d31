/** Compute firewalls (pkg/clients/firewall/firewall.go:36-140): the overlay, the
    comparison under EquateComputeURLs, and late initialisation of deny rules. */
module FirewallClient {
  import opened Gcp
  import opened ComputeUrls

  datatype Rule = Rule(protocol: string, ports: seq<string>)
  datatype LogConfig = LogConfig(enable: bool, metadata: string)
  datatype Lists = Lists(
    sourceRanges: seq<string>, destinationRanges: seq<string>, sourceTags: seq<string>,
    targetTags: seq<string>, sourceAccounts: seq<string>, targetAccounts: seq<string>)
  datatype Firewall = Firewall(
    name: string, description: string, network: string, priority: int, lists: Lists,
    direction: string, disabled: bool, allowed: seq<Rule>, denied: seq<Rule>,
    logConfig: Option<LogConfig>, selfLink: string)

  /** Rules are pointers in the spec; late initialisation can leave nil ones behind. */
  type Rules = Option<seq<Option<Rule>>>
  datatype FirewallSpec = FirewallSpec(
    description: Option<string>, network: Option<string>, priority: Option<int>, lists: Lists,
    direction: Option<string>, disabled: Option<bool>, allowed: Rules, denied: Rules,
    logConfig: Option<bool>)

  predicate NoNil(rs: seq<Option<Rule>>) {
    forall i :: 0 <= i < |rs| ==> rs[i].Some?
  }

  function Deref(rs: seq<Option<Rule>>): (r: seq<Rule>)
    requires NoNil(rs)
    ensures |r| == |rs|
  {
    seq(|rs|, i requires 0 <= i < |rs| => rs[i].value)
  }

  predicate Readable(s: FirewallSpec) {
    (s.allowed.Some? ==> NoNil(s.allowed.value)) && (s.denied.Some? ==> NoNil(s.denied.value))
  }

  /** The overlay. A log config in the spec replaces the observed one, metadata included. */
  function Overlay(name: string, s: FirewallSpec, o: Firewall): Firewall
    requires Readable(s)
  {
    Firewall(name, StringValue(s.description), StringValue(s.network), Int64Value(s.priority), s.lists,
             StringValue(s.direction), BoolValue(s.disabled),
             if s.allowed.Some? then Deref(s.allowed.value) else o.allowed,
             if s.denied.Some? then Deref(s.denied.value) else o.denied,
             if s.logConfig.Some? then Some(LogConfig(s.logConfig.value, "")) else o.logConfig,
             o.selfLink)
  }

  // ---- cmp.Equal, with every string compared by EquateComputeURLs ----

  predicate SameStrings(a: seq<string>, b: seq<string>) {
    |a| == |b| && forall i :: 0 <= i < |a| ==> EquateComputeURLs(a[i], b[i])
  }

  predicate SameRules(a: seq<Rule>, b: seq<Rule>) {
    |a| == |b| && forall i :: 0 <= i < |a| ==>
      EquateComputeURLs(a[i].protocol, b[i].protocol) && SameStrings(a[i].ports, b[i].ports)
  }

  predicate SameLists(a: Lists, b: Lists) {
    && SameStrings(a.sourceRanges, b.sourceRanges) && SameStrings(a.destinationRanges, b.destinationRanges)
    && SameStrings(a.sourceTags, b.sourceTags) && SameStrings(a.targetTags, b.targetTags)
    && SameStrings(a.sourceAccounts, b.sourceAccounts) && SameStrings(a.targetAccounts, b.targetAccounts)
  }

  predicate SameLogConfig(a: Option<LogConfig>, b: Option<LogConfig>) {
    && (a.Some? <==> b.Some?)
    && (a.Some? ==> a.value.enable == b.value.enable && EquateComputeURLs(a.value.metadata, b.value.metadata))
  }

  predicate SameFirewall(a: Firewall, b: Firewall) {
    && EquateComputeURLs(a.name, b.name) && EquateComputeURLs(a.description, b.description)
    && EquateComputeURLs(a.network, b.network) && a.priority == b.priority && SameLists(a.lists, b.lists)
    && EquateComputeURLs(a.direction, b.direction) && a.disabled == b.disabled
    && SameRules(a.allowed, b.allowed) && SameRules(a.denied, b.denied)
    && SameLogConfig(a.logConfig, b.logConfig) && EquateComputeURLs(a.selfLink, b.selfLink)
  }

  lemma SameFirewallIsReflexive(a: Firewall)
    ensures SameFirewall(a, a)
  {
  }

  /** A spec that describes the observed firewall, but names its network by any path
      suffix of the observed URL, is up to date. */
  lemma SuffixNamedNetworkIsUpToDate(name: string, s: FirewallSpec, o: Firewall, path: string, v: string)
    requires Readable(s) && o.network == COMPUTE_URI_PREFIX + path
    requires PathSuffix(v, path) && !OnlySlashes(v) && !Qualified(v) && s.network == Some(v)
    requires Overlay(name, s.(network := Some(o.network)), o) == o
    ensures SameFirewall(Overlay(name, s, o), o)
  {
    SuffixEquates(v, path);
    SameFirewallIsReflexive(o);
    assert Overlay(name, s, o) == o.(network := v);
  }

  /** And so is a spec that names the network of another project: two qualified
      networks count as equal exactly when their last components are. */
  lemma ForeignNetworkIsUpToDate(name: string, s: FirewallSpec, o: Firewall, u: string, n: string, v: string, m: string)
    requires n != "" && m != "" && '/' !in n && '/' !in m
    requires Readable(s) && o.network == COMPUTE_URI_PREFIX + (u + "/" + n)
    requires s.network == Some(COMPUTE_URI_PREFIX + (v + "/" + m))
    requires Overlay(name, s.(network := Some(o.network)), o) == o
    ensures SameFirewall(Overlay(name, s, o), o) <==> n == m
  {
    QualifiedEquatesIff(v, m, u, n);
    SameFirewallIsReflexive(o);
    assert Overlay(name, s, o) == o.(network := s.network.value);
  }

  // ---- what up to date means ----

  /** The rule lists: what the spec lists, entry by entry, or no list in the spec. */
  predicate RulesDescribed(s: Rules, o: seq<Rule>) {
    s.Some? ==>
      && |s.value| == |o|
      && forall i :: 0 <= i < |o| ==>
        && s.value[i].Some? && EquateComputeURLs(s.value[i].value.protocol, o[i].protocol)
        && SameStrings(s.value[i].value.ports, o[i].ports)
  }

  /** The observed firewall is the one the spec describes, read off the spec itself. An
      unset scalar asks for its zero value; an unset list of rules or log config asks
      for nothing. */
  predicate Described(name: string, s: FirewallSpec, o: Firewall) {
    && EquateComputeURLs(name, o.name)
    && EquateComputeURLs(if s.description.Some? then s.description.value else "", o.description)
    && EquateComputeURLs(if s.network.Some? then s.network.value else "", o.network)
    && o.priority == (if s.priority.Some? then s.priority.value else 0)
    && SameStrings(s.lists.sourceRanges, o.lists.sourceRanges)
    && SameStrings(s.lists.destinationRanges, o.lists.destinationRanges)
    && SameStrings(s.lists.sourceTags, o.lists.sourceTags)
    && SameStrings(s.lists.targetTags, o.lists.targetTags)
    && SameStrings(s.lists.sourceAccounts, o.lists.sourceAccounts)
    && SameStrings(s.lists.targetAccounts, o.lists.targetAccounts)
    && EquateComputeURLs(if s.direction.Some? then s.direction.value else "", o.direction)
    && o.disabled == (s.disabled == Some(true))
    && RulesDescribed(s.allowed, o.allowed) && RulesDescribed(s.denied, o.denied)
    && (s.logConfig.Some? ==>
          && o.logConfig.Some? && o.logConfig.value.enable == s.logConfig.value
          && EquateComputeURLs("", o.logConfig.value.metadata))
  }

  lemma RulesDescribedIff(s: Rules, o: seq<Rule>)
    requires s.Some? ==> NoNil(s.value)
    ensures RulesDescribed(s, o) <==> SameRules(if s.Some? then Deref(s.value) else o, o)
  {
  }

  lemma UpToDateIffDescribed(name: string, s: FirewallSpec, o: Firewall)
    requires Readable(s)
    ensures SameFirewall(Overlay(name, s, o), o) <==> Described(name, s, o)
  {
    RulesDescribedIff(s.allowed, o.allowed);
    RulesDescribedIff(s.denied, o.denied);
    SameFirewallIsReflexive(o);
  }

  /** The generated firewall has exactly what the spec says. */
  lemma OverlayHasSpec(name: string, s: FirewallSpec, o: Firewall)
    requires Readable(s)
    ensures Described(name, s, Overlay(name, s, o))
    ensures var d := Overlay(name, s, o);
            && d.name == name && Says(s.description, d.description) && Says(s.network, d.network)
            && Says(s.priority, d.priority) && d.lists == s.lists && Says(s.direction, d.direction)
            && Says(s.disabled, d.disabled)
            && (s.allowed.Some? ==>
                  && |d.allowed| == |s.allowed.value|
                  && forall i :: 0 <= i < |d.allowed| ==> Some(d.allowed[i]) == s.allowed.value[i])
            && (s.denied.Some? ==>
                  && |d.denied| == |s.denied.value|
                  && forall i :: 0 <= i < |d.denied| ==> Some(d.denied[i]) == s.denied.value[i])
  {
  }

  // ---- late initialisation of deny rules ----

  /** The new list is sized by the allow rules and filled with the deny rules. */
  function LateDenied(s: Rules, o: Firewall): Outcome<Rules> {
    if o.denied == [] || (s.Some? && s.value != []) then Returns(s)
    else if |o.denied| > |o.allowed| then Panics
    else Returns(Some(seq(|o.allowed|, i requires 0 <= i < |o.allowed| =>
                        if i < |o.denied| then Some(o.denied[i]) else None)))
  }

  /** Adopting deny rules, and reading them back when the firewall is generated, goes
      well exactly when there are as many allow rules; then the copy is exact. */
  lemma DeniedAdoption(s: FirewallSpec, o: Firewall)
    requires (s.denied.None? || s.denied.value == []) && (s.allowed.Some? ==> NoNil(s.allowed.value))
    requires o.denied != []
    ensures (LateDenied(s.denied, o).Returns? && Readable(s.(denied := LateDenied(s.denied, o).value))) <==>
            |o.denied| == |o.allowed|
    ensures |o.denied| == |o.allowed| ==> Deref(LateDenied(s.denied, o).value.value) == o.denied
  {
    var r := LateDenied(s.denied, o);
    if |o.denied| < |o.allowed| {
      assert r.value.value[|o.denied|] == None;
    }
  }

  // ---- the code ----

  /** The loop that copies rules by index; a nil entry is dereferenced. */
  method FillRules(rs: seq<Option<Rule>>) returns (r: Outcome<seq<Rule>>)
    ensures r.Returns? <==> NoNil(rs)
    ensures r.Returns? ==> r.value == Deref(rs)
  {
    var out := seq(|rs|, _ => Rule("", []));
    for i := 0 to |rs|
      invariant |out| == |rs|
      invariant forall k | 0 <= k < i :: rs[k].Some? && out[k] == rs[k].value
    {
      if rs[i].None? {
        return Panics;
      }
      out := out[i := Rule(rs[i].value.protocol, rs[i].value.ports)];
    }
    return Returns(out);
  }

  method GenerateFirewall(name: string, s: FirewallSpec, firewall: Pointer<Firewall>) returns (panicked: bool)
    modifies firewall
    ensures panicked <==> !Readable(s)
    ensures !panicked ==> firewall.it == Overlay(name, s, old(firewall.it))
  {
    var f := firewall.it.(name := name, description := StringValue(s.description),
                          network := StringValue(s.network), priority := Int64Value(s.priority));
    f := f.(lists := s.lists, direction := StringValue(s.direction), disabled := BoolValue(s.disabled));
    firewall.it := f;
    if s.allowed.Some? {
      var rules := FillRules(s.allowed.value);
      if rules.Panics? {
        return true;
      }
      firewall.it := firewall.it.(allowed := rules.value);
    }
    if s.denied.Some? {
      var rules := FillRules(s.denied.value);
      if rules.Panics? {
        return true;
      }
      firewall.it := firewall.it.(denied := rules.value);
    }
    if s.logConfig.Some? {
      firewall.it := firewall.it.(logConfig := Some(LogConfig(s.logConfig.value, "")));
    }
    return false;
  }

  method IsUpToDate(name: string, s: FirewallSpec, observed: Firewall) returns (r: Outcome<bool>)
    ensures r.Panics? <==> !Readable(s)
    ensures r.Returns? ==> (r.value <==> SameFirewall(Overlay(name, s, observed), observed))
    ensures r.Returns? ==> (r.value <==> Described(name, s, observed))
  {
    var desired := new Pointer(observed);
    var panicked := GenerateFirewall(name, s, desired);
    if panicked {
      return Panics;
    }
    UpToDateIffDescribed(name, s, observed);
    return Returns(SameFirewall(desired.it, observed));
  }
}
