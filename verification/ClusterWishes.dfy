/** The wishes of a cluster spec that IsUpToDate cannot see, and what becomes of them
    over whole runs of the reconcile loop (pkg/clients/cluster/cluster.go:648-954 and
    1265-1356). */
module ClusterWishes {
  import opened Gcp
  import opened ClusterTypes
  import opened ClusterSettings
  import opened ClusterDrift
  import opened ClusterReconcile
  import opened Runs

  // ---- the strict reading of a spec ----

  function CloudRunIn(p: Params): Option<CloudRunSpec> {
    OrZero(p.addons, NO_ADDONS_SPEC).cloudRun
  }

  function CloudRunOf(c: Cluster): Option<CloudRun> {
    OrZero(c.addons, NO_ADDONS).cloudRun
  }

  function TopicOf(c: Cluster): Option<PubSub> {
    OrZero(c.notification, Notification(None)).pubsub
  }

  function DiskTypeIn(p: Params): Option<string> {
    OrZero(OrZero(p.autoscaling, NO_AUTOSCALING_SPEC).defaults, NO_DEFAULTS_SPEC).diskType
  }

  function DiskTypeOf(c: Cluster): string {
    OrZero(OrZero(c.autoscaling, NO_AUTOSCALING).defaults, NO_DEFAULTS).diskType
  }

  function NetworkIn(p: Params): NetworkConfigSpec {
    OrZero(p.networkConfig, NO_NETWORK_CONFIG_SPEC)
  }

  function NetworkOf(c: Cluster): NetworkConfig {
    OrZero(c.networkConfig, NO_NETWORK_CONFIG)
  }

  predicate RunsAs(s: Option<CloudRunSpec>, o: Option<CloudRun>) {
    s.Some? ==> o.Some? && o.value.disabled == s.value.disabled
                && Says(s.value.loadBalancerType, o.value.loadBalancerType)
  }

  /** The wishes that IsUpToDate cannot see: what Cloud Run and the notification topic
      should be, the disk type of node pool defaults, the SNAT and IPv6 choices, and the
      master credentials. */
  datatype Wish = CloudRunWish | TopicWish | DiskTypeWish | NetworkWish | CredentialsWish

  /** What the user said is what is observed. As in the comparison, a missing network
      config counts as an empty one. */
  predicate Granted(w: Wish, p: Params, c: Cluster) {
    match w
    case CloudRunWish => RunsAs(CloudRunIn(p), CloudRunOf(c))
    case TopicWish => Kept(p.notification, TopicOf(c))
    case DiskTypeWish => Says(DiskTypeIn(p), DiskTypeOf(c))
    case NetworkWish =>
      && Kept(NetworkIn(p).defaultSnatDisabled, NetworkOf(c).defaultSnatDisabled)
      && Says(NetworkIn(p).privateIpv6, NetworkOf(c).privateIpv6)
    case CredentialsWish => HonoursMasterAuth(p.masterAuth, c.masterAuth)
  }

  /** Every value the user set in a modelled setting is the observed one. */
  ghost predicate Honours(p: Params, c: Cluster) {
    && (forall f: Field :: Heeds(SettingOf(f, p, c)))
    && (forall w: Wish :: Granted(w, p, c))
  }

  // ---- when a wish comes true ----

  /** At the start of a run: Cloud Run and a topic can be had as wished while there is
      none; everything else is only there if it already is. */
  predicate Attainable(w: Wish, s: State) {
    || Granted(w, s.spec, s.cluster)
    || (w.CloudRunWish? && CloudRunOf(s.cluster).None?)
    || (w.TopicWish? && TopicOf(s.cluster).None?)
  }

  /** An update is due that makes the service fill in, by itself, what the user wished
      for: the request does not carry it. */
  predicate LeftToService(w: Wish, s: State) {
    || (w.DiskTypeWish? && DiskTypeIn(s.spec).Some? && Drifting(AutoscalingField, s))
    || (w.NetworkWish? && NetworkDue(s)
        && (NetworkIn(s.spec).defaultSnatDisabled.Some? || NetworkIn(s.spec).privateIpv6.Some?))
  }

  /** There is no network config yet, and one is due. */
  predicate NetworkDue(s: State) {
    s.cluster.networkConfig.None? && (Drifting(IntraNodeField, s) || Drifting(DatapathField, s))
  }

  // ---- one round ----

  lemma CloudRunStep(s: State, u: Update, t: State)
    requires Step(s, u, t)
    ensures CloudRunOf(s.cluster).Some? ==> CloudRunOf(t.cluster) == CloudRunOf(s.cluster)
    ensures CloudRunOf(s.cluster).None? ==> CloudRunIn(t.spec) == CloudRunIn(s.spec)
    ensures CloudRunOf(s.cluster).None? ==>
              CloudRunOf(t.cluster).None? || RunsAs(CloudRunIn(s.spec), CloudRunOf(t.cluster))
  {
    if u != SetField(AddonsField) {
      UntouchedStep(s, u, t, AddonsField);
    }
  }

  lemma TopicStep(s: State, u: Update, t: State)
    requires Step(s, u, t)
    ensures TopicOf(s.cluster).Some? ==> TopicOf(t.cluster) == TopicOf(s.cluster)
    ensures TopicOf(s.cluster).None? ==> t.spec.notification == s.spec.notification
    ensures TopicOf(s.cluster).None? ==>
              TopicOf(t.cluster).None? || Kept(s.spec.notification, TopicOf(t.cluster))
  {
    if u != SetField(NotificationField) {
      UntouchedStep(s, u, t, NotificationField);
    }
  }

  lemma UntouchedStep(s: State, u: Update, t: State, g: Field)
    requires Step(s, u, t) && u != SetField(g)
    requires g in {AddonsField, NotificationField, AutoscalingField}
    ensures SettingOf(g, t.spec, t.cluster) == SettingOf(g, t.spec, s.cluster)
  {
  }

  lemma NetworkStep(s: State, u: Update, t: State)
    requires Step(s, u, t)
    ensures s.cluster.networkConfig.Some? ==>
              && t.cluster.networkConfig.Some?
              && NetworkOf(t.cluster).defaultSnatDisabled == NetworkOf(s.cluster).defaultSnatDisabled
              && NetworkOf(t.cluster).privateIpv6 == NetworkOf(s.cluster).privateIpv6
    ensures u != SetField(IntraNodeField) && u != SetField(DatapathField) ==>
              t.cluster.networkConfig == s.cluster.networkConfig
  {
    if u.SetField? && u.field != IntraNodeField && u.field != DatapathField {
      assert SettingOf(IntraNodeField, t.spec, t.cluster) == SettingOf(IntraNodeField, t.spec, s.cluster);
    }
  }

  // ---- whole runs ----

  lemma {:induction false} CloudRunAlong(states: seq<State>, updates: seq<Update>, n: nat)
    requires IsRun(Step, states, updates) && n <= |updates|
    ensures var first, now := states[0], states[n];
            && (CloudRunOf(first.cluster).Some? ==> CloudRunOf(now.cluster) == CloudRunOf(first.cluster))
            && (CloudRunOf(first.cluster).None? ==>
                  || (CloudRunOf(now.cluster).None? && CloudRunIn(now.spec) == CloudRunIn(first.spec))
                  || RunsAs(CloudRunIn(first.spec), CloudRunOf(now.cluster)))
  {
    if n > 0 {
      CloudRunAlong(states, updates, n - 1);
      CloudRunStep(states[n - 1], updates[n - 1], states[n]);
    }
  }

  lemma {:induction false} TopicAlong(states: seq<State>, updates: seq<Update>, n: nat)
    requires IsRun(Step, states, updates) && n <= |updates|
    ensures var first, now := states[0], states[n];
            && (TopicOf(first.cluster).Some? ==> TopicOf(now.cluster) == TopicOf(first.cluster))
            && (TopicOf(first.cluster).None? ==>
                  || (TopicOf(now.cluster).None? && now.spec.notification == first.spec.notification)
                  || Kept(first.spec.notification, TopicOf(now.cluster)))
  {
    if n > 0 {
      TopicAlong(states, updates, n - 1);
      TopicStep(states[n - 1], updates[n - 1], states[n]);
    }
  }

  lemma {:induction false} AutoscalingAlong(states: seq<State>, updates: seq<Update>, n: nat)
    requires IsRun(Step, states, updates) && n <= |updates| && SetField(AutoscalingField) !in updates
    ensures states[n].cluster.autoscaling == states[0].cluster.autoscaling
  {
    if n > 0 {
      AutoscalingAlong(states, updates, n - 1);
      UntouchedStep(states[n - 1], updates[n - 1], states[n], AutoscalingField);
    }
  }

  lemma {:induction false} NetworkAlong(states: seq<State>, updates: seq<Update>, n: nat)
    requires IsRun(Step, states, updates) && n <= |updates|
    requires states[0].cluster.networkConfig.Some? ||
             (SetField(IntraNodeField) !in updates && SetField(DatapathField) !in updates)
    ensures states[0].cluster.networkConfig.Some? ==> states[n].cluster.networkConfig.Some?
    ensures NetworkOf(states[n].cluster).defaultSnatDisabled == NetworkOf(states[0].cluster).defaultSnatDisabled
    ensures NetworkOf(states[n].cluster).privateIpv6 == NetworkOf(states[0].cluster).privateIpv6
  {
    if n > 0 {
      NetworkAlong(states, updates, n - 1);
      NetworkStep(states[n - 1], updates[n - 1], states[n]);
    }
  }

  lemma CredentialsStep(s: State, u: Update, t: State)
    requires Step(s, u, t)
    ensures t.cluster.masterAuth == s.cluster.masterAuth
  {
  }

  /** No update ever touches the master credentials. */
  lemma {:induction false} CredentialsNeverChange(states: seq<State>, updates: seq<Update>, n: nat)
    requires IsRun(Step, states, updates) && n <= |updates|
    ensures states[n].cluster.masterAuth == states[0].cluster.masterAuth
  {
    if n > 0 {
      CredentialsNeverChange(states, updates, n - 1);
      CredentialsStep(states[n - 1], updates[n - 1], states[n]);
    }
  }

  /** A settled run seen from one setting. */
  lemma SettledField(f: Field, states: seq<State>, updates: seq<Update>)
    requires IsRun(Step, states, updates) && Settled(states[|updates|])
    ensures SetField(f) in updates <==> Drifting(f, states[0])
    ensures Heeds(SettingOf(f, states[0].spec, states[|updates|].cluster))
  {
    SettledRun(states, updates);
    assert SetField(f) in Pending(states[0]) <==> SetField(f) in set u | u in updates;
  }

  lemma CloudRunFate(states: seq<State>, updates: seq<Update>)
    requires IsRun(Step, states, updates) && Settled(states[|updates|])
    ensures Granted(CloudRunWish, states[0].spec, states[|updates|].cluster) <==>
            Attainable(CloudRunWish, states[0])
  {
    CloudRunAlong(states, updates, |updates|);
    SettledField(AddonsField, states, updates);
  }

  lemma TopicFate(states: seq<State>, updates: seq<Update>)
    requires IsRun(Step, states, updates) && Settled(states[|updates|])
    ensures Granted(TopicWish, states[0].spec, states[|updates|].cluster) <==>
            Attainable(TopicWish, states[0])
  {
    TopicAlong(states, updates, |updates|);
    SettledField(NotificationField, states, updates);
  }

  lemma DiskTypeFate(states: seq<State>, updates: seq<Update>)
    requires IsRun(Step, states, updates) && Settled(states[|updates|])
    requires !LeftToService(DiskTypeWish, states[0])
    ensures Granted(DiskTypeWish, states[0].spec, states[|updates|].cluster) <==>
            Attainable(DiskTypeWish, states[0])
  {
    SettledField(AutoscalingField, states, updates);
    if SetField(AutoscalingField) !in updates {
      AutoscalingAlong(states, updates, |updates|);
    }
  }

  lemma NetworkFate(states: seq<State>, updates: seq<Update>)
    requires IsRun(Step, states, updates) && Settled(states[|updates|])
    requires !LeftToService(NetworkWish, states[0])
    ensures Granted(NetworkWish, states[0].spec, states[|updates|].cluster) <==>
            Attainable(NetworkWish, states[0])
  {
    SettledField(IntraNodeField, states, updates);
    SettledField(DatapathField, states, updates);
    if NetworkIn(states[0].spec).defaultSnatDisabled.Some? || NetworkIn(states[0].spec).privateIpv6.Some? {
      NetworkAlong(states, updates, |updates|);
    }
  }

  /** The fate of a wish that the comparison cannot see. At the settled end of every run
      it is granted exactly when it was attainable at the start, unless the service was
      left to fill it in. */
  lemma GrantedIffAttainable(w: Wish, states: seq<State>, updates: seq<Update>)
    requires IsRun(Step, states, updates) && Settled(states[|updates|])
    requires !LeftToService(w, states[0])
    ensures Granted(w, states[0].spec, states[|updates|].cluster) <==> Attainable(w, states[0])
  {
    match w
    case CloudRunWish => CloudRunFate(states, updates);
    case TopicWish => TopicFate(states, updates);
    case DiskTypeWish => DiskTypeFate(states, updates);
    case NetworkWish => NetworkFate(states, updates);
    case CredentialsWish => CredentialsNeverChange(states, updates, |updates|);
  }

  /** The cluster ends up with every value the user had set exactly when every wish that
      the comparison cannot see was attainable at the start. */
  lemma HonouredIffAttainable(states: seq<State>, updates: seq<Update>)
    requires IsRun(Step, states, updates) && Settled(states[|updates|])
    requires forall w: Wish :: !LeftToService(w, states[0])
    ensures Honours(states[0].spec, states[|updates|].cluster) <==>
            forall w: Wish :: Attainable(w, states[0])
  {
    SettledRun(states, updates);
    forall w: Wish
      ensures Granted(w, states[0].spec, states[|updates|].cluster) <==> Attainable(w, states[0])
    {
      GrantedIffAttainable(w, states, updates);
    }
  }

  // ---- what is left to the service is open ----

  /** Whatever disk type the service fills in, the update was carried out. */
  lemma DiskTypeIsOpen(p: Params, c: Cluster, d: Cluster, diskType: string)
    requires Applied(AutoscalingField, p, c, d)
    requires d.autoscaling.Some? && d.autoscaling.value.defaults.Some?
    ensures var a := d.autoscaling.value;
            Applied(AutoscalingField, p, c,
                    d.(autoscaling := Some(a.(defaults := Some(a.defaults.value.(diskType := diskType))))))
  {
  }

  /** The same for the rest of a network config that did not exist. */
  lemma NetworkIsOpen(f: Field, p: Params, c: Cluster, d: Cluster, snat: Option<bool>, ipv6: string)
    requires (f == IntraNodeField || f == DatapathField) && Applied(f, p, c, d) && c.networkConfig.None?
    ensures d.networkConfig.Some?
    ensures Applied(f, p, c, d.(networkConfig := Some(d.networkConfig.value.(
                                  defaultSnatDisabled := snat, privateIpv6 := ipv6))))
  {
  }

  /** A run from `s` that ends up to date. */
  ghost predicate SettlesFrom(s: State, states: seq<State>, updates: seq<Update>) {
    IsRun(Step, states, updates) && states[0] == s && Settled(states[|updates|])
  }

  lemma SettlesOnward(s: State, u: Update, t: State, states: seq<State>, updates: seq<Update>)
    requires Step(s, u, t) && SettlesFrom(t, states, updates)
    ensures SettlesFrom(s, [s] + states, [u] + updates)
    ensures ([s] + states)[|[u] + updates|] == states[|updates|]
  {
    RunCons(Step, s, u, states, updates);
  }

  /** So the disk type at the end is open: for every value there is a run that ends
      settled with it. */
  lemma {:induction false} DiskTypeIsServiceChoice(s: State, diskType: string)
    returns (states: seq<State>, updates: seq<Update>)
    requires !LateInitializePanics(s.spec, s.cluster) && LeftToService(DiskTypeWish, s)
    ensures SettlesFrom(s, states, updates) && DiskTypeOf(states[|updates|].cluster) == diskType
    decreases |Pending(s)|
  {
    var u, t := DiskTypeProgress(s, diskType);
    if u == SetField(AutoscalingField) {
      states, updates := SettlesKeepingDiskType(t);
    } else {
      states, updates := DiskTypeIsServiceChoice(t, diskType);
    }
    SettlesOnward(s, u, t, states, updates);
    states, updates := [s] + states, [u] + updates;
  }

  lemma DiskTypeProgress(s: State, diskType: string) returns (u: Update, t: State)
    requires !LateInitializePanics(s.spec, s.cluster) && LeftToService(DiskTypeWish, s)
    ensures Step(s, u, t) && !LateInitializePanics(t.spec, t.cluster)
    ensures |Pending(t)| < |Pending(s)|
    ensures u == SetField(AutoscalingField) ==>
              DiskTypeOf(t.cluster) == diskType && !Drifting(AutoscalingField, t)
    ensures u != SetField(AutoscalingField) ==> LeftToService(DiskTypeWish, t)
  {
    u, t := Progress(s);
    if u == SetField(AutoscalingField) {
      t := WithDiskType(s, t, diskType);
      StepAtFields(s, u, t);
    } else {
      StaysLeftToService(s, u, t);
    }
    StepShrinks(s, u, t);
  }

  lemma SettlesKeepingDiskType(s: State) returns (states: seq<State>, updates: seq<Update>)
    requires !LateInitializePanics(s.spec, s.cluster) && !Drifting(AutoscalingField, s)
    ensures SettlesFrom(s, states, updates)
    ensures DiskTypeOf(states[|updates|].cluster) == DiskTypeOf(s.cluster)
  {
    states, updates := ReachesSettled(s);
    SettledField(AutoscalingField, states, updates);
    AutoscalingAlong(states, updates, |updates|);
  }

  lemma WithDiskType(s: State, t: State, diskType: string) returns (r: State)
    requires Step(s, SetField(AutoscalingField), t) && DiskTypeIn(s.spec).Some?
    ensures Step(s, SetField(AutoscalingField), r) && DiskTypeOf(r.cluster) == diskType
  {
    var a := t.cluster.autoscaling.value;
    DiskTypeIsOpen(t.spec, s.cluster, t.cluster, diskType);
    r := State(t.spec, t.cluster.(autoscaling := Some(a.(defaults := Some(a.defaults.value.(diskType := diskType))))));
  }

  lemma StaysLeftToService(s: State, u: Update, t: State)
    requires Step(s, u, t) && LeftToService(DiskTypeWish, s) && u != SetField(AutoscalingField)
    ensures LeftToService(DiskTypeWish, t)
  {
    StepAtFields(s, u, t);
    LateKeeps(AutoscalingField, s.spec, s.cluster);
  }

  predicate NetworkIs(c: Cluster, snat: Option<bool>, ipv6: string) {
    NetworkOf(c).defaultSnatDisabled == snat && NetworkOf(c).privateIpv6 == ipv6
  }

  /** And so are the SNAT and IPv6 choices in a network config that is yet to come. */
  lemma {:induction false} NetworkIsServiceChoice(s: State, snat: Option<bool>, ipv6: string)
    returns (states: seq<State>, updates: seq<Update>)
    requires !LateInitializePanics(s.spec, s.cluster) && NetworkDue(s)
    ensures SettlesFrom(s, states, updates) && NetworkIs(states[|updates|].cluster, snat, ipv6)
    decreases |Pending(s)|
  {
    var u, t := NetworkProgress(s, snat, ipv6);
    if t.cluster.networkConfig.Some? {
      states, updates := SettlesKeepingNetwork(t, snat, ipv6);
    } else {
      states, updates := NetworkIsServiceChoice(t, snat, ipv6);
    }
    SettlesOnward(s, u, t, states, updates);
    states, updates := [s] + states, [u] + updates;
  }

  /** A next round that either leaves a network update due or ends with the choice. */
  lemma NetworkProgress(s: State, snat: Option<bool>, ipv6: string) returns (u: Update, t: State)
    requires !LateInitializePanics(s.spec, s.cluster) && NetworkDue(s)
    ensures Step(s, u, t) && !LateInitializePanics(t.spec, t.cluster)
    ensures |Pending(t)| < |Pending(s)|
    ensures t.cluster.networkConfig.Some? ==> NetworkIs(t.cluster, snat, ipv6)
    ensures t.cluster.networkConfig.None? ==> NetworkDue(t)
  {
    u, t := Progress(s);
    if u == SetField(IntraNodeField) || u == SetField(DatapathField) {
      t := WithNetwork(s, u, t, snat, ipv6);
    } else {
      NetworkStep(s, u, t);
    }
    StepShrinks(s, u, t);
    StepAtFields(s, u, t);
  }

  lemma SettlesKeepingNetwork(s: State, snat: Option<bool>, ipv6: string)
    returns (states: seq<State>, updates: seq<Update>)
    requires !LateInitializePanics(s.spec, s.cluster)
    requires s.cluster.networkConfig.Some? && NetworkIs(s.cluster, snat, ipv6)
    ensures SettlesFrom(s, states, updates) && NetworkIs(states[|updates|].cluster, snat, ipv6)
  {
    states, updates := ReachesSettled(s);
    NetworkAlong(states, updates, |updates|);
  }

  lemma WithNetwork(s: State, u: Update, t: State, snat: Option<bool>, ipv6: string) returns (r: State)
    requires u == SetField(IntraNodeField) || u == SetField(DatapathField)
    requires Step(s, u, t) && s.cluster.networkConfig.None?
    ensures Step(s, u, r) && r.cluster.networkConfig.Some? && NetworkIs(r.cluster, snat, ipv6)
  {
    NetworkIsOpen(u.field, t.spec, s.cluster, t.cluster, snat, ipv6);
    var n := t.cluster.networkConfig.value.(defaultSnatDisabled := snat, privateIpv6 := ipv6);
    r := State(t.spec, t.cluster.(networkConfig := Some(n)));
  }

  /** An example of a lost wish: nothing is due, and the topic is not the user's. */
  lemma TopicIsLost(c: Cluster, wished: PubSub, seen: PubSub)
    requires wished != seen && c.notification == Some(Notification(Some(seen))) && !HasBootstrapPool(c)
    requires !LateInitializePanics(EMPTY_PARAMS, c)
    ensures var s := State(EMPTY_PARAMS.(notification := Some(wished)), c);
            Settled(s) && !Honours(s.spec, c)
  {
    var s := State(EMPTY_PARAMS.(notification := Some(wished)), c);
    forall f: Field
      ensures Heeds(SettingOf(f, s.spec, c))
    {
      NothingSetIsHeeded(f, c);
    }
    SettledIffHeeded(s);
    assert !Granted(TopicWish, s.spec, c);
  }
}
