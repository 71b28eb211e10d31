/** The reconcile loop of the GKE cluster: late-initialise the spec from the
    observation, find the first setting that differs, issue the one update for it,
    observe again (pkg/controller/container/cluster.go:99-138 and 173-203). */
module ClusterReconcile {
  import opened Gcp
  import opened ClusterTypes
  import opened ClusterSettings
  import opened ClusterDrift
  import opened Runs

  const BOOTSTRAP_NODE_POOL_NAME := "crossplane-bootstrap"

  predicate HasBootstrapPool(c: Cluster) {
    Some(BOOTSTRAP_NODE_POOL_NAME) in c.nodePools
  }

  /** The spec after LateInitializeSpec. */
  function LateParams(p: Params, c: Cluster): Params {
    Params(
      LateAddons(p.addons, c.addons), p.autopilot, LateAutoscaling(p.autoscaling, c.autoscaling),
      Prefer(p.binaryAuthorization, c.binaryAuthorization),
      LateEncryption(p.databaseEncryption, c.databaseEncryption),
      Prefer(p.legacyAbac, c.legacyAbac),
      LateInitializeStringSlice(p.locations, c.locations),
      LateInitializeString(p.loggingService, c.loggingService),
      LateMaintenance(p.maintenance, c.maintenance), LateMasterAuth(p.masterAuth, c.masterAuth),
      LateNetworks(p.authorizedNetworks, c.authorizedNetworks),
      LateInitializeString(p.monitoringService, c.monitoringService),
      LateNetworkConfig(p.networkConfig, c.networkConfig),
      LateNetworkPolicy(p.networkPolicy, c.networkPolicy),
      LateNotification(p.notification, c.notification),
      LatePrivateCluster(p.privateCluster, c.privateCluster),
      Prefer(p.releaseChannel, c.releaseChannel),
      LateInitializeStringMap(p.resourceLabels, c.resourceLabels),
      LateUsageExport(p.usageExport, c.usageExport),
      Prefer(p.verticalPodAutoscaling, c.verticalPodAutoscaling),
      Prefer(p.workloadPool, c.workloadPool))
  }

  /** The cluster that GenerateCluster leaves: every setting overlaid. */
  function OverlayCluster(p: Params, c: Cluster): Cluster {
    Cluster(
      OverlayAddons(p.addons, c.addons), Prefer(p.autopilot, c.autopilot),
      OverlayAutoscaling(p.autoscaling, c.autoscaling),
      Prefer(p.binaryAuthorization, c.binaryAuthorization),
      OverlayEncryption(p.databaseEncryption, c.databaseEncryption),
      Prefer(p.legacyAbac, c.legacyAbac), p.locations, StringValue(p.loggingService),
      OverlayMaintenance(p.maintenance, c.maintenance), OverlayMasterAuth(p.masterAuth, c.masterAuth),
      OverlayNetworks(p.authorizedNetworks, c.authorizedNetworks), StringValue(p.monitoringService),
      OverlayNetworkConfig(p.networkConfig, c.networkConfig),
      OverlayNetworkPolicy(p.networkPolicy, c.networkPolicy),
      OverlayNotification(p.notification, c.notification),
      OverlayPrivateCluster(p.privateCluster, c.privateCluster),
      Prefer(p.releaseChannel, c.releaseChannel), p.resourceLabels,
      OverlayUsageExport(p.usageExport, c.usageExport),
      Prefer(p.verticalPodAutoscaling, c.verticalPodAutoscaling),
      Prefer(p.workloadPool, c.workloadPool), c.nodePools)
  }

  /** LateInitializeSpec dereferences nil: it adopts a list with a nil entry, or the
      spec has no maintenance policy while a recurring window is observed. */
  predicate LateInitializePanics(p: Params, c: Cluster) {
    || AutoscalingPanics(p.autoscaling, c.autoscaling)
    || MaintenancePanics(p.maintenance, c.maintenance)
    || NetworksPanic(p.authorizedNetworks, c.authorizedNetworks)
  }

  lemma LateByField(f: Field, p: Params, c: Cluster)
    ensures SettingOf(f, LateParams(p, c), c) == Late(SettingOf(f, p, c))
  {
    if Rank(f) < 10 {
      LateByEarlyField(f, p, c);
    } else {
      LateByLaterField(f, p, c);
    }
  }

  lemma LateByEarlyField(f: Field, p: Params, c: Cluster)
    requires Rank(f) < 10
    ensures SettingOf(f, LateParams(p, c), c) == Late(SettingOf(f, p, c))
  {
  }

  lemma LateByLaterField(f: Field, p: Params, c: Cluster)
    requires Rank(f) >= 10
    ensures SettingOf(f, LateParams(p, c), c) == Late(SettingOf(f, p, c))
  {
  }

  /** A late-initialised cluster spec differs from the observation in exactly the
      settings where the observation does not heed the user. */
  lemma DiffersIffUnheeded(f: Field, p: Params, c: Cluster)
    requires !LatePanics(SettingOf(f, p, c))
    ensures Differs(f, LateParams(p, c), c) <==> !Heeds(SettingOf(f, p, c))
  {
    LateByField(f, p, c);
    DriftIsUnheeded(SettingOf(f, p, c));
  }

  /** Late initialisation never creates drift: what differs afterwards differed before. */
  lemma LateAddsNoDrift(f: Field, p: Params, c: Cluster)
    requires !LatePanics(SettingOf(f, p, c)) && Differs(f, LateParams(p, c), c)
    ensures Differs(f, p, c)
  {
    DiffersIffUnheeded(f, p, c);
    if !Drifts(SettingOf(f, p, c)) {
      NoDriftIsHeeded(SettingOf(f, p, c));
    }
  }

  /** A second late initialisation from the same observation changes no setting, and
      not the master credentials. */
  lemma LateTwice(f: Field, p: Params, c: Cluster)
    ensures SettingOf(f, LateParams(LateParams(p, c), c), c) == SettingOf(f, LateParams(p, c), c)
    ensures LateMasterAuth(LateMasterAuth(p.masterAuth, c.masterAuth), c.masterAuth) ==
            LateMasterAuth(p.masterAuth, c.masterAuth)
  {
    LateByField(f, p, c);
    LateByField(f, LateParams(p, c), c);
    LateIsIdempotent(SettingOf(f, p, c));
  }

  /** Two wishes are lost as soon as the setting is observed: whatever the user says
      about Cloud Run or the client certificate, the spec comes out the same. */
  lemma LostWishes(s: AddonsSpec, o: Addons, run: Option<CloudRunSpec>, m: MasterAuthSpec, n: MasterAuth,
                   certificate: Option<bool>)
    requires o.cloudRun.Some? && n.issueClientCertificate.Some?
    ensures LateAddons(Some(s.(cloudRun := run)), Some(o)) == LateAddons(Some(s), Some(o))
    ensures LateMasterAuth(Some(m.(issueClientCertificate := certificate)), Some(n)) ==
            LateMasterAuth(Some(m), Some(n))
  {
  }

  lemma LateKeeps(f: Field, p: Params, c: Cluster)
    ensures Keeps(f, p, LateParams(p, c))
  {
    match SettingOf(f, p, c)
    case AddonsSetting(s, o) => AddonsLaws(s, o);
    case AutoscalingSetting(s, o) => AutoscalingLaws(s, o);
    case EncryptionSetting(s, o) => EncryptionLaws(s, o);
    case NetworksSetting(s, o) => NetworksLaws(s, o);
    case IntraNodeSetting(s, o) => NetworkConfigLaws(s, o);
    case DatapathSetting(s, o) => NetworkConfigLaws(s, o);
    case NetworkPolicySetting(s, o) => NetworkPolicyLaws(s, o);
    case PrivateClusterSetting(s, o) => PrivateClusterLaws(s, o);
    case UsageExportSetting(s, o) => UsageExportLaws(s, o);
    case _ =>
  }

  lemma PanicsByField(p: Params, c: Cluster)
    ensures LateInitializePanics(p, c) <==> exists f: Field :: LatePanics(SettingOf(f, p, c))
  {
    if LateInitializePanics(p, c) {
      var f := if AutoscalingPanics(p.autoscaling, c.autoscaling) then AutoscalingField
               else if MaintenancePanics(p.maintenance, c.maintenance) then MaintenanceField
               else AuthorizedNetworksField;
      assert LatePanics(SettingOf(f, p, c));
    }
  }

  // ---- one round ----

  datatype State = State(spec: Params, cluster: Cluster)

  datatype Update = DeleteBootstrapPool | SetField(field: Field)

  /** `f` is the setting that IsUpToDate reports: no earlier comparison fails. */
  predicate FirstDifference(f: Field, p: Params, c: Cluster) {
    Differs(f, p, c) && forall g: Field | Rank(g) < Rank(f) :: !Differs(g, p, c)
  }

  /** So an update is for the comparison of some number, and those of all lower numbers
      hold. */
  lemma FirstDifferenceInOrder(f: Field, p: Params, c: Cluster) returns (i: nat)
    requires FirstDifference(f, p, c)
    ensures i < FIELDS && f == FieldAt(i) && forall j: nat | j < i :: !Differs(FieldAt(j), p, c)
  {
    i := Rank(f);
    RankIsPosition(f, i);
    forall j: nat | j < i
      ensures !Differs(FieldAt(j), p, c)
    {
      RankIsPosition(f, j);
    }
  }

  /** The two comparisons that read the same network config. */
  predicate Siblings(f: Field, g: Field) {
    (f == IntraNodeField && g == DatapathField) || (f == DatapathField && g == IntraNodeField)
  }

  predicate OthersUntouched(f: Field, p: Params, c: Cluster, d: Cluster) {
    && d.nodePools == c.nodePools && d.masterAuth == c.masterAuth
    && forall g: Field | g != f && !Siblings(f, g) :: SettingOf(g, p, d) == SettingOf(g, p, c)
  }

  /** The API carried out the update for `f`. */
  predicate Applied(f: Field, p: Params, c: Cluster, d: Cluster) {
    && RequestFor(f, SettingOf(f, p, c)).Returns?
    && Written(RequestFor(f, SettingOf(f, p, c)).value, SettingOf(f, p, c), SettingOf(f, p, d))
    && OthersUntouched(f, p, c, d)
  }

  predicate Step(s: State, u: Update, t: State) {
    && !LateInitializePanics(s.spec, s.cluster)
    && t.spec == LateParams(s.spec, s.cluster)
    && match u
       case DeleteBootstrapPool =>
         && HasBootstrapPool(s.cluster) && !HasBootstrapPool(t.cluster)
         && t.cluster == s.cluster.(nodePools := t.cluster.nodePools)
       case SetField(f) =>
         && !HasBootstrapPool(s.cluster)
         && FirstDifference(f, t.spec, s.cluster)
         && Applied(f, t.spec, s.cluster, t.cluster)
  }

  /** `f` differs once the spec has been late-initialised. */
  predicate Drifting(f: Field, s: State) {
    Differs(f, LateParams(s.spec, s.cluster), s.cluster)
  }

  /** The next observation late-initialises without panic and reports "up to date". */
  predicate Settled(s: State) {
    && !LateInitializePanics(s.spec, s.cluster)
    && !HasBootstrapPool(s.cluster)
    && forall f: Field :: !Drifting(f, s)
  }

  /** The setting that was updated stays settled through the next late initialisation. */
  lemma OwnFieldSettles(f: Field, p: Params, c: Cluster, d: Cluster)
    requires Differs(f, p, c) && Applied(f, p, c, d)
    ensures !Differs(f, LateParams(p, d), d)
    ensures !LatePanics(SettingOf(f, p, d))
  {
    WriteSettles(f, p, c, d);
    NoDriftIsHeeded(SettingOf(f, p, d));
    DiffersIffUnheeded(f, p, d);
  }

  /** A setting that was not touched is as it was after the last late initialisation. */
  lemma UntouchedFieldStays(g: Field, p: Params, c: Cluster, d: Cluster)
    requires !LatePanics(SettingOf(g, p, c))
    requires SettingOf(g, LateParams(p, c), d) == SettingOf(g, LateParams(p, c), c)
    ensures Differs(g, LateParams(LateParams(p, c), d), d) <==> Differs(g, LateParams(p, c), c)
    ensures !LatePanics(SettingOf(g, LateParams(p, c), d))
  {
    var q := LateParams(p, c);
    LateByField(g, p, c);
    LateByField(g, q, d);
    LateIsIdempotent(SettingOf(g, p, c));
    LateStaysSafe(SettingOf(g, p, c));
  }

  /** Writing one half of the network config does not disturb the other. */
  lemma SiblingStays(f: Field, g: Field, q: Params, c: Cluster, d: Cluster)
    requires Siblings(f, g) && Applied(f, q, c, d)
    ensures Differs(g, LateParams(q, d), d) <==> Differs(g, LateParams(q, c), c)
  {
    assert !LatePanics(SettingOf(g, q, c)) && !LatePanics(SettingOf(g, q, d));
    assert Heeds(SettingOf(g, q, c)) <==> Heeds(SettingOf(g, q, d));
    DiffersIffUnheeded(g, q, c);
    DiffersIffUnheeded(g, q, d);
  }

  /** An update seen from one setting: its own update settles it, and no update
      settles or unsettles any other. */
  lemma UpdateAtField(f: Field, p: Params, c: Cluster, d: Cluster, g: Field)
    requires !LatePanics(SettingOf(g, p, c))
    requires Differs(f, LateParams(p, c), c) && Applied(f, LateParams(p, c), c, d)
    ensures Differs(g, LateParams(LateParams(p, c), d), d) <==> Differs(g, LateParams(p, c), c) && g != f
    ensures !LatePanics(SettingOf(g, LateParams(p, c), d))
  {
    if g == f {
      OwnFieldSettles(g, LateParams(p, c), c, d);
    } else if Siblings(f, g) {
      SiblingFieldStays(f, p, c, d, g);
    } else {
      UntouchedFieldStays(g, p, c, d);
    }
  }

  lemma SiblingFieldStays(f: Field, p: Params, c: Cluster, d: Cluster, g: Field)
    requires Siblings(f, g) && Applied(f, LateParams(p, c), c, d)
    ensures Differs(g, LateParams(LateParams(p, c), d), d) <==> Differs(g, LateParams(p, c), c)
    ensures !LatePanics(SettingOf(g, LateParams(p, c), d))
  {
    SiblingStays(f, g, LateParams(p, c), c, d);
    UntouchedFieldStays(g, p, c, c);
  }

  lemma StepAtField(s: State, u: Update, t: State, g: Field)
    requires Step(s, u, t) && !LatePanics(SettingOf(g, s.spec, s.cluster))
    ensures Drifting(g, t) <==> Drifting(g, s) && u != SetField(g)
    ensures !LatePanics(SettingOf(g, t.spec, t.cluster))
  {
    match u
    case SetField(f) => UpdateAtField(f, s.spec, s.cluster, t.cluster, g);
    case DeleteBootstrapPool => UntouchedFieldStays(g, s.spec, s.cluster, t.cluster);
  }

  // ---- whole runs ----

  /** Everything that still has to be done: the updates that are due. */
  ghost function Pending(s: State): set<Update> {
    (if HasBootstrapPool(s.cluster) then {DeleteBootstrapPool} else {})
    + (set f: Field | Drifting(f, s) :: SetField(f))
  }

  /** The order in which IsUpToDate looks: bootstrap pool first, then the fields. */
  function Order(u: Update): (r: nat)
    ensures r <= FIELDS
  {
    match u
    case DeleteBootstrapPool => 0
    case SetField(f) => 1 + Rank(f)
  }

  /** One round: its own update is settled, nothing else changes, and the next late
      initialisation does not panic. */
  lemma StepAtFields(s: State, u: Update, t: State)
    requires Step(s, u, t)
    ensures forall g: Field :: Drifting(g, t) <==> Drifting(g, s) && u != SetField(g)
    ensures !LateInitializePanics(t.spec, t.cluster)
  {
    PanicsByField(s.spec, s.cluster);
    forall g: Field
      ensures Drifting(g, t) <==> Drifting(g, s) && u != SetField(g)
      ensures !LatePanics(SettingOf(g, t.spec, t.cluster))
    {
      StepAtField(s, u, t, g);
    }
    PanicsByField(t.spec, t.cluster);
  }

  lemma StepIsFirst(s: State, u: Update, t: State)
    requires Step(s, u, t)
    ensures u in Pending(s) && forall v | v in Pending(s) :: Order(u) <= Order(v)
  {
  }

  /** One round takes exactly the first pending update off the list. */
  lemma StepShrinks(s: State, u: Update, t: State)
    requires Step(s, u, t)
    ensures u in Pending(s) && Pending(t) == Pending(s) - {u}
    ensures forall v | v in Pending(s) :: Order(u) <= Order(v)
    ensures !LateInitializePanics(t.spec, t.cluster)
  {
    StepAtFields(s, u, t);
    StepIsFirst(s, u, t);
    PoolGoesFirst(s, u, t);
    PendingWithout(s, u, t);
  }

  lemma PoolGoesFirst(s: State, u: Update, t: State)
    requires Step(s, u, t)
    ensures HasBootstrapPool(t.cluster) <==> HasBootstrapPool(s.cluster) && u != DeleteBootstrapPool
  {
  }

  lemma PendingWithout(s: State, u: Update, t: State)
    requires forall g: Field :: Drifting(g, t) <==> Drifting(g, s) && u != SetField(g)
    requires HasBootstrapPool(t.cluster) <==> HasBootstrapPool(s.cluster) && u != DeleteBootstrapPool
    ensures Pending(t) == Pending(s) - {u}
  {
  }

  /** A to-do list worked off first things first. */
  ghost predicate WorkedOff(due: seq<set<Update>>, updates: seq<Update>) {
    && |due| == |updates| + 1
    && forall i | 0 <= i < |updates| ::
      && updates[i] in due[i]
      && due[i + 1] == due[i] - {updates[i]}
      && forall v | v in due[i] :: Order(updates[i]) <= Order(v)
  }

  lemma {:induction false} WorkShrinks(due: seq<set<Update>>, updates: seq<Update>, i: nat, j: nat)
    requires WorkedOff(due, updates) && i <= j <= |updates|
    ensures forall k | i <= k < j :: updates[k] in due[i] && updates[k] !in due[j]
    ensures due[j] == due[i] - (set k | i <= k < j :: updates[k])
    decreases j - i
  {
    if i < j {
      WorkShrinks(due, updates, i, j - 1);
    }
  }

  lemma OrderIsInjective(u: Update, v: Update)
    requires Order(u) == Order(v)
    ensures u == v
  {
  }

  lemma WorkIsOrdered(due: seq<set<Update>>, updates: seq<Update>, i: nat, j: nat)
    requires WorkedOff(due, updates) && i < j < |updates|
    ensures Order(updates[i]) < Order(updates[j])
  {
    WorkShrinks(due, updates, i, j);
    assert updates[j] in due[j];
    if Order(updates[i]) == Order(updates[j]) {
      OrderIsInjective(updates[i], updates[j]);
    }
  }

  lemma {:induction false} OrderGrows(due: seq<set<Update>>, updates: seq<Update>, n: nat)
    requires WorkedOff(due, updates) && n < |updates|
    ensures n <= Order(updates[n])
  {
    if n > 0 {
      OrderGrows(due, updates, n - 1);
      WorkIsOrdered(due, updates, n - 1, n);
    }
  }

  ghost function Due(states: seq<State>): (due: seq<set<Update>>)
    ensures |due| == |states| && forall i | 0 <= i < |states| :: due[i] == Pending(states[i])
  {
    seq(|states|, i requires 0 <= i < |states| => Pending(states[i]))
  }

  lemma RunWorksOff(states: seq<State>, updates: seq<Update>)
    requires IsRun(Step, states, updates)
    ensures WorkedOff(Due(states), updates)
  {
    forall i | 0 <= i < |updates|
      ensures updates[i] in Due(states)[i] && Due(states)[i + 1] == Due(states)[i] - {updates[i]}
      ensures forall v | v in Due(states)[i] :: Order(updates[i]) <= Order(v)
    {
      StepShrinks(states[i], updates[i], states[i + 1]);
    }
  }

  /** Convergence. From any spec and any observed cluster, whatever the API fills in
      by itself: every update issued is one that was due at the start, no update is
      issued twice, they come in the fixed order of the comparisons, what remains due
      is exactly what has not been issued, and there are at most 22 of them. */
  lemma Converges(states: seq<State>, updates: seq<Update>)
    requires IsRun(Step, states, updates)
    ensures |updates| <= 22
    ensures forall i, j | 0 <= i < j < |updates| :: Order(updates[i]) < Order(updates[j])
    ensures (set u | u in updates) <= Pending(states[0])
    ensures Pending(states[|updates|]) == Pending(states[0]) - (set u | u in updates)
  {
    var due := Due(states);
    RunWorksOff(states, updates);
    forall i, j | 0 <= i < j < |updates|
      ensures Order(updates[i]) < Order(updates[j])
    {
      WorkIsOrdered(due, updates, i, j);
    }
    if updates != [] {
      OrderGrows(due, updates, |updates| - 1);
    }
    WorkShrinks(due, updates, 0, |updates|);
    assert (set k | 0 <= k < |updates| :: updates[k]) == set u | u in updates;
  }

  // ---- no round gets stuck ----

  /** What the API may leave behind: the setting with exactly the requested value. */
  function Apply(f: Field, p: Params, c: Cluster): Cluster {
    match f
    case AddonsField => c.(addons := OverlayAddons(p.addons, None))
    case AutopilotField => c.(autopilot := p.autopilot)
    case AutoscalingField => c.(autoscaling := OverlayAutoscaling(p.autoscaling, None))
    case BinaryAuthorizationField => c.(binaryAuthorization := p.binaryAuthorization)
    case DatabaseEncryptionField => c.(databaseEncryption := OverlayEncryption(p.databaseEncryption, None))
    case LegacyAbacField => c.(legacyAbac := p.legacyAbac)
    case LocationsField => c.(locations := p.locations)
    case LoggingField => c.(loggingService := StringValue(p.loggingService))
    case MaintenanceField => c.(maintenance := OverlayMaintenance(p.maintenance, None))
    case AuthorizedNetworksField => c.(authorizedNetworks := OverlayNetworks(p.authorizedNetworks, None))
    case MonitoringField => c.(monitoringService := StringValue(p.monitoringService))
    case IntraNodeField =>
      var n := OrZero(p.networkConfig, NO_NETWORK_CONFIG_SPEC);
      c.(networkConfig := Some(OrZero(c.networkConfig, NO_NETWORK_CONFIG).(
                                 intraNodeVisibility := BoolValue(n.intraNodeVisibility))))
    case DatapathField =>
      var n := OrZero(p.networkConfig, NO_NETWORK_CONFIG_SPEC);
      c.(networkConfig := Some(OrZero(c.networkConfig, NO_NETWORK_CONFIG).(
                                 datapathProvider := StringValue(n.datapathProvider))))
    case NetworkPolicyField => c.(networkPolicy := OverlayNetworkPolicy(p.networkPolicy, None))
    case NotificationField => c.(notification := OverlayNotification(p.notification, None))
    case PrivateClusterField => c.(privateCluster := OverlayPrivateCluster(p.privateCluster, None))
    case ReleaseChannelField => c.(releaseChannel := p.releaseChannel)
    case ResourceLabelsField => c.(resourceLabels := p.resourceLabels)
    case UsageExportField => c.(usageExport := OverlayUsageExport(p.usageExport, None))
    case VerticalPodAutoscalingField => c.(verticalPodAutoscaling := p.verticalPodAutoscaling)
    case WorkloadIdentityField => c.(workloadPool := p.workloadPool)
  }

  lemma ApplyLeavesOthers(f: Field, p: Params, c: Cluster, g: Field)
    requires g != f && !Siblings(f, g)
    ensures SettingOf(g, p, Apply(f, p, c)) == SettingOf(g, p, c)
  {
    if Rank(f) < 11 {
      EarlyApplyLeavesOthers(f, p, c, g);
    } else {
      LateApplyLeavesOthers(f, p, c, g);
    }
  }

  lemma EarlyApplyLeavesOthers(f: Field, p: Params, c: Cluster, g: Field)
    requires g != f && !Siblings(f, g) && Rank(f) < 11
    ensures SettingOf(g, p, Apply(f, p, c)) == SettingOf(g, p, c)
  {
  }

  lemma LateApplyLeavesOthers(f: Field, p: Params, c: Cluster, g: Field)
    requires g != f && !Siblings(f, g) && Rank(f) >= 11
    ensures SettingOf(g, p, Apply(f, p, c)) == SettingOf(g, p, c)
  {
  }

  lemma ApplyWrites(f: Field, p: Params, c: Cluster)
    requires Differs(f, p, c)
    ensures RequestFor(f, SettingOf(f, p, c)).Returns?
    ensures Written(RequestFor(f, SettingOf(f, p, c)).value, SettingOf(f, p, c), SettingOf(f, p, Apply(f, p, c)))
  {
    DriftIsRequestable(f, SettingOf(f, p, c));
  }

  lemma ApplyIsApplied(f: Field, p: Params, c: Cluster)
    requires Differs(f, p, c)
    ensures Applied(f, p, c, Apply(f, p, c))
  {
    ApplyWrites(f, p, c);
    forall g: Field | g != f && !Siblings(f, g)
      ensures SettingOf(g, p, Apply(f, p, c)) == SettingOf(g, p, c)
    {
      ApplyLeavesOthers(f, p, c, g);
    }
  }

  lemma {:induction false} FindFirstDifference(f: Field, p: Params, c: Cluster) returns (g: Field)
    requires Differs(f, p, c)
    ensures FirstDifference(g, p, c)
    decreases Rank(f)
  {
    if h: Field :| Rank(h) < Rank(f) && Differs(h, p, c) {
      g := FindFirstDifference(h, p, c);
    } else {
      g := f;
    }
  }

  /** A state that is not settled, and whose late initialisation does not panic, has
      a next round: the update closure does not dereference nil. */
  lemma Progress(s: State) returns (u: Update, t: State)
    requires !LateInitializePanics(s.spec, s.cluster) && !Settled(s)
    ensures Step(s, u, t)
  {
    var p := LateParams(s.spec, s.cluster);
    if HasBootstrapPool(s.cluster) {
      u, t := DeleteBootstrapPool, State(p, s.cluster.(nodePools := []));
    } else {
      var f: Field :| Drifting(f, s);
      var g := FindFirstDifference(f, p, s.cluster);
      ApplyIsApplied(g, p, s.cluster);
      u, t := SetField(g), State(p, Apply(g, p, s.cluster));
    }
  }

  /** Every state from which late initialisation does not panic reaches a settled one. */
  lemma {:induction false} ReachesSettled(s: State) returns (states: seq<State>, updates: seq<Update>)
    requires !LateInitializePanics(s.spec, s.cluster)
    ensures IsRun(Step, states, updates) && states[0] == s && Settled(states[|updates|])
    decreases |Pending(s)|
  {
    if Settled(s) {
      states, updates := [s], [];
    } else {
      var u, t := Progress(s);
      StepShrinks(s, u, t);
      var ss, us := ReachesSettled(t);
      RunCons(Step, s, u, ss, us);
      states, updates := [s] + ss, [u] + us;
    }
  }

  // ---- what a settled cluster looks like ----

  /** "Up to date" after late initialisation means: no bootstrap pool, and the
      cluster has every wish of the user that the comparison can see. */
  lemma SettledIffHeeded(s: State)
    requires !LateInitializePanics(s.spec, s.cluster)
    ensures Settled(s) <==>
            !HasBootstrapPool(s.cluster) && forall f: Field :: Heeds(SettingOf(f, s.spec, s.cluster))
  {
    PanicsByField(s.spec, s.cluster);
    forall f: Field
      ensures Drifting(f, s) <==> !Heeds(SettingOf(f, s.spec, s.cluster))
    {
      DiffersIffUnheeded(f, s.spec, s.cluster);
    }
  }

  /** Late initialisation over any sequence of observations. */
  function LateMany(p: Params, observed: seq<Cluster>): Params
    decreases |observed|
  {
    if observed == [] then p else LateMany(LateParams(p, observed[0]), observed[1..])
  }

  /** Whatever is observed and in whichever order, what the user set stays set to the
      same value. Cloud Run alone keeps only the fact that it is set. */
  lemma {:induction false} UserValuesSurvive(f: Field, p: Params, observed: seq<Cluster>)
    ensures Keeps(f, p, LateMany(p, observed))
    decreases |observed|
  {
    if observed == [] {
      KeepsIsReflexive(f, p);
    } else {
      var q := LateParams(p, observed[0]);
      LateKeeps(f, p, observed[0]);
      UserValuesSurvive(f, q, observed[1..]);
      KeepsIsTransitive(f, p, q, LateMany(q, observed[1..]));
    }
  }

  /** The same for the master credentials, of which the certificate choice is only kept
      as "set". */
  lemma {:induction false} CredentialsSurvive(p: Params, observed: seq<Cluster>)
    ensures KeepsMasterAuth(p.masterAuth, LateMany(p, observed).masterAuth)
    decreases |observed|
  {
    if observed != [] {
      CredentialsSurvive(LateParams(p, observed[0]), observed[1..]);
    }
  }

  lemma {:induction false} RunKeeps(f: Field, states: seq<State>, updates: seq<Update>, n: nat)
    requires IsRun(Step, states, updates) && n <= |updates|
    ensures Keeps(f, states[0].spec, states[n].spec)
  {
    if n == 0 {
      KeepsIsReflexive(f, states[0].spec);
    } else {
      RunKeeps(f, states, updates, n - 1);
      StepKeeps(f, states[n - 1], updates[n - 1], states[n]);
      KeepsIsTransitive(f, states[0].spec, states[n - 1].spec, states[n].spec);
    }
  }

  lemma StepKeeps(f: Field, s: State, u: Update, t: State)
    requires Step(s, u, t)
    ensures Keeps(f, s.spec, t.spec)
  {
    LateKeeps(f, s.spec, s.cluster);
  }

  /** When a run has settled, the updates issued were exactly the ones due at the
      start, and the cluster has every wish of the user at the start that the
      comparison can see. ClusterWishes says what becomes of the others. */
  lemma SettledRun(states: seq<State>, updates: seq<Update>)
    requires IsRun(Step, states, updates) && Settled(states[|updates|])
    ensures (set u | u in updates) == Pending(states[0])
    ensures forall f: Field :: Heeds(SettingOf(f, states[0].spec, states[|updates|].cluster))
  {
    var last := states[|updates|];
    Converges(states, updates);
    SettledIffHeeded(last);
    forall f: Field
      ensures Heeds(SettingOf(f, states[0].spec, last.cluster))
    {
      RunKeeps(f, states, updates, |updates|);
      KeepsWeakens(f, states[0].spec, last.spec, last.cluster);
    }
  }

  const EMPTY_PARAMS := Params(None, None, None, None, None, None, [], None, None, None, None, None,
                               None, None, None, None, None, map[], None, None, None)

  lemma NothingSetIsHeeded(f: Field, c: Cluster)
    ensures Heeds(SettingOf(f, EMPTY_PARAMS, c))
  {
  }

  /** Adoption is silent: importing an existing cluster with nothing set issues no
      update exactly when it has no bootstrap pool. */
  lemma AdoptionIsSilent(c: Cluster)
    requires !LateInitializePanics(EMPTY_PARAMS, c)
    ensures Settled(State(EMPTY_PARAMS, c)) <==> !HasBootstrapPool(c)
  {
    SettledIffHeeded(State(EMPTY_PARAMS, c));
    forall f: Field
      ensures Heeds(SettingOf(f, EMPTY_PARAMS, c))
    {
      NothingSetIsHeeded(f, c);
    }
  }
}
