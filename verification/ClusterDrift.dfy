/** One view of every compared setting: what is wanted, what is there, whether
    they differ, what an update sends, and what the API may leave behind. The
    laws at the end are what the reconcile loop rests on. */
module ClusterDrift {
  import opened Gcp
  import opened ClusterTypes
  import opened ClusterSettings

  /** The 21 comparisons of cluster.IsUpToDate, in the order it makes them. */
  datatype Field =
    | AddonsField | AutopilotField | AutoscalingField | BinaryAuthorizationField
    | DatabaseEncryptionField | LegacyAbacField | LocationsField | LoggingField
    | MaintenanceField | AuthorizedNetworksField | MonitoringField | IntraNodeField
    | DatapathField | NetworkPolicyField | NotificationField | PrivateClusterField
    | ReleaseChannelField | ResourceLabelsField | UsageExportField
    | VerticalPodAutoscalingField | WorkloadIdentityField

  const FIELDS: nat := 21

  function Rank(f: Field): (r: nat)
    ensures r < FIELDS
  {
    match f
    case AddonsField => 0
    case AutopilotField => 1
    case AutoscalingField => 2
    case BinaryAuthorizationField => 3
    case DatabaseEncryptionField => 4
    case LegacyAbacField => 5
    case LocationsField => 6
    case LoggingField => 7
    case MaintenanceField => 8
    case AuthorizedNetworksField => 9
    case MonitoringField => 10
    case IntraNodeField => 11
    case DatapathField => 12
    case NetworkPolicyField => 13
    case NotificationField => 14
    case PrivateClusterField => 15
    case ReleaseChannelField => 16
    case ResourceLabelsField => 17
    case UsageExportField => 18
    case VerticalPodAutoscalingField => 19
    case WorkloadIdentityField => 20
  }

  /** The comparisons by number, as they follow each other in the code. */
  function FieldAt(i: nat): Field
    requires i < FIELDS
  {
    if i == 0 then AddonsField
    else if i == 1 then AutopilotField
    else if i == 2 then AutoscalingField
    else if i == 3 then BinaryAuthorizationField
    else if i == 4 then DatabaseEncryptionField
    else if i == 5 then LegacyAbacField
    else if i == 6 then LocationsField
    else if i == 7 then LoggingField
    else if i == 8 then MaintenanceField
    else if i == 9 then AuthorizedNetworksField
    else if i == 10 then MonitoringField
    else if i == 11 then IntraNodeField
    else if i == 12 then DatapathField
    else if i == 13 then NetworkPolicyField
    else if i == 14 then NotificationField
    else if i == 15 then PrivateClusterField
    else if i == 16 then ReleaseChannelField
    else if i == 17 then ResourceLabelsField
    else if i == 18 then UsageExportField
    else if i == 19 then VerticalPodAutoscalingField
    else WorkloadIdentityField
  }

  lemma RankIsPosition(f: Field, i: nat)
    requires i < FIELDS
    ensures FieldAt(Rank(f)) == f && Rank(FieldAt(i)) == i
  {
  }

  /** One setting: what the spec asks for, and what is observed. A pinned toggle is
      one that is never late-initialised; the two halves of the network config are
      compared, and written, one by one. */
  datatype Setting =
    | AddonsSetting(addonsWant: Option<AddonsSpec>, addonsIs: Option<Addons>)
    | PinnedSetting(pinnedWant: Option<bool>, pinnedIs: Option<bool>)
    | AutoscalingSetting(autoscalingWant: Option<AutoscalingSpec>, autoscalingIs: Option<Autoscaling>)
    | ToggleSetting(toggleWant: Option<bool>, toggleIs: Option<bool>)
    | EncryptionSetting(encryptionWant: Option<EncryptionSpec>, encryptionIs: Option<Encryption>)
    | ListSetting(listWant: seq<string>, listIs: seq<string>)
    | TextSetting(textWant: Option<string>, textIs: string)
    | MaintenanceSetting(maintenanceWant: Option<MaintenanceSpec>, maintenanceIs: Option<Maintenance>)
    | NetworksSetting(networksWant: Option<AuthorizedNetworksSpec>, networksIs: Option<AuthorizedNetworks>)
    | IntraNodeSetting(intraNodeWant: Option<NetworkConfigSpec>, intraNodeIs: Option<NetworkConfig>)
    | DatapathSetting(datapathWant: Option<NetworkConfigSpec>, datapathIs: Option<NetworkConfig>)
    | NetworkPolicySetting(networkPolicyWant: Option<NetworkPolicySpec>, networkPolicyIs: Option<NetworkPolicy>)
    | NotificationSetting(notificationWant: Option<PubSub>, notificationIs: Option<Notification>)
    | PrivateClusterSetting(privateClusterWant: Option<PrivateClusterSpec>, privateClusterIs: Option<PrivateCluster>)
    | NameSetting(nameWant: Option<string>, nameIs: Option<string>)
    | LabelsSetting(labelsWant: map<string, string>, labelsIs: map<string, string>)
    | UsageExportSetting(usageExportWant: Option<UsageExportSpec>, usageExportIs: Option<UsageExport>)

  function SettingOf(f: Field, p: Params, c: Cluster): Setting {
    match f
    case AddonsField => AddonsSetting(p.addons, c.addons)
    case AutopilotField => PinnedSetting(p.autopilot, c.autopilot)
    case AutoscalingField => AutoscalingSetting(p.autoscaling, c.autoscaling)
    case BinaryAuthorizationField => ToggleSetting(p.binaryAuthorization, c.binaryAuthorization)
    case DatabaseEncryptionField => EncryptionSetting(p.databaseEncryption, c.databaseEncryption)
    case LegacyAbacField => ToggleSetting(p.legacyAbac, c.legacyAbac)
    case LocationsField => ListSetting(p.locations, c.locations)
    case LoggingField => TextSetting(p.loggingService, c.loggingService)
    case MaintenanceField => MaintenanceSetting(p.maintenance, c.maintenance)
    case AuthorizedNetworksField => NetworksSetting(p.authorizedNetworks, c.authorizedNetworks)
    case MonitoringField => TextSetting(p.monitoringService, c.monitoringService)
    case IntraNodeField => IntraNodeSetting(p.networkConfig, c.networkConfig)
    case DatapathField => DatapathSetting(p.networkConfig, c.networkConfig)
    case NetworkPolicyField => NetworkPolicySetting(p.networkPolicy, c.networkPolicy)
    case NotificationField => NotificationSetting(p.notification, c.notification)
    case PrivateClusterField => PrivateClusterSetting(p.privateCluster, c.privateCluster)
    case ReleaseChannelField => NameSetting(p.releaseChannel, c.releaseChannel)
    case ResourceLabelsField => LabelsSetting(p.resourceLabels, c.resourceLabels)
    case UsageExportField => UsageExportSetting(p.usageExport, c.usageExport)
    case VerticalPodAutoscalingField => ToggleSetting(p.verticalPodAutoscaling, c.verticalPodAutoscaling)
    case WorkloadIdentityField => NameSetting(p.workloadPool, c.workloadPool)
  }

  /** The comparison IsUpToDate makes: the spec laid over a copy of the observation,
      against the observation. Only two fields of the network config are compared,
      and only when one is desired; a missing observed config counts as empty. */
  predicate Drifts(x: Setting) {
    match x
    case AddonsSetting(s, o) => OverlayAddons(s, o) != o
    case PinnedSetting(s, o) => Prefer(s, o) != o
    case AutoscalingSetting(s, o) => OverlayAutoscaling(s, o) != o
    case ToggleSetting(s, o) => Prefer(s, o) != o
    case EncryptionSetting(s, o) => OverlayEncryption(s, o) != o
    case ListSetting(s, o) => s != o
    case TextSetting(s, o) => StringValue(s) != o
    case MaintenanceSetting(s, o) => !SameMaintenance(OverlayMaintenance(s, o), o)
    case NetworksSetting(s, o) => OverlayNetworks(s, o) != o
    case IntraNodeSetting(s, o) =>
      var d := OverlayNetworkConfig(s, o);
      d.Some? && d.value.intraNodeVisibility != OrZero(o, NO_NETWORK_CONFIG).intraNodeVisibility
    case DatapathSetting(s, o) =>
      var d := OverlayNetworkConfig(s, o);
      d.Some? && d.value.datapathProvider != OrZero(o, NO_NETWORK_CONFIG).datapathProvider
    case NetworkPolicySetting(s, o) => OverlayNetworkPolicy(s, o) != o
    case NotificationSetting(s, o) => OverlayNotification(s, o) != o
    case PrivateClusterSetting(s, o) => OverlayPrivateCluster(s, o) != o
    case NameSetting(s, o) => Prefer(s, o) != o
    case LabelsSetting(s, o) => s != o
    case UsageExportSetting(s, o) => OverlayUsageExport(s, o) != o
  }

  predicate Differs(f: Field, p: Params, c: Cluster) {
    Drifts(SettingOf(f, p, c))
  }

  // ---- late initialisation ----

  /** The setting once LateInitializeSpec has filled in the spec. */
  function Late(x: Setting): Setting {
    match x
    case AddonsSetting(s, o) => AddonsSetting(LateAddons(s, o), o)
    case PinnedSetting(_, _) => x
    case AutoscalingSetting(s, o) => AutoscalingSetting(LateAutoscaling(s, o), o)
    case ToggleSetting(s, o) => ToggleSetting(Prefer(s, o), o)
    case EncryptionSetting(s, o) => EncryptionSetting(LateEncryption(s, o), o)
    case ListSetting(s, o) => ListSetting(LateInitializeStringSlice(s, o), o)
    case TextSetting(s, o) => TextSetting(LateInitializeString(s, o), o)
    case MaintenanceSetting(s, o) => MaintenanceSetting(LateMaintenance(s, o), o)
    case NetworksSetting(s, o) => NetworksSetting(LateNetworks(s, o), o)
    case IntraNodeSetting(s, o) => IntraNodeSetting(LateNetworkConfig(s, o), o)
    case DatapathSetting(s, o) => DatapathSetting(LateNetworkConfig(s, o), o)
    case NetworkPolicySetting(s, o) => NetworkPolicySetting(LateNetworkPolicy(s, o), o)
    case NotificationSetting(s, o) => NotificationSetting(LateNotification(s, o), o)
    case PrivateClusterSetting(s, o) => PrivateClusterSetting(LatePrivateCluster(s, o), o)
    case NameSetting(s, o) => NameSetting(Prefer(s, o), o)
    case LabelsSetting(s, o) => LabelsSetting(LateInitializeStringMap(s, o), o)
    case UsageExportSetting(s, o) => UsageExportSetting(LateUsageExport(s, o), o)
  }

  predicate LatePanics(x: Setting) {
    match x
    case AutoscalingSetting(s, o) => AutoscalingPanics(s, o)
    case MaintenanceSetting(s, o) => MaintenancePanics(s, o)
    case NetworksSetting(s, o) => NetworksPanic(s, o)
    case _ => false
  }

  // ---- what an update sends, and what the API does with it ----

  /** The content of an update call. */
  datatype Request =
    | SetAddons(addons: Option<Addons>)
    | SetPinned(pinned: Option<bool>)
    | SetAutoscaling(autoscaling: Option<Autoscaling>)
    | SetToggle(toggle: Option<bool>)
    | SetEncryption(encryption: Option<Encryption>)
    | SetList(list: seq<string>)
    | SetText(text: string)
    | SetMaintenance(maintenance: Option<Maintenance>)
    | SetNetworks(networks: Option<AuthorizedNetworks>)
    | SetIntraNode(enabled: bool)
    | SetDatapath(provider: string)
    | SetNetworkPolicy(policy: Option<NetworkPolicy>)
    | SetNotification(notification: Option<Notification>)
    | SetPrivateCluster(privateCluster: Option<PrivateCluster>)
    | SetName(name: Option<string>)
    | SetLabels(labels: map<string, string>)
    | SetUsageExport(usageExport: Option<UsageExport>)

  /** The closures that IsUpToDate returns. They build their content over an empty
      cluster, not over the observed one. The legacy ABAC closure and the two
      network config closures dereference the spec. */
  function RequestFor(f: Field, x: Setting): Outcome<Request> {
    match x
    case AddonsSetting(s, _) => Returns(SetAddons(OverlayAddons(s, None)))
    case PinnedSetting(s, _) => Returns(SetPinned(s))
    case AutoscalingSetting(s, _) => Returns(SetAutoscaling(OverlayAutoscaling(s, None)))
    case ToggleSetting(s, _) => if f == LegacyAbacField && s.None? then Panics else Returns(SetToggle(s))
    case EncryptionSetting(s, _) => Returns(SetEncryption(OverlayEncryption(s, None)))
    case ListSetting(s, _) => Returns(SetList(s))
    case TextSetting(s, _) => Returns(SetText(StringValue(s)))
    case MaintenanceSetting(s, _) => Returns(SetMaintenance(OverlayMaintenance(s, None)))
    case NetworksSetting(s, _) => Returns(SetNetworks(OverlayNetworks(s, None)))
    case IntraNodeSetting(s, _) =>
      if s.None? then Panics else Returns(SetIntraNode(BoolValue(s.value.intraNodeVisibility)))
    case DatapathSetting(s, _) =>
      if s.None? then Panics else Returns(SetDatapath(StringValue(s.value.datapathProvider)))
    case NetworkPolicySetting(s, _) => Returns(SetNetworkPolicy(OverlayNetworkPolicy(s, None)))
    case NotificationSetting(s, _) => Returns(SetNotification(OverlayNotification(s, None)))
    case PrivateClusterSetting(s, _) => Returns(SetPrivateCluster(OverlayPrivateCluster(s, None)))
    case NameSetting(s, _) => Returns(SetName(s))
    case LabelsSetting(s, _) => Returns(SetLabels(s))
    case UsageExportSetting(s, _) => Returns(SetUsageExport(OverlayUsageExport(s, None)))
  }

  // Two values that differ at most in what the API fills in by itself: the disk type
  // that no request carries, the length of a daily window, and the endpoints.

  predicate SameDefaults(a: Option<PoolDefaults>, b: Option<PoolDefaults>) {
    && (a.Some? <==> b.Some?)
    && (a.Some? ==> b.value == a.value.(diskType := b.value.diskType))
  }

  predicate AcceptedAutoscaling(a: Option<Autoscaling>, b: Option<Autoscaling>) {
    && (a.Some? <==> b.Some?)
    && (a.Some? ==>
          && SameDefaults(a.value.defaults, b.value.defaults)
          && b.value == a.value.(defaults := b.value.defaults))
  }

  predicate SameDaily(a: Option<DailyWindow>, b: Option<DailyWindow>) {
    && (a.Some? <==> b.Some?)
    && (a.Some? ==> a.value.startTime == b.value.startTime)
  }

  predicate AcceptedMaintenance(a: Option<Maintenance>, b: Option<Maintenance>) {
    && (a.Some? <==> b.Some?)
    && (a.Some? ==>
          && (a.value.window.Some? <==> b.value.window.Some?)
          && (a.value.window.Some? ==>
                && SameDaily(a.value.window.value.daily, b.value.window.value.daily)
                && b.value.window.value == a.value.window.value.(daily := b.value.window.value.daily)))
  }

  predicate AcceptedPrivateCluster(a: Option<PrivateCluster>, b: Option<PrivateCluster>) {
    && (a.Some? <==> b.Some?)
    && (a.Some? ==>
          b.value == a.value.(privateEndpoint := b.value.privateEndpoint,
                              publicEndpoint := b.value.publicEndpoint))
  }

  predicate AcceptedIntraNode(v: bool, before: Option<NetworkConfig>, after: Option<NetworkConfig>) {
    && after.Some?
    && after.value.intraNodeVisibility == v
    && after.value.datapathProvider == OrZero(before, NO_NETWORK_CONFIG).datapathProvider
    && (before.Some? ==> after.value == before.value.(intraNodeVisibility := v))
  }

  predicate AcceptedDatapath(v: string, before: Option<NetworkConfig>, after: Option<NetworkConfig>) {
    && after.Some?
    && after.value.datapathProvider == v
    && after.value.intraNodeVisibility == OrZero(before, NO_NETWORK_CONFIG).intraNodeVisibility
    && (before.Some? ==> after.value == before.value.(datapathProvider := v))
  }

  /** The assumption about the API: the addressed setting is written with the value
      in the request. Fields the API fills in by itself may take any value, and so
      may the unaddressed fields of a network config that did not exist before. */
  predicate Written(r: Request, x: Setting, y: Setting) {
    match y
    case AddonsSetting(_, o) => r == SetAddons(o)
    case PinnedSetting(_, o) => r == SetPinned(o)
    case AutoscalingSetting(_, o) => r.SetAutoscaling? && AcceptedAutoscaling(r.autoscaling, o)
    case ToggleSetting(_, o) => r == SetToggle(o)
    case EncryptionSetting(_, o) => r == SetEncryption(o)
    case ListSetting(_, o) => r == SetList(o)
    case TextSetting(_, o) => r == SetText(o)
    case MaintenanceSetting(_, o) => r.SetMaintenance? && AcceptedMaintenance(r.maintenance, o)
    case NetworksSetting(_, o) => r == SetNetworks(o)
    case IntraNodeSetting(_, o) => r.SetIntraNode? && x.IntraNodeSetting? && AcceptedIntraNode(r.enabled, x.intraNodeIs, o)
    case DatapathSetting(_, o) => r.SetDatapath? && x.DatapathSetting? && AcceptedDatapath(r.provider, x.datapathIs, o)
    case NetworkPolicySetting(_, o) => r == SetNetworkPolicy(o)
    case NotificationSetting(_, o) => r == SetNotification(o)
    case PrivateClusterSetting(_, o) => r.SetPrivateCluster? && AcceptedPrivateCluster(r.privateCluster, o)
    case NameSetting(_, o) => r == SetName(o)
    case LabelsSetting(_, o) => r == SetLabels(o)
    case UsageExportSetting(_, o) => r == SetUsageExport(o)
  }

  // ---- two readings of the spec ----

  /** The observed setting has every wish of the user that IsUpToDate can see. It cannot
      see what Cloud Run or the notification topic should be once there is one, the
      disk type of node pool defaults, nor the SNAT and IPv6 choices of the network
      config; ClusterWishes reads those. */
  predicate Heeds(x: Setting) {
    match x
    case AddonsSetting(s, o) => HeedsAddons(s, o)
    case PinnedSetting(s, o) => Kept(s, o)
    case AutoscalingSetting(s, o) => HeedsAutoscaling(s, o)
    case ToggleSetting(s, o) => Kept(s, o)
    case EncryptionSetting(s, o) => HeedsEncryption(s, o)
    case ListSetting(s, o) => SaysList(s, o)
    case TextSetting(s, o) => Says(s, o)
    case MaintenanceSetting(s, o) => HeedsMaintenance(s, o)
    case NetworksSetting(s, o) => HeedsNetworks(s, o)
    case IntraNodeSetting(s, o) => HeedsIntraNode(s, o)
    case DatapathSetting(s, o) => HeedsDatapath(s, o)
    case NetworkPolicySetting(s, o) => HeedsNetworkPolicy(s, o)
    case NotificationSetting(s, o) => HeedsNotification(s, o)
    case PrivateClusterSetting(s, o) => HeedsPrivateCluster(s, o)
    case NameSetting(s, o) => Kept(s, o)
    case LabelsSetting(s, o) => s != map[] ==> s == o
    case UsageExportSetting(s, o) => HeedsUsageExport(s, o)
  }

  /** For the setting `f`, `q` still says everything `p` said. */
  predicate Keeps(f: Field, p: Params, q: Params) {
    match f
    case AddonsField => KeepsAddons(p.addons, q.addons)
    case AutopilotField => Kept(p.autopilot, q.autopilot)
    case AutoscalingField => KeepsAutoscaling(p.autoscaling, q.autoscaling)
    case BinaryAuthorizationField => Kept(p.binaryAuthorization, q.binaryAuthorization)
    case DatabaseEncryptionField => KeepsEncryption(p.databaseEncryption, q.databaseEncryption)
    case LegacyAbacField => Kept(p.legacyAbac, q.legacyAbac)
    case LocationsField => SaysList(p.locations, q.locations)
    case LoggingField => Kept(p.loggingService, q.loggingService)
    case MaintenanceField => Kept(p.maintenance, q.maintenance)
    case AuthorizedNetworksField => KeepsNetworks(p.authorizedNetworks, q.authorizedNetworks)
    case MonitoringField => Kept(p.monitoringService, q.monitoringService)
    case IntraNodeField => KeepsNetworkConfig(p.networkConfig, q.networkConfig)
    case DatapathField => KeepsNetworkConfig(p.networkConfig, q.networkConfig)
    case NetworkPolicyField => KeepsNetworkPolicy(p.networkPolicy, q.networkPolicy)
    case NotificationField => Kept(p.notification, q.notification)
    case PrivateClusterField => KeepsPrivateCluster(p.privateCluster, q.privateCluster)
    case ReleaseChannelField => Kept(p.releaseChannel, q.releaseChannel)
    case ResourceLabelsField => p.resourceLabels != map[] ==> p.resourceLabels == q.resourceLabels
    case UsageExportField => KeepsUsageExport(p.usageExport, q.usageExport)
    case VerticalPodAutoscalingField => Kept(p.verticalPodAutoscaling, q.verticalPodAutoscaling)
    case WorkloadIdentityField => Kept(p.workloadPool, q.workloadPool)
  }

  // ---- laws of each kind of setting ----
  //
  // For a setting with spec `s` and observation `o`, in this order: after late
  // initialisation the overlay changes `o` exactly when `o` does not heed `s`; late
  // initialisation is idempotent and keeps what `s` says; a spec without drift is
  // heeded; the overlay over nothing is a fixed point of the overlay.

  lemma AddonsLaws(s: Option<AddonsSpec>, o: Option<Addons>)
    ensures OverlayAddons(LateAddons(s, o), o) == o <==> HeedsAddons(s, o)
    ensures LateAddons(LateAddons(s, o), o) == LateAddons(s, o)
    ensures KeepsAddons(s, LateAddons(s, o))
    ensures OverlayAddons(s, o) == o ==> HeedsAddons(s, o)
    ensures OverlayAddons(s, OverlayAddons(s, None)) == OverlayAddons(s, None)
  {
  }

  lemma ManagementLaws(s: Option<NodeManagementSpec>, o: Option<NodeManagement>)
    ensures OverlayManagement(LateManagement(s, o), o) == o <==> HeedsManagement(s, o)
    ensures LateManagement(LateManagement(s, o), o) == LateManagement(s, o)
    ensures KeepsManagement(s, LateManagement(s, o))
    ensures OverlayManagement(s, o) == o ==> HeedsManagement(s, o)
    ensures OverlayManagement(s, OverlayManagement(s, None)) == OverlayManagement(s, None)
  {
  }

  lemma ShieldedLaws(s: Option<ShieldedInstanceSpec>, o: Option<ShieldedInstance>)
    ensures OverlayShielded(LateShielded(s, o), o) == o <==> HeedsShielded(s, o)
    ensures LateShielded(LateShielded(s, o), o) == LateShielded(s, o)
    ensures KeepsShielded(s, LateShielded(s, o))
    ensures OverlayShielded(s, o) == o ==> HeedsShielded(s, o)
    ensures OverlayShielded(s, OverlayShielded(s, None)) == OverlayShielded(s, None)
  {
  }

  lemma UpgradeLaws(s: Option<UpgradeSettingsSpec>, o: Option<UpgradeSettings>)
    ensures OverlayUpgrade(LateUpgrade(s, o), o) == o <==> HeedsUpgrade(s, o)
    ensures LateUpgrade(LateUpgrade(s, o), o) == LateUpgrade(s, o)
    ensures KeepsUpgrade(s, LateUpgrade(s, o))
    ensures OverlayUpgrade(s, o) == o ==> HeedsUpgrade(s, o)
    ensures OverlayUpgrade(s, OverlayUpgrade(s, None)) == OverlayUpgrade(s, None)
  {
  }

  lemma DefaultsLaws(s: Option<PoolDefaultsSpec>, o: Option<PoolDefaults>)
    ensures OverlayDefaults(LateDefaults(s, o), o) == o <==> HeedsDefaults(s, o)
    ensures LateDefaults(LateDefaults(s, o), o) == LateDefaults(s, o)
    ensures KeepsDefaults(s, LateDefaults(s, o))
    ensures OverlayDefaults(s, o) == o ==> HeedsDefaults(s, o)
    ensures SameDefaults(OverlayDefaults(s, None), o) ==> OverlayDefaults(s, o) == o
  {
    if o.Some? {
      var c := OrZero(s, NO_DEFAULTS_SPEC);
      ManagementLaws(c.management, o.value.management);
      ShieldedLaws(c.shielded, o.value.shielded);
      UpgradeLaws(c.upgrade, o.value.upgrade);
    }
  }

  lemma LimitsLaws(s: seq<Option<ResourceLimitSpec>>, o: seq<Option<ResourceLimit>>)
    ensures s != [] ==> (GenerateLimits(s) == o <==> LimitsSay(s, o))
    ensures (forall i :: 0 <= i < |o| ==> o[i].Some?) ==> GenerateLimits(AdoptLimits(o)) == o
  {
  }

  lemma AutoscalingLaws(s: Option<AutoscalingSpec>, o: Option<Autoscaling>)
    ensures !AutoscalingPanics(s, o) ==>
              (OverlayAutoscaling(LateAutoscaling(s, o), o) == o <==> HeedsAutoscaling(s, o))
    ensures LateAutoscaling(LateAutoscaling(s, o), o) == LateAutoscaling(s, o)
    ensures KeepsAutoscaling(s, LateAutoscaling(s, o))
    ensures OverlayAutoscaling(s, o) == o ==> HeedsAutoscaling(s, o)
  {
    if o.Some? {
      var c := OrZero(s, NO_AUTOSCALING_SPEC);
      LimitsLaws(c.limits, o.value.limits);
      DefaultsLaws(c.defaults, o.value.defaults);
    }
  }

  lemma EncryptionLaws(s: Option<EncryptionSpec>, o: Option<Encryption>)
    ensures OverlayEncryption(LateEncryption(s, o), o) == o <==> HeedsEncryption(s, o)
    ensures LateEncryption(LateEncryption(s, o), o) == LateEncryption(s, o)
    ensures KeepsEncryption(s, LateEncryption(s, o))
    ensures OverlayEncryption(s, o) == o ==> HeedsEncryption(s, o)
    ensures OverlayEncryption(s, OverlayEncryption(s, None)) == OverlayEncryption(s, None)
  {
  }

  lemma MaintenanceLaws(s: Option<MaintenanceSpec>, o: Option<Maintenance>)
    ensures !MaintenancePanics(s, o) ==>
              (SameMaintenance(OverlayMaintenance(LateMaintenance(s, o), o), o) <==> HeedsMaintenance(s, o))
    ensures LateMaintenance(LateMaintenance(s, o), o) == LateMaintenance(s, o)
    ensures SameMaintenance(OverlayMaintenance(s, o), o) ==> HeedsMaintenance(s, o)
    ensures s.Some? && AcceptedMaintenance(OverlayMaintenance(s, None), o) ==>
              SameMaintenance(OverlayMaintenance(s, o), o)
  {
  }

  /** Of the credentials, never compared: what is generated is what the user set, and
      generating it again changes nothing; once late-initialised it changes the
      observed ones exactly when the user name differs or there is no certificate
      choice to follow. */
  lemma CredentialsLaws(s: Option<MasterAuthSpec>, o: Option<MasterAuth>)
    ensures HonoursMasterAuth(s, OverlayMasterAuth(s, o))
    ensures OverlayMasterAuth(s, OverlayMasterAuth(s, o)) == OverlayMasterAuth(s, o)
    ensures OverlayMasterAuth(LateMasterAuth(s, o), o) == o <==>
            (s.Some? ==>
               && o.Some? && Says(s.value.username, o.value.username)
               && (s.value.issueClientCertificate.Some? ==> o.value.issueClientCertificate.Some?))
    ensures KeepsMasterAuth(s, LateMasterAuth(s, o))
  {
  }

  lemma BlocksLaws(s: seq<Option<CidrBlockSpec>>, o: seq<Option<CidrBlock>>)
    ensures s != [] ==> (GenerateBlocks(s) == o <==> BlocksSay(s, o))
    ensures (forall i :: 0 <= i < |o| ==> o[i].Some?) ==> GenerateBlocks(AdoptBlocks(o)) == o
  {
  }

  lemma NetworksLaws(s: Option<AuthorizedNetworksSpec>, o: Option<AuthorizedNetworks>)
    ensures !NetworksPanic(s, o) ==>
              (OverlayNetworks(LateNetworks(s, o), o) == o <==> HeedsNetworks(s, o))
    ensures LateNetworks(LateNetworks(s, o), o) == LateNetworks(s, o)
    ensures KeepsNetworks(s, LateNetworks(s, o))
    ensures OverlayNetworks(s, o) == o ==> HeedsNetworks(s, o)
    ensures s.Some? && OverlayNetworks(s, None) == o ==> OverlayNetworks(s, o) == o && !NetworksPanic(s, o)
  {
    if o.Some? {
      BlocksLaws(if s.Some? then s.value.blocks else [], o.value.blocks);
    }
  }

  lemma NetworkConfigLaws(s: Option<NetworkConfigSpec>, o: Option<NetworkConfig>)
    ensures LateNetworkConfig(LateNetworkConfig(s, o), o) == LateNetworkConfig(s, o)
    ensures KeepsNetworkConfig(s, LateNetworkConfig(s, o))
    ensures HeedsIntraNode(s, o) <==> HeedsIntraNode(LateNetworkConfig(s, o), o)
    ensures HeedsDatapath(s, o) <==> HeedsDatapath(LateNetworkConfig(s, o), o)
  {
  }

  lemma NetworkPolicyLaws(s: Option<NetworkPolicySpec>, o: Option<NetworkPolicy>)
    ensures OverlayNetworkPolicy(LateNetworkPolicy(s, o), o) == o <==> HeedsNetworkPolicy(s, o)
    ensures LateNetworkPolicy(LateNetworkPolicy(s, o), o) == LateNetworkPolicy(s, o)
    ensures KeepsNetworkPolicy(s, LateNetworkPolicy(s, o))
    ensures OverlayNetworkPolicy(s, o) == o ==> HeedsNetworkPolicy(s, o)
    ensures OverlayNetworkPolicy(s, OverlayNetworkPolicy(s, None)) == OverlayNetworkPolicy(s, None)
  {
  }

  lemma PrivateClusterLaws(s: Option<PrivateClusterSpec>, o: Option<PrivateCluster>)
    ensures OverlayPrivateCluster(LatePrivateCluster(s, o), o) == o <==> HeedsPrivateCluster(s, o)
    ensures LatePrivateCluster(LatePrivateCluster(s, o), o) == LatePrivateCluster(s, o)
    ensures KeepsPrivateCluster(s, LatePrivateCluster(s, o))
    ensures OverlayPrivateCluster(s, o) == o ==> HeedsPrivateCluster(s, o)
    ensures s.Some? && AcceptedPrivateCluster(OverlayPrivateCluster(s, None), o) ==>
              OverlayPrivateCluster(s, o) == o
  {
  }

  lemma UsageExportLaws(s: Option<UsageExportSpec>, o: Option<UsageExport>)
    ensures OverlayUsageExport(LateUsageExport(s, o), o) == o <==> HeedsUsageExport(s, o)
    ensures LateUsageExport(LateUsageExport(s, o), o) == LateUsageExport(s, o)
    ensures KeepsUsageExport(s, LateUsageExport(s, o))
    ensures OverlayUsageExport(s, o) == o ==> HeedsUsageExport(s, o)
    ensures OverlayUsageExport(s, OverlayUsageExport(s, None)) == OverlayUsageExport(s, None)
  {
  }

  // ---- laws of all settings ----

  /** After late initialisation a setting differs exactly when the observation does not
      heed the user. */
  lemma DriftIsUnheeded(x: Setting)
    requires !LatePanics(x)
    ensures Drifts(Late(x)) <==> !Heeds(x)
  {
    if x.AutoscalingSetting? || x.MaintenanceSetting? || x.NetworksSetting? {
      PanickyDriftIsUnheeded(x);
    } else {
      SafeDriftIsUnheeded(x);
    }
  }

  lemma PanickyDriftIsUnheeded(x: Setting)
    requires !LatePanics(x) && (x.AutoscalingSetting? || x.MaintenanceSetting? || x.NetworksSetting?)
    ensures Drifts(Late(x)) <==> !Heeds(x)
  {
    match x
    case AutoscalingSetting(s, o) => AutoscalingLaws(s, o);
    case MaintenanceSetting(s, o) => MaintenanceLaws(s, o);
    case NetworksSetting(s, o) => NetworksLaws(s, o);
  }

  lemma SafeDriftIsUnheeded(x: Setting)
    requires !x.AutoscalingSetting? && !x.MaintenanceSetting? && !x.NetworksSetting?
    ensures Drifts(Late(x)) <==> !Heeds(x)
  {
    match x
    case AddonsSetting(s, o) => AddonsLaws(s, o);
    case EncryptionSetting(s, o) => EncryptionLaws(s, o);
    case IntraNodeSetting(s, o) => NetworkConfigLaws(s, o);
    case DatapathSetting(s, o) => NetworkConfigLaws(s, o);
    case NetworkPolicySetting(s, o) => NetworkPolicyLaws(s, o);
    case PrivateClusterSetting(s, o) => PrivateClusterLaws(s, o);
    case UsageExportSetting(s, o) => UsageExportLaws(s, o);
    case _ =>
  }

  /** Without late initialisation, what does not differ is heeded. */
  lemma NoDriftIsHeeded(x: Setting)
    requires !Drifts(x)
    ensures Heeds(x)
  {
  }

  lemma LateIsIdempotent(x: Setting)
    ensures Late(Late(x)) == Late(x)
  {
  }

  /** Late initialisation that did not panic does not panic on the same observation again. */
  lemma LateStaysSafe(x: Setting)
    requires !LatePanics(x)
    ensures !LatePanics(Late(x))
  {
  }

  /** The three closures that dereference the spec do so exactly when it is unset. */
  lemma ClosurePanicsIff(f: Field, x: Setting)
    ensures RequestFor(f, x).Panics? <==>
            || (f == LegacyAbacField && x.ToggleSetting? && x.toggleWant == None)
            || (x.IntraNodeSetting? && x.intraNodeWant == None)
            || (x.DatapathSetting? && x.datapathWant == None)
  {
  }

  /** A setting that differs is present in the spec, so its closure does not dereference nil. */
  lemma DriftIsRequestable(f: Field, x: Setting)
    requires Drifts(x)
    ensures RequestFor(f, x).Returns?
  {
  }

  /** Whatever the API makes of the request, the setting no longer differs and its
      late initialisation does not panic. */
  lemma WriteSettles(f: Field, p: Params, c: Cluster, d: Cluster)
    requires Differs(f, p, c)
    requires RequestFor(f, SettingOf(f, p, c)).Returns?
    requires Written(RequestFor(f, SettingOf(f, p, c)).value, SettingOf(f, p, c), SettingOf(f, p, d))
    ensures !Differs(f, p, d)
    ensures !LatePanics(SettingOf(f, p, d))
  {
    if Rank(f) < 9 {
      EarlyWriteSettles(f, p, c, d);
    } else {
      LateWriteSettles(f, p, c, d);
    }
  }

  lemma EarlyWriteSettles(f: Field, p: Params, c: Cluster, d: Cluster)
    requires Differs(f, p, c) && Rank(f) < 9
    requires RequestFor(f, SettingOf(f, p, c)).Returns?
    requires Written(RequestFor(f, SettingOf(f, p, c)).value, SettingOf(f, p, c), SettingOf(f, p, d))
    ensures !Differs(f, p, d)
    ensures !LatePanics(SettingOf(f, p, d))
  {
  }

  lemma LateWriteSettles(f: Field, p: Params, c: Cluster, d: Cluster)
    requires Differs(f, p, c) && Rank(f) >= 9
    requires RequestFor(f, SettingOf(f, p, c)).Returns?
    requires Written(RequestFor(f, SettingOf(f, p, c)).value, SettingOf(f, p, c), SettingOf(f, p, d))
    ensures !Differs(f, p, d)
    ensures !LatePanics(SettingOf(f, p, d))
  {
  }

  lemma KeepsIsReflexive(f: Field, p: Params)
    ensures Keeps(f, p, p)
  {
  }

  lemma KeepsIsTransitive(f: Field, p: Params, q: Params, r: Params)
    requires Keeps(f, p, q) && Keeps(f, q, r)
    ensures Keeps(f, p, r)
  {
  }

  /** What heeds a spec that says more heeds one that says less. */
  lemma KeepsWeakens(f: Field, p: Params, q: Params, c: Cluster)
    requires Keeps(f, p, q) && Heeds(SettingOf(f, q, c))
    ensures Heeds(SettingOf(f, p, c))
  {
  }

  // ---- what an update overwrites ----

  /** The maintenance policy of a spec names everything the observed window holds. */
  predicate NamesWholeWindow(s: MaintenanceSpec, w: MaintenanceWindow) {
    && (w.daily.Some? ==> s.daily.Some?)
    && (Entries(w.exclusions) != map[] ==> s.exclusions.Some?)
    && (w.recurring.Some? ==>
          && s.recurring.Some?
          && (s.recurring.value.recurrence.Some? || w.recurring.value.recurrence == "")
          && (s.recurring.value.window.Some? || w.recurring.value.window.None?))
  }

  predicate SameWindow(a: MaintenanceWindow, b: MaintenanceWindow) {
    && SameDaily(a.daily, b.daily)
    && a.recurring == b.recurring
    && Entries(a.exclusions) == Entries(b.exclusions)
  }

  /** The request, built over an empty cluster, carries the very value that was
      compared, which was built over the observation. */
  predicate SendsDesired(x: Setting) {
    match x
    case AddonsSetting(s, o) => OverlayAddons(s, None) == OverlayAddons(s, o)
    case AutoscalingSetting(s, o) => AcceptedAutoscaling(OverlayAutoscaling(s, None), OverlayAutoscaling(s, o))
    case EncryptionSetting(s, o) => OverlayEncryption(s, None) == OverlayEncryption(s, o)
    case MaintenanceSetting(s, o) =>
      if s.None? then o.None? || o.value.window.None?
      else SameWindow(OverlayMaintenance(s, None).value.window.value, OverlayMaintenance(s, o).value.window.value)
    case PinnedSetting(s, o) => s == Prefer(s, o)
    case ToggleSetting(s, o) => s == Prefer(s, o)
    case NameSetting(s, o) => s == Prefer(s, o)
    case IntraNodeSetting(s, o) => SameNetworkConfig(OverlayNetworkConfig(s, None), OverlayNetworkConfig(s, o))
    case DatapathSetting(s, o) => SameNetworkConfig(OverlayNetworkConfig(s, None), OverlayNetworkConfig(s, o))
    case NetworksSetting(s, o) => OverlayNetworks(s, None) == OverlayNetworks(s, o)
    case NetworkPolicySetting(s, o) => OverlayNetworkPolicy(s, None) == OverlayNetworkPolicy(s, o)
    case NotificationSetting(s, o) => OverlayNotification(s, None) == OverlayNotification(s, o)
    case PrivateClusterSetting(s, o) => AcceptedPrivateCluster(OverlayPrivateCluster(s, None), OverlayPrivateCluster(s, o))
    case UsageExportSetting(s, o) => OverlayUsageExport(s, None) == OverlayUsageExport(s, o)
    case _ => true
  }

  /** Equal but for the names that only the service sets. */
  predicate SameNetworkConfig(a: Option<NetworkConfig>, b: Option<NetworkConfig>) {
    && (a.Some? <==> b.Some?)
    && (a.Some? ==> b.value == a.value.(network := b.value.network, subnetwork := b.value.subnetwork))
  }

  /** Late initialisation takes everything over: the spec by itself then says what it
      says together with the observation. Not so for autopilot, which is never taken
      over, for a maintenance policy that is set, and for a topic. */
  lemma LateSendsDesired(x: Setting)
    requires !LatePanics(x) && !x.PinnedSetting? && !x.NotificationSetting?
    requires x.MaintenanceSetting? ==> x.maintenanceWant.None?
    ensures SendsDesired(Late(x))
  {
  }

  /** A topic is taken over when the user set none, and the observed policy of a spec
      without one is taken over whole. */
  lemma LateAdoptsWhole(s: Option<PubSub>, n: Notification, w: MaintenanceWindow)
    requires w.recurring.None?
    ensures LateNotification(s, Some(n)) == if s.Some? then s else n.pubsub
    ensures LateMaintenance(None, Some(Maintenance(Some(w)))).Some?
    ensures var late := LateMaintenance(None, Some(Maintenance(Some(w)))).value;
            && NamesWholeWindow(late, w)
            && (late.daily.Some? <==> w.daily.Some?) && late.exclusions == w.exclusions && late.recurring.None?
            && (w.daily.Some? ==> late.daily.value == w.daily.value.startTime)
  {
  }

  /** The observed disk type is taken over too, although it is never generated. */
  lemma LateAdoptsDiskType(s: Option<PoolDefaultsSpec>, d: PoolDefaults)
    ensures LateDefaults(s, Some(d)).Some?
    ensures var wish := OrZero(s, NO_DEFAULTS_SPEC).diskType;
            StringValue(LateDefaults(s, Some(d)).value.diskType) == if wish.Some? then wish.value else d.diskType
  {
  }

  /** The two settings have the same spec. */
  predicate SameWant(x: Setting, y: Setting) {
    match x
    case AddonsSetting(s, _) => y.AddonsSetting? && y.addonsWant == s
    case PinnedSetting(s, _) => y.PinnedSetting? && y.pinnedWant == s
    case AutoscalingSetting(s, _) => y.AutoscalingSetting? && y.autoscalingWant == s
    case ToggleSetting(s, _) => y.ToggleSetting? && y.toggleWant == s
    case EncryptionSetting(s, _) => y.EncryptionSetting? && y.encryptionWant == s
    case ListSetting(s, _) => y.ListSetting? && y.listWant == s
    case TextSetting(s, _) => y.TextSetting? && y.textWant == s
    case MaintenanceSetting(s, _) => y.MaintenanceSetting? && y.maintenanceWant == s
    case NetworksSetting(s, _) => y.NetworksSetting? && y.networksWant == s
    case IntraNodeSetting(s, _) => y.IntraNodeSetting? && y.intraNodeWant == s
    case DatapathSetting(s, _) => y.DatapathSetting? && y.datapathWant == s
    case NetworkPolicySetting(s, _) => y.NetworkPolicySetting? && y.networkPolicyWant == s
    case NotificationSetting(s, _) => y.NotificationSetting? && y.notificationWant == s
    case PrivateClusterSetting(s, _) => y.PrivateClusterSetting? && y.privateClusterWant == s
    case NameSetting(s, _) => y.NameSetting? && y.nameWant == s
    case LabelsSetting(s, _) => y.LabelsSetting? && y.labelsWant == s
    case UsageExportSetting(s, _) => y.UsageExportSetting? && y.usageExportWant == s
  }

  /** A request carries nothing of the observation: it depends on the spec alone. */
  lemma RequestIgnoresObservation(f: Field, x: Setting, y: Setting)
    requires SameWant(x, y)
    ensures RequestFor(f, x) == RequestFor(f, y)
  {
  }

  /** No update of a late-initialised spec drops anything the user did not mention,
      except an update of the maintenance policy. */
  lemma UpdateSendsDesired(x: Setting)
    requires Late(x) == x && Drifts(x) && !x.MaintenanceSetting?
    ensures SendsDesired(x)
  {
  }

  /** An update of the maintenance policy keeps what is observed exactly when the
      spec names all of it: late initialisation skips a policy that is set. */
  lemma MaintenanceUpdateErases(s: MaintenanceSpec, o: Maintenance)
    ensures SendsDesired(MaintenanceSetting(Some(s), Some(o))) <==>
            NamesWholeWindow(s, OrZero(o.window, NO_WINDOW))
  {
  }

  /** What the comparison cannot see: a change of the notification topic once there is
      one, the disk type of the node pool defaults, and all of the network config but
      two fields. */
  lemma UnheardWishes(s: Option<PubSub>, o: Option<Notification>, d: PoolDefaultsSpec, diskType: Option<string>,
                      od: Option<PoolDefaults>, n: NetworkConfigSpec, snat: Option<bool>, ipv6: Option<string>,
                      on: Option<NetworkConfig>)
    ensures Drifts(NotificationSetting(s, o)) <==> s.Some? && (o.None? || o.value.pubsub.None?)
    ensures OverlayDefaults(Some(d.(diskType := diskType)), od) == OverlayDefaults(Some(d), od)
    ensures var m := n.(defaultSnatDisabled := snat, privateIpv6 := ipv6);
            && Drifts(IntraNodeSetting(Some(m), on)) == Drifts(IntraNodeSetting(Some(n), on))
            && Drifts(DatapathSetting(Some(m), on)) == Drifts(DatapathSetting(Some(n), on))
  {
  }
}
