/** Setting by setting: what GenerateX writes over an observed value (Overlay),
    what LateInitializeSpec writes into the spec (Late), and two independent
    readings of the spec: Heeds (the observed value has every wish of the user that
    IsUpToDate can see) and Keeps (one spec still says everything another one said). */
module ClusterSettings {
  import opened Gcp
  import opened ClusterTypes

  // ---- addons (cluster.go:106-169 and 649-694) ----

  function OverlayAddons(s: Option<AddonsSpec>, o: Option<Addons>): Option<Addons> {
    if s.None? then o else
      var c := OrZero(o, NO_ADDONS);
      Some(Addons(
             if s.value.cloudRun.None? then c.cloudRun
             else Some(CloudRun(s.value.cloudRun.value.disabled,
                                StringValue(s.value.cloudRun.value.loadBalancerType))),
             Prefer(s.value.configConnector, c.configConnector),
             Prefer(s.value.dnsCache, c.dnsCache),
             Prefer(s.value.persistentDiskCsi, c.persistentDiskCsi),
             Prefer(s.value.horizontalPodAutoscaling, c.horizontalPodAutoscaling),
             Prefer(s.value.httpLoadBalancing, c.httpLoadBalancing),
             Prefer(s.value.dashboard, c.dashboard),
             Prefer(s.value.networkPolicy, c.networkPolicy)))
  }

  /** The observed Cloud Run config replaces the one in the spec even when that one is set. */
  function LateAddons(s: Option<AddonsSpec>, o: Option<Addons>): Option<AddonsSpec> {
    if o.None? then s else
      var c := OrZero(s, NO_ADDONS_SPEC);
      Some(AddonsSpec(
             if o.value.cloudRun.None? then c.cloudRun
             else Some(CloudRunSpec(o.value.cloudRun.value.disabled,
                                    LateInitializeString(None, o.value.cloudRun.value.loadBalancerType))),
             Prefer(c.configConnector, o.value.configConnector),
             Prefer(c.dnsCache, o.value.dnsCache),
             Prefer(c.persistentDiskCsi, o.value.persistentDiskCsi),
             Prefer(c.horizontalPodAutoscaling, o.value.horizontalPodAutoscaling),
             Prefer(c.httpLoadBalancing, o.value.httpLoadBalancing),
             Prefer(c.dashboard, o.value.dashboard),
             Prefer(c.networkPolicy, o.value.networkPolicy)))
  }

  predicate HeedsAddons(s: Option<AddonsSpec>, o: Option<Addons>) {
    s.Some? ==>
      && o.Some?
      && (s.value.cloudRun.Some? ==> o.value.cloudRun.Some?)
      && Kept(s.value.configConnector, o.value.configConnector)
      && Kept(s.value.dnsCache, o.value.dnsCache)
      && Kept(s.value.persistentDiskCsi, o.value.persistentDiskCsi)
      && Kept(s.value.horizontalPodAutoscaling, o.value.horizontalPodAutoscaling)
      && Kept(s.value.httpLoadBalancing, o.value.httpLoadBalancing)
      && Kept(s.value.dashboard, o.value.dashboard)
      && Kept(s.value.networkPolicy, o.value.networkPolicy)
  }

  /** Cloud Run is only kept as "set": its content follows the observation. */
  predicate KeepsAddons(s: Option<AddonsSpec>, t: Option<AddonsSpec>) {
    s.Some? ==>
      && t.Some?
      && (s.value.cloudRun.Some? ==> t.value.cloudRun.Some?)
      && Kept(s.value.configConnector, t.value.configConnector)
      && Kept(s.value.dnsCache, t.value.dnsCache)
      && Kept(s.value.persistentDiskCsi, t.value.persistentDiskCsi)
      && Kept(s.value.horizontalPodAutoscaling, t.value.horizontalPodAutoscaling)
      && Kept(s.value.httpLoadBalancing, t.value.httpLoadBalancing)
      && Kept(s.value.dashboard, t.value.dashboard)
      && Kept(s.value.networkPolicy, t.value.networkPolicy)
  }

  // ---- autoscaling (cluster.go:193-246 and 704-752) ----

  function OverlayManagement(s: Option<NodeManagementSpec>, o: Option<NodeManagement>): Option<NodeManagement> {
    if s.None? then o
    else Some(NodeManagement(BoolValue(s.value.autoRepair), BoolValue(s.value.autoUpgrade)))
  }

  function LateManagement(s: Option<NodeManagementSpec>, o: Option<NodeManagement>): Option<NodeManagementSpec> {
    if o.None? then s else
      var c := OrZero(s, NodeManagementSpec(None, None));
      Some(NodeManagementSpec(LateInitializeBool(c.autoRepair, o.value.autoRepair),
                              LateInitializeBool(c.autoUpgrade, o.value.autoUpgrade)))
  }

  predicate HeedsManagement(s: Option<NodeManagementSpec>, o: Option<NodeManagement>) {
    s.Some? ==> o.Some? && Says(s.value.autoRepair, o.value.autoRepair) && Says(s.value.autoUpgrade, o.value.autoUpgrade)
  }

  predicate KeepsManagement(s: Option<NodeManagementSpec>, t: Option<NodeManagementSpec>) {
    s.Some? ==> t.Some? && Kept(s.value.autoRepair, t.value.autoRepair) && Kept(s.value.autoUpgrade, t.value.autoUpgrade)
  }

  function OverlayShielded(s: Option<ShieldedInstanceSpec>, o: Option<ShieldedInstance>): Option<ShieldedInstance> {
    if s.None? then o
    else Some(ShieldedInstance(BoolValue(s.value.integrityMonitoring), BoolValue(s.value.secureBoot)))
  }

  function LateShielded(s: Option<ShieldedInstanceSpec>, o: Option<ShieldedInstance>): Option<ShieldedInstanceSpec> {
    if o.None? then s else
      var c := OrZero(s, ShieldedInstanceSpec(None, None));
      Some(ShieldedInstanceSpec(LateInitializeBool(c.integrityMonitoring, o.value.integrityMonitoring),
                                LateInitializeBool(c.secureBoot, o.value.secureBoot)))
  }

  predicate HeedsShielded(s: Option<ShieldedInstanceSpec>, o: Option<ShieldedInstance>) {
    s.Some? ==> o.Some? && Says(s.value.integrityMonitoring, o.value.integrityMonitoring) && Says(s.value.secureBoot, o.value.secureBoot)
  }

  predicate KeepsShielded(s: Option<ShieldedInstanceSpec>, t: Option<ShieldedInstanceSpec>) {
    s.Some? ==> t.Some? && Kept(s.value.integrityMonitoring, t.value.integrityMonitoring) && Kept(s.value.secureBoot, t.value.secureBoot)
  }

  function OverlayUpgrade(s: Option<UpgradeSettingsSpec>, o: Option<UpgradeSettings>): Option<UpgradeSettings> {
    if s.None? then o
    else Some(UpgradeSettings(Int64Value(s.value.maxSurge), Int64Value(s.value.maxUnavailable)))
  }

  function LateUpgrade(s: Option<UpgradeSettingsSpec>, o: Option<UpgradeSettings>): Option<UpgradeSettingsSpec> {
    if o.None? then s else
      var c := OrZero(s, UpgradeSettingsSpec(None, None));
      Some(UpgradeSettingsSpec(LateInitializeInt64(c.maxSurge, o.value.maxSurge),
                               LateInitializeInt64(c.maxUnavailable, o.value.maxUnavailable)))
  }

  predicate HeedsUpgrade(s: Option<UpgradeSettingsSpec>, o: Option<UpgradeSettings>) {
    s.Some? ==> o.Some? && Says(s.value.maxSurge, o.value.maxSurge) && Says(s.value.maxUnavailable, o.value.maxUnavailable)
  }

  predicate KeepsUpgrade(s: Option<UpgradeSettingsSpec>, t: Option<UpgradeSettingsSpec>) {
    s.Some? ==> t.Some? && Kept(s.value.maxSurge, t.value.maxSurge) && Kept(s.value.maxUnavailable, t.value.maxUnavailable)
  }

  /** The disk type is never written: the spec's value is ignored and the observed one stays. */
  function OverlayDefaults(s: Option<PoolDefaultsSpec>, o: Option<PoolDefaults>): Option<PoolDefaults> {
    if s.None? then o else
      var c := OrZero(o, NO_DEFAULTS);
      Some(PoolDefaults(
             StringValue(s.value.bootDiskKmsKey), Int64Value(s.value.diskSizeGb), c.diskType,
             StringValue(s.value.minCpuPlatform), s.value.oauthScopes, StringValue(s.value.serviceAccount),
             OverlayManagement(s.value.management, c.management),
             OverlayShielded(s.value.shielded, c.shielded),
             OverlayUpgrade(s.value.upgrade, c.upgrade)))
  }

  function LateDefaults(s: Option<PoolDefaultsSpec>, o: Option<PoolDefaults>): Option<PoolDefaultsSpec> {
    if o.None? then s else
      var c := OrZero(s, NO_DEFAULTS_SPEC);
      Some(PoolDefaultsSpec(
             LateInitializeString(c.bootDiskKmsKey, o.value.bootDiskKmsKey),
             LateInitializeInt64(c.diskSizeGb, o.value.diskSizeGb),
             LateInitializeString(c.diskType, o.value.diskType),
             LateInitializeString(c.minCpuPlatform, o.value.minCpuPlatform),
             LateInitializeStringSlice(c.oauthScopes, o.value.oauthScopes),
             LateInitializeString(c.serviceAccount, o.value.serviceAccount),
             LateManagement(c.management, o.value.management),
             LateShielded(c.shielded, o.value.shielded),
             LateUpgrade(c.upgrade, o.value.upgrade)))
  }

  predicate HeedsDefaults(s: Option<PoolDefaultsSpec>, o: Option<PoolDefaults>) {
    s.Some? ==>
      && o.Some?
      && Says(s.value.bootDiskKmsKey, o.value.bootDiskKmsKey)
      && Says(s.value.diskSizeGb, o.value.diskSizeGb)
      && Says(s.value.minCpuPlatform, o.value.minCpuPlatform)
      && SaysList(s.value.oauthScopes, o.value.oauthScopes)
      && Says(s.value.serviceAccount, o.value.serviceAccount)
      && HeedsManagement(s.value.management, o.value.management)
      && HeedsShielded(s.value.shielded, o.value.shielded)
      && HeedsUpgrade(s.value.upgrade, o.value.upgrade)
  }

  predicate KeepsDefaults(s: Option<PoolDefaultsSpec>, t: Option<PoolDefaultsSpec>) {
    s.Some? ==>
      && t.Some?
      && Kept(s.value.bootDiskKmsKey, t.value.bootDiskKmsKey)
      && Kept(s.value.diskSizeGb, t.value.diskSizeGb)
      && Kept(s.value.diskType, t.value.diskType)
      && Kept(s.value.minCpuPlatform, t.value.minCpuPlatform)
      && SaysList(s.value.oauthScopes, t.value.oauthScopes)
      && Kept(s.value.serviceAccount, t.value.serviceAccount)
      && KeepsManagement(s.value.management, t.value.management)
      && KeepsShielded(s.value.shielded, t.value.shielded)
      && KeepsUpgrade(s.value.upgrade, t.value.upgrade)
  }

  /** A nil entry in the spec's list leaves a nil entry in the generated one. */
  function GenerateLimits(s: seq<Option<ResourceLimitSpec>>): (r: seq<Option<ResourceLimit>>)
    ensures |r| == |s|
  {
    seq(|s|, i requires 0 <= i < |s| =>
      if s[i].None? then None
      else Some(ResourceLimit(Int64Value(s[i].value.maximum), Int64Value(s[i].value.minimum),
                              StringValue(s[i].value.resourceType))))
  }

  function AdoptLimits(o: seq<Option<ResourceLimit>>): (r: seq<Option<ResourceLimitSpec>>)
    ensures |r| == |o|
  {
    seq(|o|, i requires 0 <= i < |o| =>
      if o[i].None? then None
      else Some(ResourceLimitSpec(Some(o[i].value.maximum), Some(o[i].value.minimum),
                                  Some(o[i].value.resourceType))))
  }

  predicate LimitsSay(s: seq<Option<ResourceLimitSpec>>, o: seq<Option<ResourceLimit>>) {
    s != [] ==>
      && |s| == |o|
      && forall i :: 0 <= i < |s| ==>
        && (s[i].Some? <==> o[i].Some?)
        && (s[i].Some? ==>
              && o[i].value.maximum == Int64Value(s[i].value.maximum)
              && o[i].value.minimum == Int64Value(s[i].value.minimum)
              && o[i].value.resourceType == StringValue(s[i].value.resourceType))
  }

  function OverlayAutoscaling(s: Option<AutoscalingSpec>, o: Option<Autoscaling>): Option<Autoscaling> {
    if s.None? then o else
      var c := OrZero(o, NO_AUTOSCALING);
      Some(Autoscaling(
             s.value.locations, BoolValue(s.value.enabled),
             OverlayDefaults(s.value.defaults, c.defaults),
             if s.value.limits == [] then c.limits else GenerateLimits(s.value.limits)))
  }

  /** Adopting the observed limits dereferences every entry. */
  predicate AutoscalingPanics(s: Option<AutoscalingSpec>, o: Option<Autoscaling>) {
    && o.Some?
    && (s.None? || s.value.limits == [])
    && exists i :: 0 <= i < |o.value.limits| && o.value.limits[i].None?
  }

  function LateAutoscaling(s: Option<AutoscalingSpec>, o: Option<Autoscaling>): Option<AutoscalingSpec> {
    if o.None? then s else
      var c := OrZero(s, NO_AUTOSCALING_SPEC);
      Some(AutoscalingSpec(
             LateInitializeStringSlice(c.locations, o.value.locations),
             LateInitializeBool(c.enabled, o.value.enabled),
             LateDefaults(c.defaults, o.value.defaults),
             if c.limits == [] then AdoptLimits(o.value.limits) else c.limits))
  }

  predicate HeedsAutoscaling(s: Option<AutoscalingSpec>, o: Option<Autoscaling>) {
    s.Some? ==>
      && o.Some?
      && SaysList(s.value.locations, o.value.locations)
      && Says(s.value.enabled, o.value.enabled)
      && HeedsDefaults(s.value.defaults, o.value.defaults)
      && LimitsSay(s.value.limits, o.value.limits)
  }

  predicate KeepsAutoscaling(s: Option<AutoscalingSpec>, t: Option<AutoscalingSpec>) {
    s.Some? ==>
      && t.Some?
      && SaysList(s.value.locations, t.value.locations)
      && Kept(s.value.enabled, t.value.enabled)
      && KeepsDefaults(s.value.defaults, t.value.defaults)
      && SaysList(s.value.limits, t.value.limits)
  }

  // ---- database encryption (cluster.go:269-277 and 762-768) ----

  function OverlayEncryption(s: Option<EncryptionSpec>, o: Option<Encryption>): Option<Encryption> {
    if s.None? then o else Some(Encryption(StringValue(s.value.keyName), StringValue(s.value.state)))
  }

  function LateEncryption(s: Option<EncryptionSpec>, o: Option<Encryption>): Option<EncryptionSpec> {
    if o.None? then s else
      var c := OrZero(s, EncryptionSpec(None, None));
      Some(EncryptionSpec(LateInitializeString(c.keyName, o.value.keyName),
                          LateInitializeString(c.state, o.value.state)))
  }

  predicate HeedsEncryption(s: Option<EncryptionSpec>, o: Option<Encryption>) {
    s.Some? ==> o.Some? && Says(s.value.keyName, o.value.keyName) && Says(s.value.state, o.value.state)
  }

  predicate KeepsEncryption(s: Option<EncryptionSpec>, t: Option<EncryptionSpec>) {
    s.Some? ==> t.Some? && Kept(s.value.keyName, t.value.keyName) && Kept(s.value.state, t.value.state)
  }

  // ---- maintenance policy (cluster.go:319-357 and 807-836) ----

  function OverlayDaily(s: Option<string>, o: Option<DailyWindow>): Option<DailyWindow> {
    if s.None? then o else Some(DailyWindow(s.value, OrZero(o, DailyWindow("", "")).duration))
  }

  function OverlayRecurring(s: Option<RecurringWindowSpec>, o: Option<RecurringWindow>): Option<RecurringWindow> {
    if s.None? then o else
      var c := OrZero(o, NO_RECURRING);
      Some(RecurringWindow(OrZero(s.value.recurrence, c.recurrence), Prefer(s.value.window, c.window)))
  }

  function OverlayMaintenance(s: Option<MaintenanceSpec>, o: Option<Maintenance>): Option<Maintenance> {
    if s.None? then o else
      var c := OrZero(OrZero(o, Maintenance(None)).window, NO_WINDOW);
      Some(Maintenance(Some(MaintenanceWindow(
                              OverlayDaily(s.value.daily, c.daily),
                              Prefer(s.value.exclusions, c.exclusions),
                              OverlayRecurring(s.value.recurring, c.recurring)))))
  }

  /** Only a spec without any maintenance policy is late-initialised. */
  function LateMaintenance(s: Option<MaintenanceSpec>, o: Option<Maintenance>): Option<MaintenanceSpec> {
    if s.Some? || o.None? || o.value.window.None? then s else
      var w := o.value.window.value;
      Some(MaintenanceSpec(if w.daily.None? then None else Some(w.daily.value.startTime),
                           w.exclusions, None))
  }

  /** Building the recurring window reads the spec's own window, which is nil at that point. */
  predicate MaintenancePanics(s: Option<MaintenanceSpec>, o: Option<Maintenance>) {
    s.None? && o.Some? && o.value.window.Some? && o.value.window.value.recurring.Some?
  }

  function Entries(m: Option<map<string, TimeWindow>>): map<string, TimeWindow> {
    OrZero(m, map[])
  }

  /** cmp.Equal with EquateEmpty: only a nil and an empty exclusion map are identified. */
  predicate SameMaintenance(a: Option<Maintenance>, b: Option<Maintenance>) {
    && (a.Some? <==> b.Some?)
    && (a.Some? ==>
          && (a.value.window.Some? <==> b.value.window.Some?)
          && (a.value.window.Some? ==>
                && a.value.window.value.daily == b.value.window.value.daily
                && a.value.window.value.recurring == b.value.window.value.recurring
                && Entries(a.value.window.value.exclusions) == Entries(b.value.window.value.exclusions)))
  }

  predicate HeedsMaintenance(s: Option<MaintenanceSpec>, o: Option<Maintenance>) {
    s.Some? ==>
      && o.Some? && o.value.window.Some?
      && var w := o.value.window.value;
      && (s.value.daily.Some? ==> w.daily.Some? && w.daily.value.startTime == s.value.daily.value)
      && (s.value.exclusions.Some? ==> Entries(w.exclusions) == s.value.exclusions.value)
      && (s.value.recurring.Some? ==>
            && w.recurring.Some?
            && Says(s.value.recurring.value.recurrence, w.recurring.value.recurrence)
            && Kept(s.value.recurring.value.window, w.recurring.value.window))
  }

  // ---- master credentials (cluster.go:360-374 and 838-848), never compared ----

  function OverlayMasterAuth(s: Option<MasterAuthSpec>, o: Option<MasterAuth>): Option<MasterAuth> {
    if s.None? then o else
      Some(MasterAuth(StringValue(s.value.username),
                      Prefer(s.value.issueClientCertificate, OrZero(o, MasterAuth("", None)).issueClientCertificate)))
  }

  /** The observed certificate choice replaces the one in the spec even when that one is set. */
  function LateMasterAuth(s: Option<MasterAuthSpec>, o: Option<MasterAuth>): Option<MasterAuthSpec> {
    if o.None? then s else
      var c := OrZero(s, MasterAuthSpec(None, None));
      Some(MasterAuthSpec(LateInitializeString(c.username, o.value.username),
                          Prefer(o.value.issueClientCertificate, c.issueClientCertificate)))
  }

  /** What the user set in the credentials is what is there. */
  predicate HonoursMasterAuth(s: Option<MasterAuthSpec>, o: Option<MasterAuth>) {
    s.Some? ==>
      && o.Some?
      && Says(s.value.username, o.value.username)
      && Kept(s.value.issueClientCertificate, o.value.issueClientCertificate)
  }

  predicate KeepsMasterAuth(s: Option<MasterAuthSpec>, t: Option<MasterAuthSpec>) {
    s.Some? ==>
      && t.Some?
      && Kept(s.value.username, t.value.username)
      && (s.value.issueClientCertificate.Some? ==> t.value.issueClientCertificate.Some?)
  }

  // ---- master authorized networks (cluster.go:377-396 and 850-864) ----

  function GenerateBlocks(s: seq<Option<CidrBlockSpec>>): (r: seq<Option<CidrBlock>>)
    ensures |r| == |s|
  {
    seq(|s|, i requires 0 <= i < |s| =>
      if s[i].None? then None else Some(CidrBlock(s[i].value.cidrBlock, StringValue(s[i].value.displayName))))
  }

  function AdoptBlocks(o: seq<Option<CidrBlock>>): (r: seq<Option<CidrBlockSpec>>)
    ensures |r| == |o|
  {
    seq(|o|, i requires 0 <= i < |o| =>
      if o[i].None? then None else Some(CidrBlockSpec(o[i].value.cidrBlock, Some(o[i].value.displayName))))
  }

  predicate BlocksSay(s: seq<Option<CidrBlockSpec>>, o: seq<Option<CidrBlock>>) {
    s != [] ==>
      && |s| == |o|
      && forall i :: 0 <= i < |s| ==>
        && (s[i].Some? <==> o[i].Some?)
        && (s[i].Some? ==>
              && o[i].value.cidrBlock == s[i].value.cidrBlock
              && o[i].value.displayName == StringValue(s[i].value.displayName))
  }

  function OverlayNetworks(s: Option<AuthorizedNetworksSpec>, o: Option<AuthorizedNetworks>): Option<AuthorizedNetworks> {
    if s.None? then o else
      var c := OrZero(o, NO_NETWORKS);
      Some(AuthorizedNetworks(BoolValue(s.value.enabled),
                              if s.value.blocks == [] then c.blocks else GenerateBlocks(s.value.blocks)))
  }

  predicate NetworksPanic(s: Option<AuthorizedNetworksSpec>, o: Option<AuthorizedNetworks>) {
    && o.Some?
    && (s.None? || s.value.blocks == [])
    && exists i :: 0 <= i < |o.value.blocks| && o.value.blocks[i].None?
  }

  function LateNetworks(s: Option<AuthorizedNetworksSpec>, o: Option<AuthorizedNetworks>): Option<AuthorizedNetworksSpec> {
    if o.None? then s else
      var c := OrZero(s, NO_NETWORKS_SPEC);
      Some(AuthorizedNetworksSpec(LateInitializeBool(c.enabled, o.value.enabled),
                                  if c.blocks == [] then AdoptBlocks(o.value.blocks) else c.blocks))
  }

  predicate HeedsNetworks(s: Option<AuthorizedNetworksSpec>, o: Option<AuthorizedNetworks>) {
    s.Some? ==> o.Some? && Says(s.value.enabled, o.value.enabled) && BlocksSay(s.value.blocks, o.value.blocks)
  }

  predicate KeepsNetworks(s: Option<AuthorizedNetworksSpec>, t: Option<AuthorizedNetworksSpec>) {
    s.Some? ==> t.Some? && Kept(s.value.enabled, t.value.enabled) && SaysList(s.value.blocks, t.value.blocks)
  }

  // ---- network config (cluster.go:399-414 and 869-881) ----

  function OverlayNetworkConfig(s: Option<NetworkConfigSpec>, o: Option<NetworkConfig>): Option<NetworkConfig> {
    if s.None? then o else
      var c := OrZero(o, NO_NETWORK_CONFIG);
      Some(NetworkConfig(c.network, c.subnetwork, StringValue(s.value.datapathProvider),
                         Prefer(s.value.defaultSnatDisabled, c.defaultSnatDisabled),
                         BoolValue(s.value.intraNodeVisibility), StringValue(s.value.privateIpv6)))
  }

  function LateNetworkConfig(s: Option<NetworkConfigSpec>, o: Option<NetworkConfig>): Option<NetworkConfigSpec> {
    if o.None? then s else
      var c := OrZero(s, NO_NETWORK_CONFIG_SPEC);
      Some(NetworkConfigSpec(LateInitializeString(c.datapathProvider, o.value.datapathProvider),
                             Prefer(c.defaultSnatDisabled, o.value.defaultSnatDisabled),
                             LateInitializeBool(c.intraNodeVisibility, o.value.intraNodeVisibility),
                             LateInitializeString(c.privateIpv6, o.value.privateIpv6)))
  }

  predicate HeedsIntraNode(s: Option<NetworkConfigSpec>, o: Option<NetworkConfig>) {
    s.Some? ==> Says(s.value.intraNodeVisibility, OrZero(o, NO_NETWORK_CONFIG).intraNodeVisibility)
  }

  predicate HeedsDatapath(s: Option<NetworkConfigSpec>, o: Option<NetworkConfig>) {
    s.Some? ==> Says(s.value.datapathProvider, OrZero(o, NO_NETWORK_CONFIG).datapathProvider)
  }

  predicate KeepsNetworkConfig(s: Option<NetworkConfigSpec>, t: Option<NetworkConfigSpec>) {
    s.Some? ==>
      && t.Some?
      && Kept(s.value.datapathProvider, t.value.datapathProvider)
      && Kept(s.value.defaultSnatDisabled, t.value.defaultSnatDisabled)
      && Kept(s.value.intraNodeVisibility, t.value.intraNodeVisibility)
      && Kept(s.value.privateIpv6, t.value.privateIpv6)
  }

  // ---- network policy (cluster.go:417-425 and 883-889) ----

  function OverlayNetworkPolicy(s: Option<NetworkPolicySpec>, o: Option<NetworkPolicy>): Option<NetworkPolicy> {
    if s.None? then o else Some(NetworkPolicy(BoolValue(s.value.enabled), StringValue(s.value.provider)))
  }

  function LateNetworkPolicy(s: Option<NetworkPolicySpec>, o: Option<NetworkPolicy>): Option<NetworkPolicySpec> {
    if o.None? then s else
      var c := OrZero(s, NetworkPolicySpec(None, None));
      Some(NetworkPolicySpec(LateInitializeBool(c.enabled, o.value.enabled),
                             LateInitializeString(c.provider, o.value.provider)))
  }

  predicate HeedsNetworkPolicy(s: Option<NetworkPolicySpec>, o: Option<NetworkPolicy>) {
    s.Some? ==> o.Some? && Says(s.value.enabled, o.value.enabled) && Says(s.value.provider, o.value.provider)
  }

  predicate KeepsNetworkPolicy(s: Option<NetworkPolicySpec>, t: Option<NetworkPolicySpec>) {
    s.Some? ==> t.Some? && Kept(s.value.enabled, t.value.enabled) && Kept(s.value.provider, t.value.provider)
  }

  // ---- notification config (cluster.go:428-440 and 905-914) ----

  /** A topic that is already there is never overwritten. */
  function OverlayNotification(s: Option<PubSub>, o: Option<Notification>): Option<Notification> {
    if s.None? || (o.Some? && o.value.pubsub.Some?) then o else Some(Notification(s))
  }

  function LateNotification(s: Option<PubSub>, o: Option<Notification>): Option<PubSub> {
    if s.None? && o.Some? then o.value.pubsub else s
  }

  predicate HeedsNotification(s: Option<PubSub>, o: Option<Notification>) {
    s.Some? ==> o.Some? && o.value.pubsub.Some?
  }

  // ---- private cluster config (cluster.go:443-457 and 891-903) ----

  function OverlayPrivateCluster(s: Option<PrivateClusterSpec>, o: Option<PrivateCluster>): Option<PrivateCluster> {
    if s.None? then o else
      var c := OrZero(o, NO_PRIVATE_CLUSTER);
      Some(PrivateCluster(BoolValue(s.value.privateEndpointEnabled), BoolValue(s.value.privateNodes),
                          StringValue(s.value.masterCidr),
                          Prefer(s.value.masterGlobalAccess, c.masterGlobalAccess),
                          c.privateEndpoint, c.publicEndpoint))
  }

  function LatePrivateCluster(s: Option<PrivateClusterSpec>, o: Option<PrivateCluster>): Option<PrivateClusterSpec> {
    if o.None? then s else
      var c := OrZero(s, NO_PRIVATE_CLUSTER_SPEC);
      Some(PrivateClusterSpec(LateInitializeBool(c.privateEndpointEnabled, o.value.privateEndpointEnabled),
                              LateInitializeBool(c.privateNodes, o.value.privateNodes),
                              LateInitializeString(c.masterCidr, o.value.masterCidr),
                              Prefer(c.masterGlobalAccess, o.value.masterGlobalAccess)))
  }

  predicate HeedsPrivateCluster(s: Option<PrivateClusterSpec>, o: Option<PrivateCluster>) {
    s.Some? ==>
      && o.Some?
      && Says(s.value.privateEndpointEnabled, o.value.privateEndpointEnabled)
      && Says(s.value.privateNodes, o.value.privateNodes)
      && Says(s.value.masterCidr, o.value.masterCidr)
      && Kept(s.value.masterGlobalAccess, o.value.masterGlobalAccess)
  }

  predicate KeepsPrivateCluster(s: Option<PrivateClusterSpec>, t: Option<PrivateClusterSpec>) {
    s.Some? ==>
      && t.Some?
      && Kept(s.value.privateEndpointEnabled, t.value.privateEndpointEnabled)
      && Kept(s.value.privateNodes, t.value.privateNodes)
      && Kept(s.value.masterCidr, t.value.masterCidr)
      && Kept(s.value.masterGlobalAccess, t.value.masterGlobalAccess)
  }

  // ---- resource usage export (cluster.go:470-491 and 924-939) ----

  function OverlayUsageExport(s: Option<UsageExportSpec>, o: Option<UsageExport>): Option<UsageExport> {
    if s.None? then o else
      var c := OrZero(o, NO_USAGE_EXPORT);
      Some(UsageExport(Prefer(s.value.dataset, c.dataset), Prefer(s.value.consumption, c.consumption),
                       BoolValue(s.value.egress)))
  }

  function LateUsageExport(s: Option<UsageExportSpec>, o: Option<UsageExport>): Option<UsageExportSpec> {
    if o.None? then s else
      var c := OrZero(s, NO_USAGE_EXPORT_SPEC);
      Some(UsageExportSpec(Prefer(c.dataset, o.value.dataset), Prefer(c.consumption, o.value.consumption),
                           LateInitializeBool(c.egress, o.value.egress)))
  }

  predicate HeedsUsageExport(s: Option<UsageExportSpec>, o: Option<UsageExport>) {
    s.Some? ==>
      && o.Some?
      && Kept(s.value.dataset, o.value.dataset)
      && Kept(s.value.consumption, o.value.consumption)
      && Says(s.value.egress, o.value.egress)
  }

  predicate KeepsUsageExport(s: Option<UsageExportSpec>, t: Option<UsageExportSpec>) {
    s.Some? ==>
      && t.Some?
      && Kept(s.value.dataset, t.value.dataset)
      && Kept(s.value.consumption, t.value.consumption)
      && Kept(s.value.egress, t.value.egress)
  }
}
