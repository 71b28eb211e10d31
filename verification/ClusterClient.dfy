/** The imperative side of pkg/clients/cluster/cluster.go: GenerateX writes through
    a cluster, LateInitializeSpec through a spec, IsUpToDate overlays a copy. Each
    method is proved against the function of ClusterSettings it computes. Nested
    structs are values: nothing in the source shares one between two clusters after
    copystructure.Copy and then writes through it. */
module ClusterClient {
  import opened Gcp
  import opened ClusterTypes
  import opened ClusterSettings
  import opened ClusterDrift
  import opened ClusterReconcile

  // ---- GenerateX ----

  method GenerateAddons(s: AddonsSpec, cur: Option<Addons>) returns (a: Addons)
    ensures Some(a) == OverlayAddons(Some(s), cur)
  {
    a := if cur.None? then NO_ADDONS else cur.value;
    if s.cloudRun.Some? {
      var run := if a.cloudRun.None? then CloudRun(false, "") else a.cloudRun.value;
      run := run.(disabled := s.cloudRun.value.disabled);
      run := run.(loadBalancerType := StringValue(s.cloudRun.value.loadBalancerType));
      a := a.(cloudRun := Some(run));
    }
    if s.configConnector.Some? {
      a := a.(configConnector := s.configConnector);
    }
    if s.dnsCache.Some? {
      a := a.(dnsCache := s.dnsCache);
    }
    if s.persistentDiskCsi.Some? {
      a := a.(persistentDiskCsi := s.persistentDiskCsi);
    }
    if s.horizontalPodAutoscaling.Some? {
      a := a.(horizontalPodAutoscaling := s.horizontalPodAutoscaling);
    }
    if s.httpLoadBalancing.Some? {
      a := a.(httpLoadBalancing := s.httpLoadBalancing);
    }
    if s.dashboard.Some? {
      a := a.(dashboard := s.dashboard);
    }
    if s.networkPolicy.Some? {
      a := a.(networkPolicy := s.networkPolicy);
    }
  }

  method GenerateAddonsConfig(s: Option<AddonsSpec>, cluster: Pointer<Cluster>)
    modifies cluster
    ensures cluster.it == old(cluster.it).(addons := OverlayAddons(s, old(cluster.it).addons))
  {
    if s.Some? {
      var a := GenerateAddons(s.value, cluster.it.addons);
      cluster.it := cluster.it.(addons := Some(a));
    }
  }

  method GenerateDefaults(s: PoolDefaultsSpec, cur: Option<PoolDefaults>) returns (d: PoolDefaults)
    ensures Some(d) == OverlayDefaults(Some(s), cur)
  {
    d := if cur.None? then NO_DEFAULTS else cur.value;
    d := d.(bootDiskKmsKey := StringValue(s.bootDiskKmsKey));
    d := d.(diskSizeGb := Int64Value(s.diskSizeGb));
    d := d.(minCpuPlatform := StringValue(s.minCpuPlatform));
    d := d.(oauthScopes := s.oauthScopes);
    d := d.(serviceAccount := StringValue(s.serviceAccount));
    if s.management.Some? {
      var m := if d.management.None? then NodeManagement(false, false) else d.management.value;
      m := m.(autoRepair := BoolValue(s.management.value.autoRepair));
      m := m.(autoUpgrade := BoolValue(s.management.value.autoUpgrade));
      d := d.(management := Some(m));
    }
    if s.shielded.Some? {
      var h := if d.shielded.None? then ShieldedInstance(false, false) else d.shielded.value;
      h := h.(integrityMonitoring := BoolValue(s.shielded.value.integrityMonitoring));
      h := h.(secureBoot := BoolValue(s.shielded.value.secureBoot));
      d := d.(shielded := Some(h));
    }
    if s.upgrade.Some? {
      var g := if d.upgrade.None? then UpgradeSettings(0, 0) else d.upgrade.value;
      g := g.(maxSurge := Int64Value(s.upgrade.value.maxSurge));
      g := g.(maxUnavailable := Int64Value(s.upgrade.value.maxUnavailable));
      d := d.(upgrade := Some(g));
    }
  }

  /** The loop that fills the limits by index; a nil entry stays nil. */
  method FillLimits(s: seq<Option<ResourceLimitSpec>>, cur: seq<Option<ResourceLimit>>)
    returns (r: seq<Option<ResourceLimit>>)
    ensures r == if s == [] then cur else GenerateLimits(s)
  {
    r := cur;
    if |s| > 0 {
      r := seq(|s|, _ => None);
    }
    for i := 0 to |s|
      invariant |s| > 0 ==> |r| == |s|
      invariant |s| == 0 ==> r == cur
      invariant forall k | 0 <= k < i :: r[k] == GenerateLimits(s)[k]
      invariant forall k | i <= k < |s| :: r[k] == None
    {
      if s[i].Some? {
        var limit := s[i].value;
        r := r[i := Some(ResourceLimit(Int64Value(limit.maximum), Int64Value(limit.minimum),
                                       StringValue(limit.resourceType)))];
      }
    }
  }

  method GenerateAutoscaling(s: Option<AutoscalingSpec>, cluster: Pointer<Cluster>)
    modifies cluster
    ensures cluster.it == old(cluster.it).(autoscaling := OverlayAutoscaling(s, old(cluster.it).autoscaling))
  {
    if s.Some? {
      var a := if cluster.it.autoscaling.None? then NO_AUTOSCALING else cluster.it.autoscaling.value;
      a := a.(locations := s.value.locations);
      a := a.(enabled := BoolValue(s.value.enabled));
      if s.value.defaults.Some? {
        var d := GenerateDefaults(s.value.defaults.value, a.defaults);
        a := a.(defaults := Some(d));
      }
      var limits := FillLimits(s.value.limits, a.limits);
      cluster.it := cluster.it.(autoscaling := Some(a.(limits := limits)));
    }
  }

  method GenerateDatabaseEncryption(s: Option<EncryptionSpec>, cluster: Pointer<Cluster>)
    modifies cluster
    ensures cluster.it == old(cluster.it).(databaseEncryption := OverlayEncryption(s, old(cluster.it).databaseEncryption))
  {
    if s.Some? {
      var e := if cluster.it.databaseEncryption.None? then Encryption("", "") else cluster.it.databaseEncryption.value;
      e := e.(keyName := StringValue(s.value.keyName));
      cluster.it := cluster.it.(databaseEncryption := Some(e.(state := StringValue(s.value.state))));
    }
  }

  /** The loop over the exclusions visits the keys in any order. */
  method CopyExclusions(m: map<string, TimeWindow>) returns (r: map<string, TimeWindow>)
    ensures r == m
  {
    r := map[];
    var todo := m.Keys;
    while todo != {}
      invariant todo <= m.Keys
      invariant r == map k | k in m && k !in todo :: m[k]
      decreases todo
    {
      var k :| k in todo;
      r := r[k := TimeWindow(m[k].startTime, m[k].endTime)];
      todo := todo - {k};
    }
  }

  method GenerateMaintenancePolicy(s: Option<MaintenanceSpec>, cluster: Pointer<Cluster>)
    modifies cluster
    ensures cluster.it == old(cluster.it).(maintenance := OverlayMaintenance(s, old(cluster.it).maintenance))
  {
    if s.Some? {
      var m := if cluster.it.maintenance.None? then Maintenance(None) else cluster.it.maintenance.value;
      var w := if m.window.None? then NO_WINDOW else m.window.value;
      if s.value.daily.Some? {
        var d := if w.daily.None? then DailyWindow("", "") else w.daily.value;
        w := w.(daily := Some(d.(startTime := s.value.daily.value)));
      }
      if s.value.exclusions.Some? {
        var copied := CopyExclusions(s.value.exclusions.value);
        w := w.(exclusions := Some(copied));
      }
      if s.value.recurring.Some? {
        var r := if w.recurring.None? then NO_RECURRING else w.recurring.value;
        if s.value.recurring.value.recurrence.Some? {
          r := r.(recurrence := s.value.recurring.value.recurrence.value);
        }
        if s.value.recurring.value.window.Some? {
          var tw := s.value.recurring.value.window.value;
          r := r.(window := Some(TimeWindow(tw.startTime, tw.endTime)));
        }
        w := w.(recurring := Some(r));
      }
      cluster.it := cluster.it.(maintenance := Some(Maintenance(Some(w))));
    }
  }

  method GenerateMasterAuth(s: Option<MasterAuthSpec>, cluster: Pointer<Cluster>)
    modifies cluster
    ensures cluster.it == old(cluster.it).(masterAuth := OverlayMasterAuth(s, old(cluster.it).masterAuth))
    ensures HonoursMasterAuth(s, cluster.it.masterAuth)
  {
    if s.Some? {
      var m := if cluster.it.masterAuth.None? then MasterAuth("", None) else cluster.it.masterAuth.value;
      m := m.(username := StringValue(s.value.username));
      if s.value.issueClientCertificate.Some? {
        m := m.(issueClientCertificate := s.value.issueClientCertificate);
      }
      cluster.it := cluster.it.(masterAuth := Some(m));
    }
  }

  method FillBlocks(s: seq<Option<CidrBlockSpec>>, cur: seq<Option<CidrBlock>>)
    returns (r: seq<Option<CidrBlock>>)
    ensures r == if s == [] then cur else GenerateBlocks(s)
  {
    r := cur;
    if |s| > 0 {
      r := seq(|s|, _ => None);
    }
    for i := 0 to |s|
      invariant |s| > 0 ==> |r| == |s|
      invariant |s| == 0 ==> r == cur
      invariant forall k | 0 <= k < i :: r[k] == GenerateBlocks(s)[k]
      invariant forall k | i <= k < |s| :: r[k] == None
    {
      if s[i].Some? {
        r := r[i := Some(CidrBlock(s[i].value.cidrBlock, StringValue(s[i].value.displayName)))];
      }
    }
  }

  method GenerateMasterAuthorizedNetworksConfig(s: Option<AuthorizedNetworksSpec>, cluster: Pointer<Cluster>)
    modifies cluster
    ensures cluster.it == old(cluster.it).(authorizedNetworks := OverlayNetworks(s, old(cluster.it).authorizedNetworks))
  {
    if s.Some? {
      var n := if cluster.it.authorizedNetworks.None? then NO_NETWORKS else cluster.it.authorizedNetworks.value;
      n := n.(enabled := BoolValue(s.value.enabled));
      var blocks := FillBlocks(s.value.blocks, n.blocks);
      cluster.it := cluster.it.(authorizedNetworks := Some(n.(blocks := blocks)));
    }
  }

  method GenerateNetworkConfig(s: Option<NetworkConfigSpec>, cluster: Pointer<Cluster>)
    modifies cluster
    ensures cluster.it == old(cluster.it).(networkConfig := OverlayNetworkConfig(s, old(cluster.it).networkConfig))
  {
    if s.Some? {
      var n := if cluster.it.networkConfig.None? then NO_NETWORK_CONFIG else cluster.it.networkConfig.value;
      n := n.(intraNodeVisibility := BoolValue(s.value.intraNodeVisibility));
      n := n.(privateIpv6 := StringValue(s.value.privateIpv6));
      n := n.(datapathProvider := StringValue(s.value.datapathProvider));
      if s.value.defaultSnatDisabled.Some? {
        n := n.(defaultSnatDisabled := s.value.defaultSnatDisabled);
      }
      cluster.it := cluster.it.(networkConfig := Some(n));
    }
  }

  method GenerateNetworkPolicy(s: Option<NetworkPolicySpec>, cluster: Pointer<Cluster>)
    modifies cluster
    ensures cluster.it == old(cluster.it).(networkPolicy := OverlayNetworkPolicy(s, old(cluster.it).networkPolicy))
  {
    if s.Some? {
      var n := if cluster.it.networkPolicy.None? then NetworkPolicy(false, "") else cluster.it.networkPolicy.value;
      n := n.(enabled := BoolValue(s.value.enabled));
      cluster.it := cluster.it.(networkPolicy := Some(n.(provider := StringValue(s.value.provider))));
    }
  }

  method GenerateNotificationConfig(s: Option<PubSub>, cluster: Pointer<Cluster>)
    modifies cluster
    ensures cluster.it == old(cluster.it).(notification := OverlayNotification(s, old(cluster.it).notification))
  {
    if s.Some? {
      if cluster.it.notification.None? {
        cluster.it := cluster.it.(notification := Some(Notification(None)));
      }
      if cluster.it.notification.value.pubsub.None? {
        cluster.it := cluster.it.(notification := Some(Notification(Some(PubSub(s.value.enabled, s.value.topic)))));
      }
    }
  }

  method GeneratePrivateClusterConfig(s: Option<PrivateClusterSpec>, cluster: Pointer<Cluster>)
    modifies cluster
    ensures cluster.it == old(cluster.it).(privateCluster := OverlayPrivateCluster(s, old(cluster.it).privateCluster))
  {
    if s.Some? {
      var v := if cluster.it.privateCluster.None? then NO_PRIVATE_CLUSTER else cluster.it.privateCluster.value;
      v := v.(privateEndpointEnabled := BoolValue(s.value.privateEndpointEnabled));
      v := v.(privateNodes := BoolValue(s.value.privateNodes));
      v := v.(masterCidr := StringValue(s.value.masterCidr));
      if s.value.masterGlobalAccess.Some? {
        v := v.(masterGlobalAccess := s.value.masterGlobalAccess);
      }
      cluster.it := cluster.it.(privateCluster := Some(v));
    }
  }

  method GenerateResourceUsageExportConfig(s: Option<UsageExportSpec>, cluster: Pointer<Cluster>)
    modifies cluster
    ensures cluster.it == old(cluster.it).(usageExport := OverlayUsageExport(s, old(cluster.it).usageExport))
  {
    if s.Some? {
      var v := if cluster.it.usageExport.None? then NO_USAGE_EXPORT else cluster.it.usageExport.value;
      v := v.(egress := BoolValue(s.value.egress));
      if s.value.dataset.Some? {
        v := v.(dataset := s.value.dataset);
      }
      if s.value.consumption.Some? {
        v := v.(consumption := s.value.consumption);
      }
      cluster.it := cluster.it.(usageExport := Some(v));
    }
  }

  method GenerateAutopilot(s: Option<bool>, cluster: Pointer<Cluster>)
    modifies cluster
    ensures cluster.it == old(cluster.it).(autopilot := Prefer(s, old(cluster.it).autopilot))
  {
    if s.Some? {
      cluster.it := cluster.it.(autopilot := s);
    }
  }

  method GenerateBinaryAuthorization(s: Option<bool>, cluster: Pointer<Cluster>)
    modifies cluster
    ensures cluster.it == old(cluster.it).(binaryAuthorization := Prefer(s, old(cluster.it).binaryAuthorization))
  {
    if s.Some? {
      cluster.it := cluster.it.(binaryAuthorization := s);
    }
  }

  method GenerateLegacyAbac(s: Option<bool>, cluster: Pointer<Cluster>)
    modifies cluster
    ensures cluster.it == old(cluster.it).(legacyAbac := Prefer(s, old(cluster.it).legacyAbac))
  {
    if s.Some? {
      cluster.it := cluster.it.(legacyAbac := s);
    }
  }

  method GenerateReleaseChannel(s: Option<string>, cluster: Pointer<Cluster>)
    modifies cluster
    ensures cluster.it == old(cluster.it).(releaseChannel := Prefer(s, old(cluster.it).releaseChannel))
  {
    if s.Some? {
      cluster.it := cluster.it.(releaseChannel := s);
    }
  }

  method GenerateVerticalPodAutoscaling(s: Option<bool>, cluster: Pointer<Cluster>)
    modifies cluster
    ensures cluster.it == old(cluster.it).(verticalPodAutoscaling := Prefer(s, old(cluster.it).verticalPodAutoscaling))
  {
    if s.Some? {
      cluster.it := cluster.it.(verticalPodAutoscaling := s);
    }
  }

  method GenerateWorkloadIdentityConfig(s: Option<string>, cluster: Pointer<Cluster>)
    modifies cluster
    ensures cluster.it == old(cluster.it).(workloadPool := Prefer(s, old(cluster.it).workloadPool))
  {
    if s.Some? {
      cluster.it := cluster.it.(workloadPool := s);
    }
  }

  method GenerateCluster(p: Params, cluster: Pointer<Cluster>)
    modifies cluster
    ensures cluster.it == OverlayCluster(p, old(cluster.it))
  {
    cluster.it := cluster.it.(locations := p.locations);
    cluster.it := cluster.it.(loggingService := StringValue(p.loggingService));
    cluster.it := cluster.it.(monitoringService := StringValue(p.monitoringService));
    cluster.it := cluster.it.(resourceLabels := p.resourceLabels);
    GenerateAddonsConfig(p.addons, cluster);
    GenerateAutopilot(p.autopilot, cluster);
    GenerateAutoscaling(p.autoscaling, cluster);
    GenerateBinaryAuthorization(p.binaryAuthorization, cluster);
    GenerateDatabaseEncryption(p.databaseEncryption, cluster);
    GenerateLegacyAbac(p.legacyAbac, cluster);
    GenerateMaintenancePolicy(p.maintenance, cluster);
    GenerateMasterAuth(p.masterAuth, cluster);
    GenerateMasterAuthorizedNetworksConfig(p.authorizedNetworks, cluster);
    GenerateNetworkConfig(p.networkConfig, cluster);
    GenerateNetworkPolicy(p.networkPolicy, cluster);
    GenerateNotificationConfig(p.notification, cluster);
    GeneratePrivateClusterConfig(p.privateCluster, cluster);
    GenerateReleaseChannel(p.releaseChannel, cluster);
    GenerateResourceUsageExportConfig(p.usageExport, cluster);
    GenerateVerticalPodAutoscaling(p.verticalPodAutoscaling, cluster);
    GenerateWorkloadIdentityConfig(p.workloadPool, cluster);
  }

  // ---- LateInitializeSpec ----

  /** Takes a pointer over when the spec has none. */
  method TakeOver<T>(s: Option<T>, o: Option<T>) returns (r: Option<T>)
    ensures r == Prefer(s, o)
  {
    r := s;
    if s.None? && o.Some? {
      r := o;
    }
  }

  method LateInitializeAddons(cur: Option<AddonsSpec>, o: Addons) returns (a: AddonsSpec)
    ensures Some(a) == LateAddons(cur, Some(o))
  {
    a := if cur.None? then NO_ADDONS_SPEC else cur.value;
    if o.cloudRun.Some? {
      var run := CloudRunSpec(o.cloudRun.value.disabled, None);
      run := run.(loadBalancerType := LateInitializeString(run.loadBalancerType, o.cloudRun.value.loadBalancerType));
      a := a.(cloudRun := Some(run));
    }
    var v := TakeOver(a.configConnector, o.configConnector);
    a := a.(configConnector := v);
    v := TakeOver(a.dnsCache, o.dnsCache);
    a := a.(dnsCache := v);
    v := TakeOver(a.persistentDiskCsi, o.persistentDiskCsi);
    a := a.(persistentDiskCsi := v);
    v := TakeOver(a.horizontalPodAutoscaling, o.horizontalPodAutoscaling);
    a := a.(horizontalPodAutoscaling := v);
    v := TakeOver(a.httpLoadBalancing, o.httpLoadBalancing);
    a := a.(httpLoadBalancing := v);
    v := TakeOver(a.dashboard, o.dashboard);
    a := a.(dashboard := v);
    v := TakeOver(a.networkPolicy, o.networkPolicy);
    a := a.(networkPolicy := v);
  }

  method LateInitializeManagement(cur: Option<NodeManagementSpec>, o: NodeManagement) returns (m: NodeManagementSpec)
    ensures Some(m) == LateManagement(cur, Some(o))
  {
    m := if cur.None? then NodeManagementSpec(None, None) else cur.value;
    m := m.(autoRepair := LateInitializeBool(m.autoRepair, o.autoRepair));
    m := m.(autoUpgrade := LateInitializeBool(m.autoUpgrade, o.autoUpgrade));
  }

  method LateInitializeShielded(cur: Option<ShieldedInstanceSpec>, o: ShieldedInstance) returns (h: ShieldedInstanceSpec)
    ensures Some(h) == LateShielded(cur, Some(o))
  {
    h := if cur.None? then ShieldedInstanceSpec(None, None) else cur.value;
    h := h.(integrityMonitoring := LateInitializeBool(h.integrityMonitoring, o.integrityMonitoring));
    h := h.(secureBoot := LateInitializeBool(h.secureBoot, o.secureBoot));
  }

  method LateInitializeUpgrade(cur: Option<UpgradeSettingsSpec>, o: UpgradeSettings) returns (g: UpgradeSettingsSpec)
    ensures Some(g) == LateUpgrade(cur, Some(o))
  {
    g := if cur.None? then UpgradeSettingsSpec(None, None) else cur.value;
    g := g.(maxSurge := LateInitializeInt64(g.maxSurge, o.maxSurge));
    g := g.(maxUnavailable := LateInitializeInt64(g.maxUnavailable, o.maxUnavailable));
  }

  method LateInitializeDefaults(cur: Option<PoolDefaultsSpec>, o: PoolDefaults) returns (d: PoolDefaultsSpec)
    ensures Some(d) == LateDefaults(cur, Some(o))
  {
    d := if cur.None? then NO_DEFAULTS_SPEC else cur.value;
    d := d.(bootDiskKmsKey := LateInitializeString(d.bootDiskKmsKey, o.bootDiskKmsKey));
    d := d.(diskSizeGb := LateInitializeInt64(d.diskSizeGb, o.diskSizeGb));
    d := d.(diskType := LateInitializeString(d.diskType, o.diskType));
    d := d.(minCpuPlatform := LateInitializeString(d.minCpuPlatform, o.minCpuPlatform));
    d := d.(oauthScopes := LateInitializeStringSlice(d.oauthScopes, o.oauthScopes));
    d := d.(serviceAccount := LateInitializeString(d.serviceAccount, o.serviceAccount));
    if o.management.Some? {
      var m := LateInitializeManagement(d.management, o.management.value);
      d := d.(management := Some(m));
    }
    if o.shielded.Some? {
      var h := LateInitializeShielded(d.shielded, o.shielded.value);
      d := d.(shielded := Some(h));
    }
    if o.upgrade.Some? {
      var g := LateInitializeUpgrade(d.upgrade, o.upgrade.value);
      d := d.(upgrade := Some(g));
    }
  }

  /** Copies the observed limits into the spec; a nil entry is dereferenced. */
  method CopyLimits(o: seq<Option<ResourceLimit>>) returns (r: Outcome<seq<Option<ResourceLimitSpec>>>)
    ensures r.Panics? <==> exists i :: 0 <= i < |o| && o[i].None?
    ensures r.Returns? ==> r.value == AdoptLimits(o)
  {
    var s: seq<Option<ResourceLimitSpec>> := seq(|o|, _ => None);
    for i := 0 to |o|
      invariant |s| == |o|
      invariant forall k | 0 <= k < i :: o[k].Some? && s[k] == AdoptLimits(o)[k]
    {
      if o[i].None? {
        return Panics;
      }
      s := s[i := Some(ResourceLimitSpec(Some(o[i].value.maximum), Some(o[i].value.minimum),
                                         Some(o[i].value.resourceType)))];
    }
    return Returns(s);
  }

  method LateInitializeAutoscaling(spec: Pointer<Params>, o: Option<Autoscaling>) returns (panicked: bool)
    modifies spec
    ensures panicked <==> AutoscalingPanics(old(spec.it).autoscaling, o)
    ensures !panicked ==>
              spec.it == old(spec.it).(autoscaling := LateAutoscaling(old(spec.it).autoscaling, o))
  {
    panicked := false;
    if o.Some? {
      var a := if spec.it.autoscaling.None? then NO_AUTOSCALING_SPEC else spec.it.autoscaling.value;
      a := a.(locations := LateInitializeStringSlice(a.locations, o.value.locations));
      if o.value.defaults.Some? {
        var d := LateInitializeDefaults(a.defaults, o.value.defaults.value);
        a := a.(defaults := Some(d));
      }
      a := a.(enabled := LateInitializeBool(a.enabled, o.value.enabled));
      if |o.value.limits| != 0 && |a.limits| == 0 {
        var limits := CopyLimits(o.value.limits);
        if limits.Panics? {
          return true;
        }
        a := a.(limits := limits.value);
      }
      spec.it := spec.it.(autoscaling := Some(a));
    }
  }

  method LateInitializeMaintenance(spec: Pointer<Params>, o: Option<Maintenance>) returns (panicked: bool)
    modifies spec
    ensures panicked <==> MaintenancePanics(old(spec.it).maintenance, o)
    ensures !panicked ==>
              spec.it == old(spec.it).(maintenance := LateMaintenance(old(spec.it).maintenance, o))
  {
    panicked := false;
    if spec.it.maintenance.None? && o.Some? && o.value.window.Some? {
      var w := o.value.window.value;
      var m := MaintenanceSpec(None, None, None);
      if w.daily.Some? {
        m := m.(daily := Some(w.daily.value.startTime));
      }
      if w.exclusions.Some? {
        var copied := CopyExclusions(w.exclusions.value);
        m := m.(exclusions := Some(copied));
      }
      if w.recurring.Some? {
        // The times are read from the recurring window of the spec that is being
        // built, which is still nil, and not from the observed one.
        return true;
      }
      spec.it := spec.it.(maintenance := Some(m));
    }
  }

  method CopyBlocks(o: seq<Option<CidrBlock>>) returns (r: Outcome<seq<Option<CidrBlockSpec>>>)
    ensures r.Panics? <==> exists i :: 0 <= i < |o| && o[i].None?
    ensures r.Returns? ==> r.value == AdoptBlocks(o)
  {
    var s: seq<Option<CidrBlockSpec>> := seq(|o|, _ => None);
    for i := 0 to |o|
      invariant |s| == |o|
      invariant forall k | 0 <= k < i :: o[k].Some? && s[k] == AdoptBlocks(o)[k]
    {
      if o[i].None? {
        return Panics;
      }
      s := s[i := Some(CidrBlockSpec(o[i].value.cidrBlock, Some(o[i].value.displayName)))];
    }
    return Returns(s);
  }

  method LateInitializeNetworks(spec: Pointer<Params>, o: Option<AuthorizedNetworks>) returns (panicked: bool)
    modifies spec
    ensures panicked <==> NetworksPanic(old(spec.it).authorizedNetworks, o)
    ensures !panicked ==>
              spec.it == old(spec.it).(authorizedNetworks := LateNetworks(old(spec.it).authorizedNetworks, o))
  {
    panicked := false;
    if o.Some? {
      var n := if spec.it.authorizedNetworks.None? then NO_NETWORKS_SPEC else spec.it.authorizedNetworks.value;
      if |o.value.blocks| != 0 && |n.blocks| == 0 {
        var blocks := CopyBlocks(o.value.blocks);
        if blocks.Panics? {
          return true;
        }
        n := n.(blocks := blocks.value);
      }
      n := n.(enabled := LateInitializeBool(n.enabled, o.value.enabled));
      spec.it := spec.it.(authorizedNetworks := Some(n));
    }
  }

  method LateInitializeEncryption(cur: Option<EncryptionSpec>, o: Encryption) returns (e: EncryptionSpec)
    ensures Some(e) == LateEncryption(cur, Some(o))
  {
    e := if cur.None? then EncryptionSpec(None, None) else cur.value;
    e := e.(keyName := LateInitializeString(e.keyName, o.keyName));
    e := e.(state := LateInitializeString(e.state, o.state));
  }

  method LateInitializeMasterAuth(cur: Option<MasterAuthSpec>, o: MasterAuth) returns (m: MasterAuthSpec)
    ensures Some(m) == LateMasterAuth(cur, Some(o))
  {
    m := if cur.None? then MasterAuthSpec(None, None) else cur.value;
    if o.issueClientCertificate.Some? {
      m := m.(issueClientCertificate := o.issueClientCertificate);
    }
    m := m.(username := LateInitializeString(m.username, o.username));
  }

  method LateInitializeNetworkConfig(cur: Option<NetworkConfigSpec>, o: NetworkConfig) returns (n: NetworkConfigSpec)
    ensures Some(n) == LateNetworkConfig(cur, Some(o))
  {
    n := if cur.None? then NO_NETWORK_CONFIG_SPEC else cur.value;
    n := n.(intraNodeVisibility := LateInitializeBool(n.intraNodeVisibility, o.intraNodeVisibility));
    n := n.(privateIpv6 := LateInitializeString(n.privateIpv6, o.privateIpv6));
    n := n.(datapathProvider := LateInitializeString(n.datapathProvider, o.datapathProvider));
    var snat := TakeOver(n.defaultSnatDisabled, o.defaultSnatDisabled);
    n := n.(defaultSnatDisabled := snat);
  }

  method LateInitializeNetworkPolicy(cur: Option<NetworkPolicySpec>, o: NetworkPolicy) returns (n: NetworkPolicySpec)
    ensures Some(n) == LateNetworkPolicy(cur, Some(o))
  {
    n := if cur.None? then NetworkPolicySpec(None, None) else cur.value;
    n := n.(enabled := LateInitializeBool(n.enabled, o.enabled));
    n := n.(provider := LateInitializeString(n.provider, o.provider));
  }

  method LateInitializePrivateCluster(cur: Option<PrivateClusterSpec>, o: PrivateCluster) returns (v: PrivateClusterSpec)
    ensures Some(v) == LatePrivateCluster(cur, Some(o))
  {
    v := if cur.None? then NO_PRIVATE_CLUSTER_SPEC else cur.value;
    v := v.(privateEndpointEnabled := LateInitializeBool(v.privateEndpointEnabled, o.privateEndpointEnabled));
    v := v.(privateNodes := LateInitializeBool(v.privateNodes, o.privateNodes));
    v := v.(masterCidr := LateInitializeString(v.masterCidr, o.masterCidr));
    var access := TakeOver(v.masterGlobalAccess, o.masterGlobalAccess);
    v := v.(masterGlobalAccess := access);
  }

  method LateInitializeUsageExport(cur: Option<UsageExportSpec>, o: UsageExport) returns (v: UsageExportSpec)
    ensures Some(v) == LateUsageExport(cur, Some(o))
  {
    v := if cur.None? then NO_USAGE_EXPORT_SPEC else cur.value;
    var dataset := TakeOver(v.dataset, o.dataset);
    v := v.(dataset := dataset);
    var consumption := TakeOver(v.consumption, o.consumption);
    v := v.(consumption := consumption);
    v := v.(egress := LateInitializeBool(v.egress, o.egress));
  }

  /** The configs whose fields are taken over one by one. */
  method LateInitializeParts(spec: Pointer<Params>, o: Cluster)
    modifies spec
    ensures spec.it == old(spec.it).(
              addons := LateAddons(old(spec.it).addons, o.addons),
              databaseEncryption := LateEncryption(old(spec.it).databaseEncryption, o.databaseEncryption),
              masterAuth := LateMasterAuth(old(spec.it).masterAuth, o.masterAuth),
              networkConfig := LateNetworkConfig(old(spec.it).networkConfig, o.networkConfig),
              networkPolicy := LateNetworkPolicy(old(spec.it).networkPolicy, o.networkPolicy),
              privateCluster := LatePrivateCluster(old(spec.it).privateCluster, o.privateCluster),
              usageExport := LateUsageExport(old(spec.it).usageExport, o.usageExport))
  {
    if o.addons.Some? {
      var a := LateInitializeAddons(spec.it.addons, o.addons.value);
      spec.it := spec.it.(addons := Some(a));
    }
    if o.databaseEncryption.Some? {
      var e := LateInitializeEncryption(spec.it.databaseEncryption, o.databaseEncryption.value);
      spec.it := spec.it.(databaseEncryption := Some(e));
    }
    if o.masterAuth.Some? {
      var m := LateInitializeMasterAuth(spec.it.masterAuth, o.masterAuth.value);
      spec.it := spec.it.(masterAuth := Some(m));
    }
    if o.networkConfig.Some? {
      var n := LateInitializeNetworkConfig(spec.it.networkConfig, o.networkConfig.value);
      spec.it := spec.it.(networkConfig := Some(n));
    }
    if o.networkPolicy.Some? {
      var n := LateInitializeNetworkPolicy(spec.it.networkPolicy, o.networkPolicy.value);
      spec.it := spec.it.(networkPolicy := Some(n));
    }
    if o.privateCluster.Some? {
      var v := LateInitializePrivateCluster(spec.it.privateCluster, o.privateCluster.value);
      spec.it := spec.it.(privateCluster := Some(v));
    }
    if o.usageExport.Some? {
      var v := LateInitializeUsageExport(spec.it.usageExport, o.usageExport.value);
      spec.it := spec.it.(usageExport := Some(v));
    }
  }

  /** The configs that are taken over whole when the spec has none. */
  method LateInitializeWholes(spec: Pointer<Params>, o: Cluster)
    modifies spec
    ensures spec.it == old(spec.it).(
              binaryAuthorization := Prefer(old(spec.it).binaryAuthorization, o.binaryAuthorization),
              legacyAbac := Prefer(old(spec.it).legacyAbac, o.legacyAbac),
              notification := LateNotification(old(spec.it).notification, o.notification),
              releaseChannel := Prefer(old(spec.it).releaseChannel, o.releaseChannel),
              verticalPodAutoscaling := Prefer(old(spec.it).verticalPodAutoscaling, o.verticalPodAutoscaling),
              workloadPool := Prefer(old(spec.it).workloadPool, o.workloadPool))
  {
    var v := TakeOver(spec.it.binaryAuthorization, o.binaryAuthorization);
    spec.it := spec.it.(binaryAuthorization := v);
    v := TakeOver(spec.it.legacyAbac, o.legacyAbac);
    spec.it := spec.it.(legacyAbac := v);
    if o.notification.Some? && o.notification.value.pubsub.Some? && spec.it.notification.None? {
      spec.it := spec.it.(notification := o.notification.value.pubsub);
    }
    var name := TakeOver(spec.it.releaseChannel, o.releaseChannel);
    spec.it := spec.it.(releaseChannel := name);
    v := TakeOver(spec.it.verticalPodAutoscaling, o.verticalPodAutoscaling);
    spec.it := spec.it.(verticalPodAutoscaling := v);
    name := TakeOver(spec.it.workloadPool, o.workloadPool);
    spec.it := spec.it.(workloadPool := name);
  }

  /** Fills unset parts of the spec from the observation, or dereferences nil. */
  method LateInitializeSpec(spec: Pointer<Params>, o: Cluster) returns (panicked: bool)
    modifies spec
    ensures panicked <==> LateInitializePanics(old(spec.it), o)
    ensures !panicked ==> spec.it == LateParams(old(spec.it), o)
  {
    panicked := LateInitializeAutoscaling(spec, o.autoscaling);
    if panicked {
      return;
    }
    spec.it := spec.it.(locations := LateInitializeStringSlice(spec.it.locations, o.locations));
    spec.it := spec.it.(loggingService := LateInitializeString(spec.it.loggingService, o.loggingService));
    panicked := LateInitializeMaintenance(spec, o.maintenance);
    if panicked {
      return;
    }
    panicked := LateInitializeNetworks(spec, o.authorizedNetworks);
    if panicked {
      return;
    }
    spec.it := spec.it.(monitoringService := LateInitializeString(spec.it.monitoringService, o.monitoringService));
    LateInitializeParts(spec, o);
    LateInitializeWholes(spec, o);
    spec.it := spec.it.(resourceLabels := LateInitializeStringMap(spec.it.resourceLabels, o.resourceLabels));
  }

  // ---- IsUpToDate ----

  method CheckForBootstrapNodePool(c: Cluster) returns (found: bool)
    ensures found <==> HasBootstrapPool(c)
    ensures found <==> Some("crossplane-bootstrap") in c.nodePools
  {
    for i := 0 to |c.nodePools|
      invariant Some(BOOTSTRAP_NODE_POOL_NAME) !in c.nodePools[..i]
    {
      var pool := c.nodePools[i];
      if pool.None? || pool.value != BOOTSTRAP_NODE_POOL_NAME {
        continue;
      }
      return true;
    }
    return false;
  }

  /** Comparison number Rank(f) of IsUpToDate, on the desired and the observed cluster. */
  predicate SameField(f: Field, d: Cluster, o: Cluster) {
    match f
    case AddonsField => d.addons == o.addons
    case AutopilotField => d.autopilot == o.autopilot
    case AutoscalingField => d.autoscaling == o.autoscaling
    case BinaryAuthorizationField => d.binaryAuthorization == o.binaryAuthorization
    case DatabaseEncryptionField => d.databaseEncryption == o.databaseEncryption
    case LegacyAbacField => d.legacyAbac == o.legacyAbac
    case LocationsField => d.locations == o.locations
    case LoggingField => d.loggingService == o.loggingService
    case MaintenanceField => SameMaintenance(d.maintenance, o.maintenance)
    case AuthorizedNetworksField => d.authorizedNetworks == o.authorizedNetworks
    case MonitoringField => d.monitoringService == o.monitoringService
    case IntraNodeField =>
      d.networkConfig.Some? ==>
        d.networkConfig.value.intraNodeVisibility == OrZero(o.networkConfig, NO_NETWORK_CONFIG).intraNodeVisibility
    case DatapathField =>
      d.networkConfig.Some? ==>
        d.networkConfig.value.datapathProvider == OrZero(o.networkConfig, NO_NETWORK_CONFIG).datapathProvider
    case NetworkPolicyField => d.networkPolicy == o.networkPolicy
    case NotificationField => d.notification == o.notification
    case PrivateClusterField => d.privateCluster == o.privateCluster
    case ReleaseChannelField => d.releaseChannel == o.releaseChannel
    case ResourceLabelsField => d.resourceLabels == o.resourceLabels
    case UsageExportField => d.usageExport == o.usageExport
    case VerticalPodAutoscalingField => d.verticalPodAutoscaling == o.verticalPodAutoscaling
    case WorkloadIdentityField => d.workloadPool == o.workloadPool
  }

  lemma ComparisonFindsDrift(f: Field, p: Params, c: Cluster)
    ensures !SameField(f, OverlayCluster(p, c), c) <==> Differs(f, p, c)
  {
    if Rank(f) < 9 {
      EarlyComparisonFindsDrift(f, p, c);
    } else {
      LateComparisonFindsDrift(f, p, c);
    }
  }

  lemma EarlyComparisonFindsDrift(f: Field, p: Params, c: Cluster)
    requires Rank(f) < 9
    ensures !SameField(f, OverlayCluster(p, c), c) <==> Differs(f, p, c)
  {
  }

  lemma LateComparisonFindsDrift(f: Field, p: Params, c: Cluster)
    requires Rank(f) >= 9
    ensures !SameField(f, OverlayCluster(p, c), c) <==> Differs(f, p, c)
  {
  }

  /** The comparisons from number `lo` up to but not including number `hi` pass. */
  ghost predicate Pass(lo: nat, hi: nat, d: Cluster, o: Cluster) {
    forall g: Field | lo <= Rank(g) < hi :: SameField(g, d, o)
  }

  /** What making those comparisons one after the other finds. */
  ghost predicate Finds(r: Option<Field>, lo: nat, hi: nat, d: Cluster, o: Cluster) {
    && (r.None? ==> Pass(lo, hi, d, o))
    && (r.Some? ==> lo <= Rank(r.value) < hi && !SameField(r.value, d, o) && Pass(lo, Rank(r.value), d, o))
  }

  /** The comparisons before the network config. */
  method FirstFailingEarly(d: Cluster, o: Cluster) returns (r: Option<Field>)
    ensures Finds(r, 0, 11, d, o)
  {
    if d.addons != o.addons {
      return Some(AddonsField);
    }
    if d.autopilot != o.autopilot {
      return Some(AutopilotField);
    }
    if d.autoscaling != o.autoscaling {
      return Some(AutoscalingField);
    }
    if d.binaryAuthorization != o.binaryAuthorization {
      return Some(BinaryAuthorizationField);
    }
    if d.databaseEncryption != o.databaseEncryption {
      return Some(DatabaseEncryptionField);
    }
    if d.legacyAbac != o.legacyAbac {
      return Some(LegacyAbacField);
    }
    if d.locations != o.locations {
      return Some(LocationsField);
    }
    if d.loggingService != o.loggingService {
      return Some(LoggingField);
    }
    if !SameMaintenance(d.maintenance, o.maintenance) {
      return Some(MaintenanceField);
    }
    if d.authorizedNetworks != o.authorizedNetworks {
      return Some(AuthorizedNetworksField);
    }
    if d.monitoringService != o.monitoringService {
      return Some(MonitoringField);
    }
    return None;
  }

  /** What the comparison of the network config may leave in the observation: an empty
      config where there was none. */
  function Filled(c: Cluster, compared: bool): Cluster {
    if compared && c.networkConfig.None? then c.(networkConfig := Some(NO_NETWORK_CONFIG)) else c
  }

  /** The only comparison that writes: a missing observed network config becomes an
      empty one. */
  method FirstFailingNetwork(d: Cluster, observed: Pointer<Cluster>) returns (r: Option<Field>)
    modifies observed
    ensures Finds(r, 11, 13, d, old(observed.it))
    ensures observed.it == Filled(old(observed.it), d.networkConfig.Some?)
  {
    if d.networkConfig.Some? {
      if observed.it.networkConfig.None? {
        observed.it := observed.it.(networkConfig := Some(NO_NETWORK_CONFIG));
      }
      if d.networkConfig.value.intraNodeVisibility != observed.it.networkConfig.value.intraNodeVisibility {
        return Some(IntraNodeField);
      }
      if d.networkConfig.value.datapathProvider != observed.it.networkConfig.value.datapathProvider {
        return Some(DatapathField);
      }
    }
    return None;
  }

  /** The comparisons after the network config. */
  method FirstFailingLate(d: Cluster, o: Cluster) returns (r: Option<Field>)
    ensures Finds(r, 13, 21, d, o)
  {
    if d.networkPolicy != o.networkPolicy {
      return Some(NetworkPolicyField);
    }
    if d.notification != o.notification {
      return Some(NotificationField);
    }
    if d.privateCluster != o.privateCluster {
      return Some(PrivateClusterField);
    }
    if d.releaseChannel != o.releaseChannel {
      return Some(ReleaseChannelField);
    }
    if d.resourceLabels != o.resourceLabels {
      return Some(ResourceLabelsField);
    }
    if d.usageExport != o.usageExport {
      return Some(UsageExportField);
    }
    if d.verticalPodAutoscaling != o.verticalPodAutoscaling {
      return Some(VerticalPodAutoscalingField);
    }
    if d.workloadPool != o.workloadPool {
      return Some(WorkloadIdentityField);
    }
    return None;
  }

  lemma FindsOnward(r: Option<Field>, mid: nat, hi: nat, d: Cluster, o: Cluster)
    requires Pass(0, mid, d, o) && mid <= hi && Finds(r, mid, hi, d, o)
    ensures Finds(r, 0, hi, d, o)
  {
  }

  /** The comparisons from number 13 on do not look at the network config. */
  lemma LateIgnoresNetwork(r: Option<Field>, d: Cluster, o: Cluster, c: Cluster)
    requires o == c.(networkConfig := o.networkConfig) && Finds(r, 13, 21, d, o)
    ensures Finds(r, 13, 21, d, c)
  {
  }

  /** All comparisons, in order, until one fails. */
  method FirstFailing(d: Cluster, observed: Pointer<Cluster>) returns (r: Option<Field>)
    modifies observed
    ensures Finds(r, 0, 21, d, old(observed.it))
    ensures observed.it == Filled(old(observed.it), d.networkConfig.Some? && (r.None? || Rank(r.value) >= 11))
  {
    ghost var c := observed.it;
    r := FirstFailingEarly(d, observed.it);
    if r.Some? {
      return;
    }
    r := FirstFailingNetwork(d, observed);
    FindsOnward(r, 11, 13, d, c);
    if r.Some? {
      return;
    }
    r := FirstFailingLate(d, observed.it);
    LateIgnoresNetwork(r, d, observed.it, c);
    FindsOnward(r, 13, 21, d, c);
  }

  /** Reports whether the cluster is up to date and otherwise the one update to
      issue: the bootstrap pool first, then the first setting that differs, whose
      closure never dereferences nil. */
  method IsUpToDate(p: Params, observed: Pointer<Cluster>) returns (upToDate: bool, update: Option<Update>)
    modifies observed
    ensures upToDate <==> update.None?
    ensures upToDate <==>
            !HasBootstrapPool(old(observed.it)) && forall f: Field :: !Differs(f, p, old(observed.it))
    ensures update == Some(DeleteBootstrapPool) <==> HasBootstrapPool(old(observed.it))
    ensures update.Some? && update.value.SetField? ==>
              && FirstDifference(update.value.field, p, old(observed.it))
              && RequestFor(update.value.field, SettingOf(update.value.field, p, old(observed.it))).Returns?
    ensures observed.it ==
            Filled(old(observed.it),
                   && (p.networkConfig.Some? || old(observed.it).networkConfig.Some?)
                   && (update.Some? ==> update.value.SetField? && Rank(update.value.field) >= 11))
  {
    ghost var c := observed.it;
    var desired := new Pointer(observed.it);
    GenerateCluster(p, desired);
    var bootstrap := CheckForBootstrapNodePool(observed.it);
    if bootstrap {
      return false, Some(DeleteBootstrapPool);
    }
    var r := FirstFailing(desired.it, observed);
    forall g: Field
      ensures !SameField(g, OverlayCluster(p, c), c) <==> Differs(g, p, c)
    {
      ComparisonFindsDrift(g, p, c);
    }
    if r.Some? {
      DriftIsRequestable(r.value, SettingOf(r.value, p, c));
      return false, Some(SetField(r.value));
    }
    return true, None;
  }
}
