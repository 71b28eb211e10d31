/** What a generated cluster holds, on create and on update, and what adopting an
    existing one takes into the spec (pkg/clients/cluster/cluster.go:67-511 and 648-954;
    pkg/controller/container/cluster.go:140-171). */
module ClusterCreation {
  import opened Gcp
  import opened ClusterTypes
  import opened ClusterSettings
  import opened ClusterDrift
  import opened ClusterReconcile
  import opened ClusterWishes

  const EMPTY_CLUSTER := Cluster(None, None, None, None, None, None, [], "", None, None, None, "", None, None,
                                 None, None, None, map[], None, None, None, [])

  // ---- what is generated is what the user set ----

  lemma AutoscalingGenerated(s: Option<AutoscalingSpec>, o: Option<Autoscaling>)
    ensures HeedsAutoscaling(s, OverlayAutoscaling(s, o))
  {
    if s.Some? {
      DefaultsGenerated(s.value.defaults, OrZero(o, NO_AUTOSCALING).defaults);
      LimitsLaws(s.value.limits, GenerateLimits(s.value.limits));
    }
  }

  lemma DefaultsGenerated(s: Option<PoolDefaultsSpec>, o: Option<PoolDefaults>)
    ensures HeedsDefaults(s, OverlayDefaults(s, o))
  {
  }

  lemma MaintenanceGenerated(s: Option<MaintenanceSpec>, o: Option<Maintenance>)
    ensures HeedsMaintenance(s, OverlayMaintenance(s, o))
  {
  }

  lemma NetworksGenerated(s: Option<AuthorizedNetworksSpec>, o: Option<AuthorizedNetworks>)
    ensures HeedsNetworks(s, OverlayNetworks(s, o))
  {
  }

  /** Laid over any cluster, the spec is heeded in every setting. */
  lemma GeneratedHeeds(f: Field, p: Params, c: Cluster)
    ensures Heeds(SettingOf(f, p, OverlayCluster(p, c)))
  {
    match f
    case AutoscalingField => AutoscalingGenerated(p.autoscaling, c.autoscaling);
    case MaintenanceField => MaintenanceGenerated(p.maintenance, c.maintenance);
    case AuthorizedNetworksField => NetworksGenerated(p.authorizedNetworks, c.authorizedNetworks);
    case _ => SimpleGenerated(f, p, c);
  }

  lemma SimpleGenerated(f: Field, p: Params, c: Cluster)
    requires f !in {AutoscalingField, MaintenanceField, AuthorizedNetworksField}
    ensures Heeds(SettingOf(f, p, OverlayCluster(p, c)))
  {
  }

  /** So are the wishes that the comparison cannot see, except that a topic already there
      stays, and that the disk type is never written. */
  lemma GeneratedGrants(w: Wish, p: Params, c: Cluster)
    ensures Granted(w, p, OverlayCluster(p, c)) <==>
            match w
            case TopicWish => TopicOf(c).None? || Granted(TopicWish, p, c)
            case DiskTypeWish => Granted(DiskTypeWish, p, c)
            case _ => true
  {
  }

  /** A created cluster has everything the user set, but for a disk type. */
  lemma CreatedHonours(p: Params)
    ensures Honours(p, OverlayCluster(p, EMPTY_CLUSTER)) <==> DiskTypeIn(p).None? || DiskTypeIn(p).value == ""
  {
    var d := OverlayCluster(p, EMPTY_CLUSTER);
    forall f: Field
      ensures Heeds(SettingOf(f, p, d))
    {
      GeneratedHeeds(f, p, EMPTY_CLUSTER);
    }
    forall w: Wish
      ensures w != DiskTypeWish ==> Granted(w, p, d)
    {
      GeneratedGrants(w, p, EMPTY_CLUSTER);
    }
    GeneratedGrants(DiskTypeWish, p, EMPTY_CLUSTER);
    assert Honours(p, d) <==> Granted(DiskTypeWish, p, d);
  }

  // ---- adopting a cluster takes all of it over ----

  function StripDefaults(d: Option<PoolDefaults>): Option<PoolDefaults> {
    if d.None? then None else Some(d.value.(diskType := ""))
  }

  function StripWindow(w: MaintenanceWindow): MaintenanceWindow {
    w.(daily := if w.daily.None? then None else Some(w.daily.value.(duration := "")))
  }

  /** The cluster without what only the service sets, what is never generated (the disk
      type), what is never taken over (autopilot), and empty shells. */
  function Strip(c: Cluster): Cluster {
    c.(autopilot := None, nodePools := [],
       autoscaling := if c.autoscaling.None? then None
                      else Some(c.autoscaling.value.(defaults := StripDefaults(c.autoscaling.value.defaults))),
       maintenance := if c.maintenance.None? || c.maintenance.value.window.None? then None
                      else Some(Maintenance(Some(StripWindow(c.maintenance.value.window.value)))),
       networkConfig := if c.networkConfig.None? then None
                        else Some(c.networkConfig.value.(network := "", subnetwork := "")),
       notification := if TopicOf(c).None? then None else c.notification,
       privateCluster := if c.privateCluster.None? then None
                         else Some(c.privateCluster.value.(privateEndpoint := "", publicEndpoint := "")))
  }

  /** A cluster can be rebuilt from what adopting it wrote into an empty spec. */
  lemma AdoptionIsComplete(c: Cluster)
    requires !LateInitializePanics(EMPTY_PARAMS, c)
    ensures OverlayCluster(LateParams(EMPTY_PARAMS, c), EMPTY_CLUSTER) == Strip(c)
  {
    var d, e := OverlayCluster(LateParams(EMPTY_PARAMS, c), EMPTY_CLUSTER), Strip(c);
    AutoscalingAdopted(c.autoscaling);
    NetworksAdopted(c.authorizedNetworks);
    ConfigsAdopted(c);
    ScalarsAdopted(c);
    assert d == e;
  }

  lemma ConfigsAdopted(c: Cluster)
    requires !MaintenancePanics(None, c.maintenance)
    ensures OverlayAddons(LateAddons(None, c.addons), None) == c.addons
    ensures OverlayEncryption(LateEncryption(None, c.databaseEncryption), None) == c.databaseEncryption
    ensures OverlayMaintenance(LateMaintenance(None, c.maintenance), None) == Strip(c).maintenance
    ensures OverlayMasterAuth(LateMasterAuth(None, c.masterAuth), None) == c.masterAuth
    ensures OverlayNetworkConfig(LateNetworkConfig(None, c.networkConfig), None) == Strip(c).networkConfig
    ensures OverlayNetworkPolicy(LateNetworkPolicy(None, c.networkPolicy), None) == c.networkPolicy
    ensures OverlayNotification(LateNotification(None, c.notification), None) == Strip(c).notification
    ensures OverlayPrivateCluster(LatePrivateCluster(None, c.privateCluster), None) == Strip(c).privateCluster
    ensures OverlayUsageExport(LateUsageExport(None, c.usageExport), None) == c.usageExport
  {
  }

  lemma ScalarsAdopted(c: Cluster)
    ensures var d := OverlayCluster(LateParams(EMPTY_PARAMS, c), EMPTY_CLUSTER);
            && d.autopilot == None && d.binaryAuthorization == c.binaryAuthorization
            && d.legacyAbac == c.legacyAbac && d.locations == c.locations
            && d.loggingService == c.loggingService && d.monitoringService == c.monitoringService
            && d.releaseChannel == c.releaseChannel && d.resourceLabels == c.resourceLabels
            && d.verticalPodAutoscaling == c.verticalPodAutoscaling && d.workloadPool == c.workloadPool
            && d.nodePools == []
  {
  }

  lemma AutoscalingAdopted(o: Option<Autoscaling>)
    requires !AutoscalingPanics(None, o)
    ensures OverlayAutoscaling(LateAutoscaling(None, o), None) ==
            if o.None? then None else Some(o.value.(defaults := StripDefaults(o.value.defaults)))
  {
    if o.Some? {
      LimitsLaws([], o.value.limits);
    }
  }

  lemma NetworksAdopted(o: Option<AuthorizedNetworks>)
    requires !NetworksPanic(None, o)
    ensures OverlayNetworks(LateNetworks(None, o), None) == o
  {
    if o.Some? {
      BlocksLaws([], o.value.blocks);
    }
  }

  /** Late initialisation of an empty spec dereferences nil exactly when a recurring
      window is observed, or a nil entry in one of two lists. */
  lemma EmptySpecPanicsIff(c: Cluster)
    ensures LateInitializePanics(EMPTY_PARAMS, c) <==>
            || (c.autoscaling.Some? && None in c.autoscaling.value.limits)
            || (c.authorizedNetworks.Some? && None in c.authorizedNetworks.value.blocks)
            || (c.maintenance.Some? && c.maintenance.value.window.Some?
                && c.maintenance.value.window.value.recurring.Some?)
  {
  }

  // ---- what is unset ----

  /** A config that the spec does not have is kept, and so is a list inside one that the
      spec leaves empty. */
  lemma UnsetConfigIsKept(c: Cluster, a: AutoscalingSpec, n: AuthorizedNetworksSpec)
    requires a.limits == [] && n.blocks == []
    ensures OverlayCluster(EMPTY_PARAMS, c) == c.(locations := [], loggingService := "", monitoringService := "",
                                                  resourceLabels := map[])
    ensures OverlayAutoscaling(Some(a), c.autoscaling).value.limits == OrZero(c.autoscaling, NO_AUTOSCALING).limits
    ensures OverlayNetworks(Some(n), c.authorizedNetworks).value.blocks ==
            OrZero(c.authorizedNetworks, NO_NETWORKS).blocks
  {
  }

  /** In a config that the spec does have, an unset value is cleared. */
  lemma UnsetIsCleared(e: EncryptionSpec, oe: Option<Encryption>, np: NetworkPolicySpec, onp: Option<NetworkPolicy>,
                       a: AutoscalingSpec, oa: Option<Autoscaling>, n: AuthorizedNetworksSpec,
                       on: Option<AuthorizedNetworks>)
    ensures OverlayEncryption(Some(e), oe) == OverlayEncryption(Some(e), None)
    ensures OverlayNetworkPolicy(Some(np), onp) == OverlayNetworkPolicy(Some(np), None)
    ensures OverlayAutoscaling(Some(a), oa).value.locations == a.locations
    ensures OverlayAutoscaling(Some(a), oa).value.enabled <==> a.enabled == Some(true)
    ensures OverlayNetworks(Some(n), on).value.enabled <==> n.enabled == Some(true)
  {
  }

  lemma UnsetIsClearedToo(v: PrivateClusterSpec, ov: Option<PrivateCluster>, c: NetworkConfigSpec,
                          oc: Option<NetworkConfig>, u: UsageExportSpec, ou: Option<UsageExport>,
                          m: MasterAuthSpec, om: Option<MasterAuth>)
    ensures var d, z := OverlayPrivateCluster(Some(v), ov).value, OverlayPrivateCluster(Some(v), None).value;
            && d.privateEndpointEnabled == z.privateEndpointEnabled && d.privateNodes == z.privateNodes
            && d.masterCidr == z.masterCidr
    ensures var d, z := OverlayNetworkConfig(Some(c), oc).value, OverlayNetworkConfig(Some(c), None).value;
            && d.datapathProvider == z.datapathProvider && d.privateIpv6 == z.privateIpv6
            && d.intraNodeVisibility == z.intraNodeVisibility
    ensures OverlayUsageExport(Some(u), ou).value.egress <==> u.egress == Some(true)
    ensures OverlayMasterAuth(Some(m), om).value.username == if m.username.Some? then m.username.value else ""
  {
  }
}
