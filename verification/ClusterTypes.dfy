/** The GKE cluster as the API reports it and as the user specifies it, limited
    to the settings that cluster.IsUpToDate compares, the master credentials and
    the node pools. A pointer to a struct with one modelled field is an Option of
    that field; a slice or map that the code only asks for its length is a plain
    seq or map. ForceSendFields is left out: every comparison ignores it. */
module ClusterTypes {
  import opened Gcp

  datatype TimeWindow = TimeWindow(startTime: string, endTime: string)
  datatype PubSub = PubSub(enabled: bool, topic: string)

  // ---- container/v1: what the API reports ----

  datatype CloudRun = CloudRun(disabled: bool, loadBalancerType: string)
  datatype Addons = Addons(
    cloudRun: Option<CloudRun>, configConnector: Option<bool>, dnsCache: Option<bool>,
    persistentDiskCsi: Option<bool>, horizontalPodAutoscaling: Option<bool>,
    httpLoadBalancing: Option<bool>, dashboard: Option<bool>, networkPolicy: Option<bool>)

  datatype NodeManagement = NodeManagement(autoRepair: bool, autoUpgrade: bool)
  datatype ShieldedInstance = ShieldedInstance(integrityMonitoring: bool, secureBoot: bool)
  datatype UpgradeSettings = UpgradeSettings(maxSurge: int, maxUnavailable: int)
  datatype PoolDefaults = PoolDefaults(
    bootDiskKmsKey: string, diskSizeGb: int, diskType: string, minCpuPlatform: string,
    oauthScopes: seq<string>, serviceAccount: string, management: Option<NodeManagement>,
    shielded: Option<ShieldedInstance>, upgrade: Option<UpgradeSettings>)
  datatype ResourceLimit = ResourceLimit(maximum: int, minimum: int, resourceType: string)
  datatype Autoscaling = Autoscaling(
    locations: seq<string>, enabled: bool, defaults: Option<PoolDefaults>,
    limits: seq<Option<ResourceLimit>>)

  datatype Encryption = Encryption(keyName: string, state: string)

  datatype DailyWindow = DailyWindow(startTime: string, duration: string)
  datatype RecurringWindow = RecurringWindow(recurrence: string, window: Option<TimeWindow>)
  datatype MaintenanceWindow = MaintenanceWindow(
    daily: Option<DailyWindow>, exclusions: Option<map<string, TimeWindow>>,
    recurring: Option<RecurringWindow>)
  datatype Maintenance = Maintenance(window: Option<MaintenanceWindow>)

  datatype MasterAuth = MasterAuth(username: string, issueClientCertificate: Option<bool>)
  datatype CidrBlock = CidrBlock(cidrBlock: string, displayName: string)
  datatype AuthorizedNetworks = AuthorizedNetworks(enabled: bool, blocks: seq<Option<CidrBlock>>)
  datatype NetworkConfig = NetworkConfig(
    network: string, subnetwork: string, datapathProvider: string, defaultSnatDisabled: Option<bool>,
    intraNodeVisibility: bool, privateIpv6: string)
  datatype NetworkPolicy = NetworkPolicy(enabled: bool, provider: string)
  datatype Notification = Notification(pubsub: Option<PubSub>)
  datatype PrivateCluster = PrivateCluster(
    privateEndpointEnabled: bool, privateNodes: bool, masterCidr: string,
    masterGlobalAccess: Option<bool>, privateEndpoint: string, publicEndpoint: string)
  datatype UsageExport = UsageExport(dataset: Option<string>, consumption: Option<bool>, egress: bool)

  datatype Cluster = Cluster(
    addons: Option<Addons>, autopilot: Option<bool>, autoscaling: Option<Autoscaling>,
    binaryAuthorization: Option<bool>, databaseEncryption: Option<Encryption>,
    legacyAbac: Option<bool>, locations: seq<string>, loggingService: string,
    maintenance: Option<Maintenance>, masterAuth: Option<MasterAuth>,
    authorizedNetworks: Option<AuthorizedNetworks>, monitoringService: string,
    networkConfig: Option<NetworkConfig>, networkPolicy: Option<NetworkPolicy>,
    notification: Option<Notification>, privateCluster: Option<PrivateCluster>,
    releaseChannel: Option<string>, resourceLabels: map<string, string>,
    usageExport: Option<UsageExport>, verticalPodAutoscaling: Option<bool>,
    workloadPool: Option<string>, nodePools: seq<Option<string>>)

  // ---- v1beta2.ClusterParameters: what the user specifies ----

  datatype CloudRunSpec = CloudRunSpec(disabled: bool, loadBalancerType: Option<string>)
  datatype AddonsSpec = AddonsSpec(
    cloudRun: Option<CloudRunSpec>, configConnector: Option<bool>, dnsCache: Option<bool>,
    persistentDiskCsi: Option<bool>, horizontalPodAutoscaling: Option<bool>,
    httpLoadBalancing: Option<bool>, dashboard: Option<bool>, networkPolicy: Option<bool>)

  datatype NodeManagementSpec = NodeManagementSpec(autoRepair: Option<bool>, autoUpgrade: Option<bool>)
  datatype ShieldedInstanceSpec = ShieldedInstanceSpec(integrityMonitoring: Option<bool>, secureBoot: Option<bool>)
  datatype UpgradeSettingsSpec = UpgradeSettingsSpec(maxSurge: Option<int>, maxUnavailable: Option<int>)
  datatype PoolDefaultsSpec = PoolDefaultsSpec(
    bootDiskKmsKey: Option<string>, diskSizeGb: Option<int>, diskType: Option<string>,
    minCpuPlatform: Option<string>, oauthScopes: seq<string>, serviceAccount: Option<string>,
    management: Option<NodeManagementSpec>, shielded: Option<ShieldedInstanceSpec>,
    upgrade: Option<UpgradeSettingsSpec>)
  datatype ResourceLimitSpec = ResourceLimitSpec(
    maximum: Option<int>, minimum: Option<int>, resourceType: Option<string>)
  datatype AutoscalingSpec = AutoscalingSpec(
    locations: seq<string>, enabled: Option<bool>, defaults: Option<PoolDefaultsSpec>,
    limits: seq<Option<ResourceLimitSpec>>)

  datatype EncryptionSpec = EncryptionSpec(keyName: Option<string>, state: Option<string>)
  datatype RecurringWindowSpec = RecurringWindowSpec(recurrence: Option<string>, window: Option<TimeWindow>)
  datatype MaintenanceSpec = MaintenanceSpec(
    daily: Option<string>, exclusions: Option<map<string, TimeWindow>>,
    recurring: Option<RecurringWindowSpec>)
  datatype MasterAuthSpec = MasterAuthSpec(username: Option<string>, issueClientCertificate: Option<bool>)
  datatype CidrBlockSpec = CidrBlockSpec(cidrBlock: string, displayName: Option<string>)
  datatype AuthorizedNetworksSpec = AuthorizedNetworksSpec(
    enabled: Option<bool>, blocks: seq<Option<CidrBlockSpec>>)
  datatype NetworkConfigSpec = NetworkConfigSpec(
    datapathProvider: Option<string>, defaultSnatDisabled: Option<bool>,
    intraNodeVisibility: Option<bool>, privateIpv6: Option<string>)
  datatype NetworkPolicySpec = NetworkPolicySpec(enabled: Option<bool>, provider: Option<string>)
  datatype PrivateClusterSpec = PrivateClusterSpec(
    privateEndpointEnabled: Option<bool>, privateNodes: Option<bool>, masterCidr: Option<string>,
    masterGlobalAccess: Option<bool>)
  datatype UsageExportSpec = UsageExportSpec(
    dataset: Option<string>, consumption: Option<bool>, egress: Option<bool>)

  datatype Params = Params(
    addons: Option<AddonsSpec>, autopilot: Option<bool>, autoscaling: Option<AutoscalingSpec>,
    binaryAuthorization: Option<bool>, databaseEncryption: Option<EncryptionSpec>,
    legacyAbac: Option<bool>, locations: seq<string>, loggingService: Option<string>,
    maintenance: Option<MaintenanceSpec>, masterAuth: Option<MasterAuthSpec>,
    authorizedNetworks: Option<AuthorizedNetworksSpec>, monitoringService: Option<string>,
    networkConfig: Option<NetworkConfigSpec>, networkPolicy: Option<NetworkPolicySpec>,
    notification: Option<PubSub>, privateCluster: Option<PrivateClusterSpec>,
    releaseChannel: Option<string>, resourceLabels: map<string, string>,
    usageExport: Option<UsageExportSpec>, verticalPodAutoscaling: Option<bool>,
    workloadPool: Option<string>)

  // ---- Go zero values, as in &container.AddonsConfig{} ----

  const NO_ADDONS := Addons(None, None, None, None, None, None, None, None)
  const NO_DEFAULTS := PoolDefaults("", 0, "", "", [], "", None, None, None)
  const NO_AUTOSCALING := Autoscaling([], false, None, [])
  const NO_WINDOW := MaintenanceWindow(None, None, None)
  const NO_RECURRING := RecurringWindow("", None)
  const NO_NETWORKS := AuthorizedNetworks(false, [])
  const NO_NETWORK_CONFIG := NetworkConfig("", "", "", None, false, "")
  const NO_PRIVATE_CLUSTER := PrivateCluster(false, false, "", None, "", "")
  const NO_USAGE_EXPORT := UsageExport(None, None, false)

  const NO_ADDONS_SPEC := AddonsSpec(None, None, None, None, None, None, None, None)
  const NO_DEFAULTS_SPEC := PoolDefaultsSpec(None, None, None, None, [], None, None, None, None)
  const NO_AUTOSCALING_SPEC := AutoscalingSpec([], None, None, [])
  const NO_NETWORKS_SPEC := AuthorizedNetworksSpec(None, [])
  const NO_NETWORK_CONFIG_SPEC := NetworkConfigSpec(None, None, None, None)
  const NO_PRIVATE_CLUSTER_SPEC := PrivateClusterSpec(None, None, None, None)
  const NO_USAGE_EXPORT_SPEC := UsageExportSpec(None, None, None)
}
