/** Cloud SQL instances (pkg/clients/cloudsql/cloudsql.go): the instance as the API
    reports it and as the user specifies it, and setting by setting what
    GenerateDatabaseInstance writes (Overlay) and what LateInitializeSpec writes (Late).
    Fields the API alone sets are one `state`, one `settingsVersion` and one field per
    nested struct. */
module CloudSqlSettings {
  import opened Gcp

  // ---- what the API reports ----

  datatype Encryption = Encryption(kmsKeyName: string, kind: string)
  datatype Failover = Failover(name: string, available: bool)
  datatype OnPremises = OnPremises(hostPort: string, kind: string)
  datatype Backup = Backup(
    binaryLog: bool, enabled: bool, location: string, logArchiving: bool, startTime: string,
    pointInTime: bool, kind: string)
  datatype Acl = Acl(expiration: string, name: string, value: string, kind: string)
  datatype Ip = Ip(ipv4: bool, network: string, ssl: bool, authorized: seq<Acl>)
  datatype Location = Location(followApp: string, zone: string, kind: string)
  datatype Window = Window(day: int, hour: int, track: string, kind: string)
  datatype Flag = Flag(name: string, value: string)
  datatype Settings = Settings(
    activation: string, apps: seq<string>, availability: string, crashSafe: bool, diskSize: int,
    diskType: string, replication: bool, pricing: string, replicationType: string,
    autoResize: Option<bool>, resizeLimit: int, tier: string, labels: map<string, string>,
    backup: Option<Backup>, ip: Option<Ip>, location: Option<Location>, window: Option<Window>,
    flags: seq<Flag>, settingsVersion: int)
  datatype Instance = Instance(
    version: string, zone: string, instanceType: string, master: string, maxDisk: int, name: string,
    region: string, replicas: seq<string>, suspension: seq<string>, encryption: Option<Encryption>,
    failover: Option<Failover>, onPremises: Option<OnPremises>, settings: Option<Settings>, state: string)

  const NO_BACKUP := Backup(false, false, "", false, "", false, "")
  const NO_IP := Ip(false, "", false, [])
  const NO_LOCATION := Location("", "", "")
  const NO_WINDOW := Window(0, 0, "", "")
  const NO_SETTINGS :=
    Settings("", [], "", false, 0, "", false, "", "", None, 0, "", map[], None, None, None, None, [], 0)
  const NO_INSTANCE := Instance("", "", "", "", 0, "", "", [], [], None, None, None, None, "")

  // ---- what the user specifies ----

  datatype BackupSpec = BackupSpec(
    binaryLog: Option<bool>, enabled: Option<bool>, location: Option<string>, logArchiving: Option<bool>,
    startTime: Option<string>, pointInTime: Option<bool>)
  datatype AclSpec = AclSpec(expiration: Option<string>, name: Option<string>, value: Option<string>)
  datatype IpSpec = IpSpec(
    ipv4: Option<bool>, network: Option<string>, ssl: Option<bool>, authorized: seq<AclSpec>)
  datatype LocationSpec = LocationSpec(followApp: Option<string>, zone: Option<string>)
  datatype WindowSpec = WindowSpec(day: Option<int>, hour: Option<int>, track: Option<string>)
  datatype SettingsSpec = SettingsSpec(
    activation: Option<string>, apps: seq<string>, availability: Option<string>, crashSafe: Option<bool>,
    diskSize: Option<int>, diskType: Option<string>, replication: Option<bool>, pricing: Option<string>,
    replicationType: Option<string>, autoResize: Option<bool>, resizeLimit: Option<int>, tier: string,
    labels: map<string, string>, backup: Option<BackupSpec>, ip: Option<IpSpec>,
    location: Option<LocationSpec>, window: Option<WindowSpec>, flags: seq<Flag>)
  datatype Spec = Spec(
    version: Option<string>, zone: Option<string>, instanceType: Option<string>, master: Option<string>,
    maxDisk: Option<int>, region: string, replicas: seq<string>, suspension: seq<string>,
    encryption: Option<string>, failover: Option<string>, onPremises: Option<string>,
    settings: SettingsSpec)

  const NO_BACKUP_SPEC := BackupSpec(None, None, None, None, None, None)
  const NO_IP_SPEC := IpSpec(None, None, None, [])
  const NO_LOCATION_SPEC := LocationSpec(None, None)
  const NO_WINDOW_SPEC := WindowSpec(None, None, None)

  // ---- nested structs ----

  function OverlayEncryption(s: Option<string>, o: Option<Encryption>): Option<Encryption> {
    if s.None? then o else Some(OrZero(o, Encryption("", "")).(kmsKeyName := s.value))
  }

  function LateEncryption(s: Option<string>, o: Option<Encryption>): Option<string> {
    if o.None? then s
    else if s.None? || s.value == "" then Some(o.value.kmsKeyName) else s
  }

  function OverlayFailover(s: Option<string>, o: Option<Failover>): Option<Failover> {
    if s.None? then o else Some(OrZero(o, Failover("", false)).(name := s.value))
  }

  function LateFailover(s: Option<string>, o: Option<Failover>): Option<string> {
    if o.Some? && s.None? then Some(o.value.name) else s
  }

  function OverlayOnPremises(s: Option<string>, o: Option<OnPremises>): Option<OnPremises> {
    if s.None? then o else Some(OrZero(o, OnPremises("", "")).(hostPort := s.value))
  }

  function LateOnPremises(s: Option<string>, o: Option<OnPremises>): Option<string> {
    if o.Some? && s.None? then Some(o.value.hostPort) else s
  }

  function OverlayBackup(s: Option<BackupSpec>, o: Option<Backup>): Option<Backup> {
    if s.None? then o else
      Some(Backup(BoolValue(s.value.binaryLog), BoolValue(s.value.enabled), StringValue(s.value.location),
                  BoolValue(s.value.logArchiving), StringValue(s.value.startTime),
                  BoolValue(s.value.pointInTime), OrZero(o, NO_BACKUP).kind))
  }

  function LateBackup(s: Option<BackupSpec>, o: Option<Backup>): Option<BackupSpec> {
    if o.None? then s else
      var c, b := OrZero(s, NO_BACKUP_SPEC), o.value;
      Some(BackupSpec(LateInitializeBool(c.binaryLog, b.binaryLog), LateInitializeBool(c.enabled, b.enabled),
                      LateInitializeString(c.location, b.location),
                      LateInitializeBool(c.logArchiving, b.logArchiving),
                      LateInitializeString(c.startTime, b.startTime),
                      LateInitializeBool(c.pointInTime, b.pointInTime)))
  }

  const ACL_KIND := "sql#aclEntry"

  function GenerateAcl(s: seq<AclSpec>): (r: seq<Acl>)
    ensures |r| == |s|
  {
    seq(|s|, i requires 0 <= i < |s| =>
      Acl(StringValue(s[i].expiration), StringValue(s[i].name), StringValue(s[i].value), ACL_KIND))
  }

  function AdoptAcl(o: seq<Acl>): (r: seq<AclSpec>)
    ensures |r| == |o|
  {
    seq(|o|, i requires 0 <= i < |o| => AclSpec(Some(o[i].expiration), Some(o[i].name), Some(o[i].value)))
  }

  function OverlayIp(s: Option<IpSpec>, o: Option<Ip>): Option<Ip> {
    if s.None? then o else
      Some(Ip(BoolValue(s.value.ipv4), StringValue(s.value.network), BoolValue(s.value.ssl),
              if s.value.authorized == [] then OrZero(o, NO_IP).authorized
              else GenerateAcl(s.value.authorized)))
  }

  function LateIp(s: Option<IpSpec>, o: Option<Ip>): Option<IpSpec> {
    if o.None? then s else
      var c, b := OrZero(s, NO_IP_SPEC), o.value;
      Some(IpSpec(LateInitializeBool(c.ipv4, b.ipv4), LateInitializeString(c.network, b.network),
                  LateInitializeBool(c.ssl, b.ssl),
                  if b.authorized != [] && c.authorized == [] then AdoptAcl(b.authorized) else c.authorized))
  }

  function OverlayLocation(s: Option<LocationSpec>, o: Option<Location>): Option<Location> {
    if s.None? then o else
      Some(Location(StringValue(s.value.followApp), StringValue(s.value.zone), OrZero(o, NO_LOCATION).kind))
  }

  function LateLocation(s: Option<LocationSpec>, o: Option<Location>): Option<LocationSpec> {
    if o.None? then s else
      var c, b := OrZero(s, NO_LOCATION_SPEC), o.value;
      Some(LocationSpec(LateInitializeString(c.followApp, b.followApp), LateInitializeString(c.zone, b.zone)))
  }

  function OverlayWindow(s: Option<WindowSpec>, o: Option<Window>): Option<Window> {
    if s.None? then o else
      Some(Window(Int64Value(s.value.day), Int64Value(s.value.hour), StringValue(s.value.track),
                  OrZero(o, NO_WINDOW).kind))
  }

  function LateWindow(s: Option<WindowSpec>, o: Option<Window>): Option<WindowSpec> {
    if o.None? then s else
      var c, b := OrZero(s, NO_WINDOW_SPEC), o.value;
      Some(WindowSpec(LateInitializeInt64(c.day, b.day), LateInitializeInt64(c.hour, b.hour),
                      LateInitializeString(c.track, b.track)))
  }

  function OverlayFlags(s: seq<Flag>, o: seq<Flag>): seq<Flag> {
    if s == [] then o else s
  }

  function LateFlags(s: seq<Flag>, o: seq<Flag>): seq<Flag> {
    if s == [] then o else s
  }

  // ---- the disk ----

  /** Whether storage auto-resize is on once the spec has been late-initialised. */
  predicate Resizes(s: Option<bool>, o: Option<bool>) {
    BoolValue(Prefer(s, o))
  }

  /** With auto-resize on, a spec below the observed size is raised to it. */
  function LateDisk(s: Option<int>, o: int, resizes: bool): Option<int> {
    var d := LateInitializeInt64(s, o);
    if resizes && Int64Value(d) < o then Some(o) else d
  }

  // ---- the whole instance ----

  function LateRequired(s: string, o: string): string {
    if s == "" then o else s
  }

  function OverlaySettings(s: SettingsSpec, o: Settings): Settings {
    Settings(
      StringValue(s.activation), s.apps, StringValue(s.availability), BoolValue(s.crashSafe),
      Int64Value(s.diskSize), StringValue(s.diskType), BoolValue(s.replication), StringValue(s.pricing),
      StringValue(s.replicationType), s.autoResize, Int64Value(s.resizeLimit), s.tier, s.labels,
      OverlayBackup(s.backup, o.backup), OverlayIp(s.ip, o.ip), OverlayLocation(s.location, o.location),
      OverlayWindow(s.window, o.window), OverlayFlags(s.flags, o.flags), o.settingsVersion)
  }

  function Overlay(name: string, s: Spec, o: Instance): Instance {
    Instance(
      StringValue(s.version), StringValue(s.zone), StringValue(s.instanceType), StringValue(s.master),
      Int64Value(s.maxDisk), name, s.region, s.replicas, s.suspension,
      OverlayEncryption(s.encryption, o.encryption), OverlayFailover(s.failover, o.failover),
      OverlayOnPremises(s.onPremises, o.onPremises),
      Some(OverlaySettings(s.settings, OrZero(o.settings, NO_SETTINGS))), o.state)
  }

  function LateSettings(s: SettingsSpec, o: Settings): SettingsSpec {
    SettingsSpec(
      LateInitializeString(s.activation, o.activation), LateInitializeStringSlice(s.apps, o.apps),
      LateInitializeString(s.availability, o.availability), LateInitializeBool(s.crashSafe, o.crashSafe),
      LateDisk(s.diskSize, o.diskSize, Resizes(s.autoResize, o.autoResize)),
      LateInitializeString(s.diskType, o.diskType), LateInitializeBool(s.replication, o.replication),
      LateInitializeString(s.pricing, o.pricing), LateInitializeString(s.replicationType, o.replicationType),
      Prefer(s.autoResize, o.autoResize), LateInitializeInt64(s.resizeLimit, o.resizeLimit),
      LateRequired(s.tier, o.tier), LateInitializeStringMap(s.labels, o.labels),
      LateBackup(s.backup, o.backup), LateIp(s.ip, o.ip), LateLocation(s.location, o.location),
      LateWindow(s.window, o.window), LateFlags(s.flags, o.flags))
  }

  function LateSpec(s: Spec, o: Instance): Spec {
    Spec(
      LateInitializeString(s.version, o.version), LateInitializeString(s.zone, o.zone),
      LateInitializeString(s.instanceType, o.instanceType), LateInitializeString(s.master, o.master),
      LateInitializeInt64(s.maxDisk, o.maxDisk), LateRequired(s.region, o.region),
      LateInitializeStringSlice(s.replicas, o.replicas), LateInitializeStringSlice(s.suspension, o.suspension),
      LateEncryption(s.encryption, o.encryption), LateFailover(s.failover, o.failover),
      LateOnPremises(s.onPremises, o.onPremises),
      if o.settings.None? then s.settings else LateSettings(s.settings, o.settings.value))
  }
}
