/** The imperative side of pkg/clients/cloudsql/cloudsql.go, proved against the
    functions of CloudSqlSettings. Nested structs are values, as in ClusterClient. */
module CloudSqlClient {
  import opened Gcp
  import opened CloudSqlSettings
  import opened CloudSqlReconcile

  // ---- GenerateDatabaseInstance ----

  method GenerateBackup(s: Option<BackupSpec>, cur: Option<Backup>) returns (r: Option<Backup>)
    ensures r == OverlayBackup(s, cur)
  {
    r := cur;
    if s.Some? {
      var b := if r.None? then NO_BACKUP else r.value;
      b := b.(binaryLog := BoolValue(s.value.binaryLog));
      b := b.(enabled := BoolValue(s.value.enabled));
      b := b.(location := StringValue(s.value.location));
      b := b.(logArchiving := BoolValue(s.value.logArchiving));
      b := b.(startTime := StringValue(s.value.startTime));
      b := b.(pointInTime := BoolValue(s.value.pointInTime));
      r := Some(b);
    }
  }

  /** The loop that fills the ACL by index, over the observed entries when there is none to fill. */
  method FillAcl(s: seq<AclSpec>, cur: seq<Acl>) returns (r: seq<Acl>)
    ensures r == if s == [] then cur else GenerateAcl(s)
  {
    r := cur;
    if |s| > 0 {
      r := seq(|s|, _ => Acl("", "", "", ""));
    }
    for i := 0 to |s|
      invariant |s| > 0 ==> |r| == |s|
      invariant |s| == 0 ==> r == cur
      invariant forall k | 0 <= k < i :: r[k] == GenerateAcl(s)[k]
    {
      var e := s[i];
      r := r[i := Acl(StringValue(e.expiration), StringValue(e.name), StringValue(e.value), ACL_KIND)];
    }
  }

  method GenerateIp(s: Option<IpSpec>, cur: Option<Ip>) returns (r: Option<Ip>)
    ensures r == OverlayIp(s, cur)
  {
    r := cur;
    if s.Some? {
      var b := if r.None? then NO_IP else r.value;
      b := b.(ipv4 := BoolValue(s.value.ipv4));
      b := b.(network := StringValue(s.value.network));
      b := b.(ssl := BoolValue(s.value.ssl));
      var acl := FillAcl(s.value.authorized, b.authorized);
      r := Some(b.(authorized := acl));
    }
  }

  method GenerateLocation(s: Option<LocationSpec>, cur: Option<Location>) returns (r: Option<Location>)
    ensures r == OverlayLocation(s, cur)
  {
    r := cur;
    if s.Some? {
      var b := if r.None? then NO_LOCATION else r.value;
      b := b.(followApp := StringValue(s.value.followApp));
      b := b.(zone := StringValue(s.value.zone));
      r := Some(b);
    }
  }

  method GenerateWindow(s: Option<WindowSpec>, cur: Option<Window>) returns (r: Option<Window>)
    ensures r == OverlayWindow(s, cur)
  {
    r := cur;
    if s.Some? {
      var b := if r.None? then NO_WINDOW else r.value;
      b := b.(day := Int64Value(s.value.day));
      b := b.(hour := Int64Value(s.value.hour));
      b := b.(track := StringValue(s.value.track));
      r := Some(b);
    }
  }

  method FillFlags(s: seq<Flag>, cur: seq<Flag>) returns (r: seq<Flag>)
    ensures r == OverlayFlags(s, cur)
  {
    r := cur;
    if |s| > 0 {
      r := seq(|s|, _ => Flag("", ""));
    }
    for i := 0 to |s|
      invariant |s| > 0 ==> |r| == |s|
      invariant |s| == 0 ==> r == cur
      invariant forall k | 0 <= k < i :: r[k] == s[k]
    {
      r := r[i := Flag(s[i].name, s[i].value)];
    }
  }

  method GenerateSettings(s: SettingsSpec, cur: Option<Settings>) returns (r: Settings)
    ensures r == OverlaySettings(s, OrZero(cur, NO_SETTINGS))
  {
    r := if cur.None? then NO_SETTINGS else cur.value;
    r := r.(activation := StringValue(s.activation), apps := s.apps);
    r := r.(availability := StringValue(s.availability), crashSafe := BoolValue(s.crashSafe));
    r := r.(diskSize := Int64Value(s.diskSize), diskType := StringValue(s.diskType));
    r := r.(replication := BoolValue(s.replication), pricing := StringValue(s.pricing));
    r := r.(replicationType := StringValue(s.replicationType), autoResize := s.autoResize);
    r := r.(resizeLimit := Int64Value(s.resizeLimit), tier := s.tier, labels := s.labels);
    var backup := GenerateBackup(s.backup, r.backup);
    var ip := GenerateIp(s.ip, r.ip);
    var location := GenerateLocation(s.location, r.location);
    var window := GenerateWindow(s.window, r.window);
    var flags := FillFlags(s.flags, r.flags);
    r := r.(backup := backup, ip := ip, location := location, window := window, flags := flags);
  }

  method GenerateDatabaseInstance(name: string, s: Spec, db: Pointer<Instance>)
    modifies db
    ensures db.it == Overlay(name, s, old(db.it))
  {
    var d := db.it;
    d := d.(version := StringValue(s.version), zone := StringValue(s.zone));
    d := d.(instanceType := StringValue(s.instanceType), master := StringValue(s.master));
    d := d.(maxDisk := Int64Value(s.maxDisk), name := name, region := s.region);
    d := d.(replicas := s.replicas, suspension := s.suspension);
    d := d.(encryption := OverlayEncryption(s.encryption, d.encryption));
    d := d.(failover := OverlayFailover(s.failover, d.failover));
    d := d.(onPremises := OverlayOnPremises(s.onPremises, d.onPremises));
    var settings := GenerateSettings(s.settings, d.settings);
    db.it := d.(settings := Some(settings));
  }

  // ---- LateInitializeSpec ----

  method FillAclSpec(o: seq<Acl>) returns (r: seq<AclSpec>)
    ensures r == AdoptAcl(o)
  {
    r := seq(|o|, _ => AclSpec(None, None, None));
    for i := 0 to |o|
      invariant |r| == |o|
      invariant forall k | 0 <= k < i :: r[k] == AdoptAcl(o)[k]
    {
      r := r[i := AclSpec(Some(o[i].expiration), Some(o[i].name), Some(o[i].value))];
    }
  }

  method LateInitializeIp(s: Option<IpSpec>, o: Option<Ip>) returns (r: Option<IpSpec>)
    ensures r == LateIp(s, o)
  {
    r := s;
    if o.Some? {
      var c := if r.None? then NO_IP_SPEC else r.value;
      c := c.(ipv4 := LateInitializeBool(c.ipv4, o.value.ipv4));
      c := c.(network := LateInitializeString(c.network, o.value.network));
      c := c.(ssl := LateInitializeBool(c.ssl, o.value.ssl));
      if |o.value.authorized| != 0 && |c.authorized| == 0 {
        var acl := FillAclSpec(o.value.authorized);
        c := c.(authorized := acl);
      }
      r := Some(c);
    }
  }

  method LateInitializeBackup(s: Option<BackupSpec>, o: Option<Backup>) returns (r: Option<BackupSpec>)
    ensures r == LateBackup(s, o)
  {
    r := s;
    if o.Some? {
      var c := if r.None? then NO_BACKUP_SPEC else r.value;
      c := c.(binaryLog := LateInitializeBool(c.binaryLog, o.value.binaryLog));
      c := c.(enabled := LateInitializeBool(c.enabled, o.value.enabled));
      c := c.(location := LateInitializeString(c.location, o.value.location));
      c := c.(logArchiving := LateInitializeBool(c.logArchiving, o.value.logArchiving));
      c := c.(startTime := LateInitializeString(c.startTime, o.value.startTime));
      c := c.(pointInTime := LateInitializeBool(c.pointInTime, o.value.pointInTime));
      r := Some(c);
    }
  }

  method LateInitializeLocation(s: Option<LocationSpec>, o: Option<Location>) returns (r: Option<LocationSpec>)
    ensures r == LateLocation(s, o)
  {
    r := s;
    if o.Some? {
      var c := if r.None? then NO_LOCATION_SPEC else r.value;
      c := c.(zone := LateInitializeString(c.zone, o.value.zone));
      c := c.(followApp := LateInitializeString(c.followApp, o.value.followApp));
      r := Some(c);
    }
  }

  method LateInitializeWindow(s: Option<WindowSpec>, o: Option<Window>) returns (r: Option<WindowSpec>)
    ensures r == LateWindow(s, o)
  {
    r := s;
    if o.Some? {
      var c := if r.None? then NO_WINDOW_SPEC else r.value;
      c := c.(track := LateInitializeString(c.track, o.value.track));
      c := c.(day := LateInitializeInt64(c.day, o.value.day));
      c := c.(hour := LateInitializeInt64(c.hour, o.value.hour));
      r := Some(c);
    }
  }

  /** The disk size is filled in first, then raised if auto-resize is on by now. */
  method LateInitializeDisk(size: Option<int>, autoResize: Option<bool>, o: Settings)
    returns (newSize: Option<int>, newAutoResize: Option<bool>)
    ensures newAutoResize == Prefer(autoResize, o.autoResize)
    ensures newSize == LateDisk(size, o.diskSize, Resizes(autoResize, o.autoResize))
    ensures size.None? ==> Int64Value(newSize) == o.diskSize
    ensures size.Some? ==>
              var on := autoResize == Some(true) || (autoResize == None && o.autoResize == Some(true));
              newSize == Some(if on && size.value < o.diskSize then o.diskSize else size.value)
  {
    newSize, newAutoResize := LateInitializeInt64(size, o.diskSize), autoResize;
    if newAutoResize.None? {
      newAutoResize := o.autoResize;
    }
    if BoolValue(newAutoResize) && Int64Value(newSize) < o.diskSize {
      newSize := Some(o.diskSize);
    }
  }

  method LateInitializeSettings(s: SettingsSpec, o: Settings) returns (r: SettingsSpec)
    ensures r == LateSettings(s, o)
  {
    r := s.(tier := if s.tier == "" then o.tier else s.tier);
    r := r.(activation := LateInitializeString(r.activation, o.activation));
    r := r.(apps := LateInitializeStringSlice(r.apps, o.apps));
    r := r.(availability := LateInitializeString(r.availability, o.availability));
    r := r.(crashSafe := LateInitializeBool(r.crashSafe, o.crashSafe));
    r := r.(diskType := LateInitializeString(r.diskType, o.diskType));
    r := r.(pricing := LateInitializeString(r.pricing, o.pricing));
    r := r.(replicationType := LateInitializeString(r.replicationType, o.replicationType));
    r := r.(labels := LateInitializeStringMap(r.labels, o.labels));
    r := r.(replication := LateInitializeBool(r.replication, o.replication));
    r := r.(resizeLimit := LateInitializeInt64(r.resizeLimit, o.resizeLimit));
    var size, autoResize := LateInitializeDisk(r.diskSize, r.autoResize, o);
    var flags := r.flags;
    if |r.flags| == 0 && |o.flags| != 0 {
      flags := FillFlags(o.flags, []);
    }
    var backup := LateInitializeBackup(r.backup, o.backup);
    var ip := LateInitializeIp(r.ip, o.ip);
    var location := LateInitializeLocation(r.location, o.location);
    var window := LateInitializeWindow(r.window, o.window);
    r := r.(diskSize := size, autoResize := autoResize, flags := flags);
    r := r.(backup := backup, ip := ip, location := location, window := window);
  }

  method LateInitializeSpec(spec: Pointer<Spec>, o: Instance)
    modifies spec
    ensures spec.it == LateSpec(old(spec.it), o)
  {
    var s := spec.it;
    s := s.(region := if s.region == "" then o.region else s.region);
    s := s.(version := LateInitializeString(s.version, o.version));
    s := s.(master := LateInitializeString(s.master, o.master));
    s := s.(zone := LateInitializeString(s.zone, o.zone));
    s := s.(instanceType := LateInitializeString(s.instanceType, o.instanceType));
    s := s.(maxDisk := LateInitializeInt64(s.maxDisk, o.maxDisk));
    s := s.(replicas := LateInitializeStringSlice(s.replicas, o.replicas));
    s := s.(suspension := LateInitializeStringSlice(s.suspension, o.suspension));
    if o.settings.Some? {
      var settings := LateInitializeSettings(s.settings, o.settings.value);
      s := s.(settings := settings);
    }
    s := s.(encryption := LateEncryption(s.encryption, o.encryption));
    s := s.(failover := LateFailover(s.failover, o.failover));
    s := s.(onPremises := LateOnPremises(s.onPremises, o.onPremises));
    spec.it := s;
  }

  // ---- IsUpToDate ----

  method IsUpToDate(name: string, s: Spec, observed: Instance) returns (r: bool)
    ensures r <==> Overlay(name, s, observed) == observed
  {
    var desired := new Pointer(observed);
    GenerateDatabaseInstance(name, s, desired);
    return desired.it == observed;
  }

  /** Observe on an existing instance (pkg/controller/database/cloudsql.go:105-142): late
      initialisation, the update of the stored spec when it changed, the observation,
      which dereferences the settings, and the comparison. */
  method Observe(name: string, spec: Pointer<Spec>, stored: Pointer<Spec>, o: Instance)
    returns (upToDate: Outcome<bool>)
    requires spec != stored && spec.it == stored.it
    modifies spec, stored
    ensures spec.it == LateSpec(old(spec.it), o) && stored.it == spec.it
    ensures upToDate.Panics? <==> o.settings.None?
    ensures upToDate.Returns? ==>
              (upToDate.value <==> name == o.name && StandardAcl(o) && AllHonoured(old(spec.it), o))
  {
    var currentSpec := spec.it;
    LateInitializeSpec(spec, o);
    if currentSpec != spec.it {
      stored.it := spec.it;
    }
    if o.settings.None? {
      return Panics;
    }
    var same := IsUpToDate(name, spec.it, o);
    UpToDateIffHonoured(name, currentSpec, o);
    return Returns(same);
  }
}
