/** What the patch call of a Cloud SQL update does
    (pkg/controller/database/cloudsql.go:173-187). The request is the late-initialised
    spec laid over an empty instance. API clients omit every field with its zero value,
    except those forced, here the IPv4 flag (pkg/clients/cloudsql/cloudsql.go:103); the
    assumption about the service is that it writes what is sent, replaces a list as a
    whole, and keeps what is not sent. */
module CloudSqlPatch {
  import opened Gcp
  import opened CloudSqlSettings
  import opened CloudSqlReconcile

  // ---- the patched instance ----

  function PatchText(r: string, o: string): string {
    if r == "" then o else r
  }

  function PatchNumber(r: int, o: int): int {
    if r == 0 then o else r
  }

  function PatchFlag(r: bool, o: bool): bool {
    r || o
  }

  function PatchList<T(==)>(r: seq<T>, o: seq<T>): seq<T> {
    if r == [] then o else r
  }

  function PatchLabels(r: map<string, string>, o: map<string, string>): map<string, string> {
    if r == map[] then o else r
  }

  function PatchEncryption(r: Option<Encryption>, o: Option<Encryption>): Option<Encryption> {
    if r.None? || o.None? then Prefer(r, o)
    else Some(Encryption(PatchText(r.value.kmsKeyName, o.value.kmsKeyName), PatchText(r.value.kind, o.value.kind)))
  }

  function PatchFailover(r: Option<Failover>, o: Option<Failover>): Option<Failover> {
    if r.None? || o.None? then Prefer(r, o)
    else Some(Failover(PatchText(r.value.name, o.value.name), PatchFlag(r.value.available, o.value.available)))
  }

  function PatchOnPremises(r: Option<OnPremises>, o: Option<OnPremises>): Option<OnPremises> {
    if r.None? || o.None? then Prefer(r, o)
    else Some(OnPremises(PatchText(r.value.hostPort, o.value.hostPort), PatchText(r.value.kind, o.value.kind)))
  }

  function PatchBackup(r: Option<Backup>, o: Option<Backup>): Option<Backup> {
    if r.None? || o.None? then Prefer(r, o)
    else
      var a, b := r.value, o.value;
      Some(Backup(PatchFlag(a.binaryLog, b.binaryLog), PatchFlag(a.enabled, b.enabled),
                  PatchText(a.location, b.location), PatchFlag(a.logArchiving, b.logArchiving),
                  PatchText(a.startTime, b.startTime), PatchFlag(a.pointInTime, b.pointInTime),
                  PatchText(a.kind, b.kind)))
  }

  /** The IPv4 flag is always sent. */
  function PatchIp(r: Option<Ip>, o: Option<Ip>): Option<Ip> {
    if r.None? || o.None? then Prefer(r, o)
    else
      Some(Ip(r.value.ipv4, PatchText(r.value.network, o.value.network), PatchFlag(r.value.ssl, o.value.ssl),
              PatchList(r.value.authorized, o.value.authorized)))
  }

  function PatchLocation(r: Option<Location>, o: Option<Location>): Option<Location> {
    if r.None? || o.None? then Prefer(r, o)
    else
      Some(Location(PatchText(r.value.followApp, o.value.followApp), PatchText(r.value.zone, o.value.zone),
                    PatchText(r.value.kind, o.value.kind)))
  }

  function PatchWindow(r: Option<Window>, o: Option<Window>): Option<Window> {
    if r.None? || o.None? then Prefer(r, o)
    else
      Some(Window(PatchNumber(r.value.day, o.value.day), PatchNumber(r.value.hour, o.value.hour),
                  PatchText(r.value.track, o.value.track), PatchText(r.value.kind, o.value.kind)))
  }

  function PatchSettings(r: Settings, o: Settings): Settings {
    Settings(
      PatchText(r.activation, o.activation), PatchList(r.apps, o.apps), PatchText(r.availability, o.availability),
      PatchFlag(r.crashSafe, o.crashSafe), PatchNumber(r.diskSize, o.diskSize), PatchText(r.diskType, o.diskType),
      PatchFlag(r.replication, o.replication), PatchText(r.pricing, o.pricing),
      PatchText(r.replicationType, o.replicationType), Prefer(r.autoResize, o.autoResize),
      PatchNumber(r.resizeLimit, o.resizeLimit), PatchText(r.tier, o.tier), PatchLabels(r.labels, o.labels),
      PatchBackup(r.backup, o.backup), PatchIp(r.ip, o.ip), PatchLocation(r.location, o.location),
      PatchWindow(r.window, o.window), PatchList(r.flags, o.flags), PatchNumber(r.settingsVersion, o.settingsVersion))
  }

  function Patched(r: Instance, o: Instance): Instance {
    Instance(
      PatchText(r.version, o.version), PatchText(r.zone, o.zone), PatchText(r.instanceType, o.instanceType),
      PatchText(r.master, o.master), PatchNumber(r.maxDisk, o.maxDisk), PatchText(r.name, o.name),
      PatchText(r.region, o.region), PatchList(r.replicas, o.replicas), PatchList(r.suspension, o.suspension),
      PatchEncryption(r.encryption, o.encryption), PatchFailover(r.failover, o.failover),
      PatchOnPremises(r.onPremises, o.onPremises),
      if r.settings.None? || o.settings.None? then Prefer(r.settings, o.settings)
      else Some(PatchSettings(r.settings.value, o.settings.value)),
      PatchText(r.state, o.state))
  }

  // ---- one setting ----

  /** The setting after the patch for its spec. */
  function Patch(x: Setting): Setting {
    match x
    case TextSetting(s, o) => TextSetting(s, PatchText(StringValue(s), o))
    case RequiredSetting(s, o) => RequiredSetting(s, PatchText(s, o))
    case NumberSetting(s, o) => NumberSetting(s, PatchNumber(Int64Value(s), o))
    case ToggleSetting(s, o) => ToggleSetting(s, PatchFlag(BoolValue(s), o))
    case ListSetting(s, o) => ListSetting(s, PatchList(s, o))
    case LabelsSetting(s, o) => LabelsSetting(s, PatchLabels(s, o))
    case AutoResizeSetting(s, o) => AutoResizeSetting(s, Prefer(s, o))
    case DiskSetting(s, o, r) => DiskSetting(s, PatchNumber(Int64Value(s), o), r)
    case EncryptionSetting(s, o) => EncryptionSetting(s, PatchEncryption(OverlayEncryption(s, None), o))
    case FailoverSetting(s, o) => FailoverSetting(s, PatchFailover(OverlayFailover(s, None), o))
    case OnPremisesSetting(s, o) => OnPremisesSetting(s, PatchOnPremises(OverlayOnPremises(s, None), o))
    case BackupSetting(s, o) => BackupSetting(s, PatchBackup(OverlayBackup(s, None), o))
    case IpSetting(s, o) => IpSetting(s, PatchIp(OverlayIp(s, None), o))
    case LocationSetting(s, o) => LocationSetting(s, PatchLocation(OverlayLocation(s, None), o))
    case WindowSetting(s, o) => WindowSetting(s, PatchWindow(OverlayWindow(s, None), o))
    case FlagsSetting(s, o) => FlagsSetting(s, PatchList(s, o))
  }

  /** The user set a zero value and something else is observed. */
  predicate Zeroes<T(==)>(s: Option<T>, zero: T, o: T) {
    s == Some(zero) && o != zero
  }

  /** A wish for a zero value that the request cannot carry. A zero disk size is none
      while auto-resize raises it. */
  predicate ZeroWish(x: Setting) {
    match x
    case TextSetting(s, o) => Zeroes(s, "", o)
    case NumberSetting(s, o) => Zeroes(s, 0, o)
    case ToggleSetting(s, o) => Zeroes(s, false, o)
    case DiskSetting(s, o, r) => Zeroes(s, 0, o) && !(r && 0 < o)
    case FailoverSetting(s, o) => o.Some? && Zeroes(s, "", o.value.name)
    case OnPremisesSetting(s, o) => o.Some? && Zeroes(s, "", o.value.hostPort)
    case BackupSetting(s, o) =>
      s.Some? && o.Some? &&
      (|| Zeroes(s.value.binaryLog, false, o.value.binaryLog) || Zeroes(s.value.enabled, false, o.value.enabled)
       || Zeroes(s.value.location, "", o.value.location)
       || Zeroes(s.value.logArchiving, false, o.value.logArchiving)
       || Zeroes(s.value.startTime, "", o.value.startTime)
       || Zeroes(s.value.pointInTime, false, o.value.pointInTime))
    case IpSetting(s, o) =>
      s.Some? && o.Some? && (Zeroes(s.value.network, "", o.value.network) || Zeroes(s.value.ssl, false, o.value.ssl))
    case LocationSetting(s, o) =>
      s.Some? && o.Some? && (Zeroes(s.value.followApp, "", o.value.followApp) || Zeroes(s.value.zone, "", o.value.zone))
    case WindowSetting(s, o) =>
      s.Some? && o.Some? &&
      (Zeroes(s.value.day, 0, o.value.day) || Zeroes(s.value.hour, 0, o.value.hour)
       || Zeroes(s.value.track, "", o.value.track))
    case _ => false
  }

  /** Patching a late-initialised setting leaves drift exactly when the user had such a
      wish, and otherwise honours the spec that was sent. */
  lemma PatchDriftsIff(x: Setting)
    ensures Drifts(Patch(Late(x))) <==> ZeroWish(x)
  {
  }

  lemma PatchHonoursIff(x: Setting)
    ensures Honoured(Patch(Late(x))) <==> !ZeroWish(x)
  {
    match x
    case BackupSetting(s, o) => PatchHonoursBackup(s, o);
    case IpSetting(s, o) => PatchHonoursIp(s, o);
    case _ =>
  }

  lemma PatchHonoursBackup(s: Option<BackupSpec>, o: Option<Backup>)
    ensures Honoured(Patch(Late(BackupSetting(s, o)))) <==> !ZeroWish(BackupSetting(s, o))
  {
    if o.Some? {
      var c, b := OrZero(s, NO_BACKUP_SPEC), o.value;
      FlagSentIff(c.binaryLog, b.binaryLog);
      FlagSentIff(c.enabled, b.enabled);
      TextSentIff(c.location, b.location);
      FlagSentIff(c.logArchiving, b.logArchiving);
      TextSentIff(c.startTime, b.startTime);
      FlagSentIff(c.pointInTime, b.pointInTime);
    }
  }

  lemma TextSentIff(s: Option<string>, o: string)
    ensures var late := LateInitializeString(s, o);
            Says(late, PatchText(StringValue(late), o)) <==> !Zeroes(s, "", o)
  {
  }

  lemma FlagSentIff(s: Option<bool>, o: bool)
    ensures var late := LateInitializeBool(s, o);
            Says(late, PatchFlag(BoolValue(late), o)) <==> !Zeroes(s, false, o)
  {
  }

  lemma PatchHonoursIp(s: Option<IpSpec>, o: Option<Ip>)
    ensures Honoured(Patch(Late(IpSetting(s, o)))) <==> !ZeroWish(IpSetting(s, o))
  {
  }

  /** ACL entries of a foreign kind have been adopted, and are rewritten. */
  lemma PatchIsStandard(x: Setting)
    ensures Standard(Patch(Late(x)))
  {
  }

  // ---- the whole instance ----

  lemma TopPatched(f: TopField, name: string, w: Spec, o: Instance)
    ensures TopSetting(f, w, Patched(Overlay(name, w, NO_INSTANCE), o)) == Patch(TopSetting(f, w, o))
  {
  }

  lemma InnerPatched(f: InnerField, w: SettingsSpec, o: Settings)
    ensures InnerSetting(f, w, PatchSettings(OverlaySettings(w, NO_SETTINGS), o)) == Patch(InnerSetting(f, w, o))
  {
  }

  lemma PatchedByField(f: Field, name: string, w: Spec, o: Instance)
    requires o.settings.Some?
    ensures Patched(Overlay(name, w, NO_INSTANCE), o).settings.Some?
    ensures SettingOf(f, w, Patched(Overlay(name, w, NO_INSTANCE), o)) == Patch(SettingOf(f, w, o))
  {
    match f
    case Top(g) => TopPatched(g, name, w, o);
    case Inner(g) => InnerPatched(g, w.settings, o.settings.value);
  }

  /** Nothing the user wished for gets lost on the way. */
  ghost predicate AllSent(name: string, s: Spec, o: Instance)
    requires o.settings.Some?
  {
    (name == "" ==> o.name == "") && forall f: Field :: !ZeroWish(SettingOf(f, s, o))
  }

  /** The setting after the patch that an update sends. */
  lemma AfterUpdate(f: Field, name: string, s: Spec, o: Instance)
    requires o.settings.Some?
    ensures var d := Patched(RequestOf(name, State(s, o)), o);
            && d.settings.Some?
            && SettingOf(f, LateSpec(s, o), d) == Patch(Late(SettingOf(f, s, o)))
  {
    PatchedByField(f, name, LateSpec(s, o), o);
    LateByField(f, s, o);
  }

  /** One update is enough exactly when the user has no wish that the request cannot
      carry: then the patched instance is up to date at the next observation, ACL
      entries of a foreign kind included. */
  lemma OneUpdateSettles(name: string, s: Spec, o: Instance)
    requires o.settings.Some?
    ensures var late := LateSpec(s, o);
            var d := Patched(RequestOf(name, State(s, o)), o);
            Overlay(name, LateSpec(late, d), d) == d <==> AllSent(name, s, o)
  {
    var late := LateSpec(s, o);
    var d := Patched(RequestOf(name, State(s, o)), o);
    forall f: Field
      ensures d.settings.Some?
      ensures Honoured(SettingOf(f, late, d)) <==> !ZeroWish(SettingOf(f, s, o))
      ensures Standard(SettingOf(f, late, d))
    {
      AfterUpdate(f, name, s, o);
      PatchHonoursIff(SettingOf(f, s, o));
      PatchIsStandard(SettingOf(f, s, o));
    }
    AfterUpdate(Inner(IpField), name, s, o);
    StandardByField(Inner(IpField), late, d);
    UpToDateIffHonoured(name, late, d);
  }

  /** An instance without settings gets them as sent; then only the settings of the
      instance itself matter. */
  lemma OneUpdateAddsSettings(name: string, s: Spec, o: Instance)
    requires o.settings.None?
    ensures var late := LateSpec(s, o);
            var d := Patched(RequestOf(name, State(s, o)), o);
            Overlay(name, LateSpec(late, d), d) == d <==>
            (name == "" ==> o.name == "") && forall g: TopField :: !ZeroWish(TopSetting(g, s, o))
  {
    var late := LateSpec(s, o);
    var d := Patched(RequestOf(name, State(s, o)), o);
    SentSettings(late.settings);
    forall g: TopField
      ensures Honoured(SettingOf(Top(g), late, d)) <==> !ZeroWish(TopSetting(g, s, o))
    {
      TopPatched(g, name, late, o);
      TopLate(g, s, o);
      PatchHonoursIff(TopSetting(g, s, o));
    }
    forall g: InnerField
      ensures Honoured(SettingOf(Inner(g), late, d))
    {
      InnerAgrees(g, late.settings, d.settings.value);
      NoDriftIsHonoured(SettingOf(Inner(g), late, d));
    }
    UpToDateIffHonoured(name, late, d);
    AllOfBoth(late, d);
  }

  lemma AllOfBoth(s: Spec, o: Instance)
    requires o.settings.Some? && forall g: InnerField :: Honoured(SettingOf(Inner(g), s, o))
    ensures AllHonoured(s, o) <==> forall g: TopField :: Honoured(SettingOf(Top(g), s, o))
  {
    if forall g: TopField :: Honoured(SettingOf(Top(g), s, o)) {
      forall f: Field
        ensures Honoured(SettingOf(f, s, o))
      {
        match f
        case Top(g) => assert Honoured(SettingOf(Top(g), s, o));
        case Inner(g) => assert Honoured(SettingOf(Inner(g), s, o));
      }
    }
  }

  /** Settings sent as a whole are a fixed point, with standard ACL kinds. */
  lemma SentSettings(w: SettingsSpec)
    ensures var r := OverlaySettings(w, NO_SETTINGS);
            OverlaySettings(w, r) == r && (r.ip.Some? ==> StandardKinds(r.ip.value.authorized))
  {
  }

  lemma OverlayAfterPatch(name: string, w: Spec, o: Instance)
    requires o.settings.Some?
    ensures Overlay(name, w, Patched(Overlay(name, w, NO_INSTANCE), o)) == Overlay(name, w, o)
  {
  }

  /** And under the same condition what the service makes of the request, which knows
      nothing of the observed instance, is what IsUpToDate compared with: the spec laid
      over the observed instance. */
  lemma PatchIsOverlay(name: string, s: Spec, o: Instance)
    requires o.settings.Some?
    ensures Patched(RequestOf(name, State(s, o)), o) == Overlay(name, LateSpec(s, o), o) <==>
            AllSent(name, s, o)
  {
    var late := LateSpec(s, o);
    var d := Patched(RequestOf(name, State(s, o)), o);
    OverlayAfterPatch(name, late, o);
    AfterUpdate(Inner(IpField), name, s, o);
    UpToDateByField(name, late, d);
    forall f: Field
      ensures Drifts(SettingOf(f, late, d)) <==> ZeroWish(SettingOf(f, s, o))
    {
      AfterUpdate(f, name, s, o);
      PatchDriftsIff(SettingOf(f, s, o));
    }
  }

  /** Such a patch is one of the steps that the run of the disk allows. */
  lemma PatchIsStep(name: string, s: State)
    requires s.instance.settings.Some?
    requires Overlay(name, LateSpec(s.spec, s.instance), s.instance) != s.instance
    ensures var d := Patched(RequestOf(name, s), s.instance);
            Step(s, Reconcile(name, d), State(LateSpec(s.spec, s.instance), d))
  {
  }
}
