/** What observing and updating a Cloud SQL instance amounts to
    (pkg/controller/database/cloudsql.go:105-142 and 173-187). */
module CloudSqlReconcile {
  import opened Gcp
  import opened CloudSqlSettings
  import opened Runs

  /** The settings of the instance itself, and those of its settings block. */
  datatype TopField =
    | VersionField | ZoneField | TypeField | MasterField | MaxDiskField | RegionField | ReplicasField
    | SuspensionField | EncryptionField | FailoverField | OnPremisesField

  datatype InnerField =
    | ActivationField | AppsField | AvailabilityField | CrashSafeField | DiskSizeField | DiskTypeField
    | ReplicationField | PricingField | ReplicationTypeField | AutoResizeField | ResizeLimitField
    | TierField | LabelsField | BackupField | IpField | LocationField | WindowField | FlagsField

  datatype Field = Top(top: TopField) | Inner(inner: InnerField)

  /** One setting: what the spec asks for, and what is observed. For the disk, also
      whether auto-resize will be on. */
  datatype Setting =
    | TextSetting(textWant: Option<string>, textIs: string)
    | RequiredSetting(requiredWant: string, requiredIs: string)
    | NumberSetting(numberWant: Option<int>, numberIs: int)
    | ToggleSetting(toggleWant: Option<bool>, toggleIs: bool)
    | ListSetting(listWant: seq<string>, listIs: seq<string>)
    | LabelsSetting(labelsWant: map<string, string>, labelsIs: map<string, string>)
    | AutoResizeSetting(autoResizeWant: Option<bool>, autoResizeIs: Option<bool>)
    | DiskSetting(diskWant: Option<int>, diskIs: int, resizes: bool)
    | EncryptionSetting(encryptionWant: Option<string>, encryptionIs: Option<Encryption>)
    | FailoverSetting(failoverWant: Option<string>, failoverIs: Option<Failover>)
    | OnPremisesSetting(onPremisesWant: Option<string>, onPremisesIs: Option<OnPremises>)
    | BackupSetting(backupWant: Option<BackupSpec>, backupIs: Option<Backup>)
    | IpSetting(ipWant: Option<IpSpec>, ipIs: Option<Ip>)
    | LocationSetting(locationWant: Option<LocationSpec>, locationIs: Option<Location>)
    | WindowSetting(windowWant: Option<WindowSpec>, windowIs: Option<Window>)
    | FlagsSetting(flagsWant: seq<Flag>, flagsIs: seq<Flag>)

  function TopSetting(f: TopField, s: Spec, o: Instance): Setting {
    match f
    case VersionField => TextSetting(s.version, o.version)
    case ZoneField => TextSetting(s.zone, o.zone)
    case TypeField => TextSetting(s.instanceType, o.instanceType)
    case MasterField => TextSetting(s.master, o.master)
    case MaxDiskField => NumberSetting(s.maxDisk, o.maxDisk)
    case RegionField => RequiredSetting(s.region, o.region)
    case ReplicasField => ListSetting(s.replicas, o.replicas)
    case SuspensionField => ListSetting(s.suspension, o.suspension)
    case EncryptionField => EncryptionSetting(s.encryption, o.encryption)
    case FailoverField => FailoverSetting(s.failover, o.failover)
    case OnPremisesField => OnPremisesSetting(s.onPremises, o.onPremises)
  }

  function InnerSetting(f: InnerField, s: SettingsSpec, o: Settings): Setting {
    match f
    case ActivationField => TextSetting(s.activation, o.activation)
    case AppsField => ListSetting(s.apps, o.apps)
    case AvailabilityField => TextSetting(s.availability, o.availability)
    case CrashSafeField => ToggleSetting(s.crashSafe, o.crashSafe)
    case DiskSizeField => DiskSetting(s.diskSize, o.diskSize, Resizes(s.autoResize, o.autoResize))
    case DiskTypeField => TextSetting(s.diskType, o.diskType)
    case ReplicationField => ToggleSetting(s.replication, o.replication)
    case PricingField => TextSetting(s.pricing, o.pricing)
    case ReplicationTypeField => TextSetting(s.replicationType, o.replicationType)
    case AutoResizeField => AutoResizeSetting(s.autoResize, o.autoResize)
    case ResizeLimitField => NumberSetting(s.resizeLimit, o.resizeLimit)
    case TierField => RequiredSetting(s.tier, o.tier)
    case LabelsField => LabelsSetting(s.labels, o.labels)
    case BackupField => BackupSetting(s.backup, o.backup)
    case IpField => IpSetting(s.ip, o.ip)
    case LocationField => LocationSetting(s.location, o.location)
    case WindowField => WindowSetting(s.window, o.window)
    case FlagsField => FlagsSetting(s.flags, o.flags)
  }

  function SettingOf(f: Field, s: Spec, o: Instance): Setting
    requires o.settings.Some?
  {
    match f
    case Top(g) => TopSetting(g, s, o)
    case Inner(g) => InnerSetting(g, s.settings, o.settings.value)
  }

  /** The overlay changes the setting. */
  predicate Drifts(x: Setting) {
    match x
    case TextSetting(s, o) => StringValue(s) != o
    case RequiredSetting(s, o) => s != o
    case NumberSetting(s, o) => Int64Value(s) != o
    case ToggleSetting(s, o) => BoolValue(s) != o
    case ListSetting(s, o) => s != o
    case LabelsSetting(s, o) => s != o
    case AutoResizeSetting(s, o) => s != o
    case DiskSetting(s, o, _) => Int64Value(s) != o
    case EncryptionSetting(s, o) => OverlayEncryption(s, o) != o
    case FailoverSetting(s, o) => OverlayFailover(s, o) != o
    case OnPremisesSetting(s, o) => OverlayOnPremises(s, o) != o
    case BackupSetting(s, o) => OverlayBackup(s, o) != o
    case IpSetting(s, o) => OverlayIp(s, o) != o
    case LocationSetting(s, o) => OverlayLocation(s, o) != o
    case WindowSetting(s, o) => OverlayWindow(s, o) != o
    case FlagsSetting(s, o) => OverlayFlags(s, o) != o
  }

  function Late(x: Setting): Setting {
    match x
    case TextSetting(s, o) => TextSetting(LateInitializeString(s, o), o)
    case RequiredSetting(s, o) => RequiredSetting(LateRequired(s, o), o)
    case NumberSetting(s, o) => NumberSetting(LateInitializeInt64(s, o), o)
    case ToggleSetting(s, o) => ToggleSetting(LateInitializeBool(s, o), o)
    case ListSetting(s, o) => ListSetting(LateInitializeStringSlice(s, o), o)
    case LabelsSetting(s, o) => LabelsSetting(LateInitializeStringMap(s, o), o)
    case AutoResizeSetting(s, o) => AutoResizeSetting(Prefer(s, o), o)
    case DiskSetting(s, o, r) => DiskSetting(LateDisk(s, o, r), o, r)
    case EncryptionSetting(s, o) => EncryptionSetting(LateEncryption(s, o), o)
    case FailoverSetting(s, o) => FailoverSetting(LateFailover(s, o), o)
    case OnPremisesSetting(s, o) => OnPremisesSetting(LateOnPremises(s, o), o)
    case BackupSetting(s, o) => BackupSetting(LateBackup(s, o), o)
    case IpSetting(s, o) => IpSetting(LateIp(s, o), o)
    case LocationSetting(s, o) => LocationSetting(LateLocation(s, o), o)
    case WindowSetting(s, o) => WindowSetting(LateWindow(s, o), o)
    case FlagsSetting(s, o) => FlagsSetting(LateFlags(s, o), o)
  }

  // ---- the user's reading ----

  predicate SaysAcl(s: AclSpec, o: Acl) {
    StringValue(s.expiration) == o.expiration && StringValue(s.name) == o.name && StringValue(s.value) == o.value
  }

  /** A list the user gave is there, entry by entry. */
  predicate SaysAuthorized(s: seq<AclSpec>, o: seq<Acl>) {
    s != [] ==> |s| == |o| && forall i :: 0 <= i < |s| ==> SaysAcl(s[i], o[i])
  }

  predicate StandardKinds(o: seq<Acl>) {
    forall i :: 0 <= i < |o| ==> o[i].kind == "sql#aclEntry"
  }

  predicate HonoursBackup(s: BackupSpec, o: Backup) {
    && Says(s.binaryLog, o.binaryLog) && Says(s.enabled, o.enabled) && Says(s.location, o.location)
    && Says(s.logArchiving, o.logArchiving) && Says(s.startTime, o.startTime)
    && Says(s.pointInTime, o.pointInTime)
  }

  predicate HonoursIp(s: IpSpec, o: Ip) {
    && Says(s.ipv4, o.ipv4) && Says(s.network, o.network) && Says(s.ssl, o.ssl)
    && SaysAuthorized(s.authorized, o.authorized)
  }

  /** Everything the user set in this setting is what is observed. A disk size below
      the observed one is honoured while auto-resize is on. */
  predicate Honoured(x: Setting) {
    match x
    case TextSetting(s, o) => Says(s, o)
    case RequiredSetting(s, o) => s != "" ==> s == o
    case NumberSetting(s, o) => Says(s, o)
    case ToggleSetting(s, o) => Says(s, o)
    case ListSetting(s, o) => SaysList(s, o)
    case LabelsSetting(s, o) => s != map[] ==> s == o
    case AutoResizeSetting(s, o) => Kept(s, o)
    case DiskSetting(s, o, r) => s.Some? ==> s.value == o || (r && s.value < o)
    case EncryptionSetting(s, o) => s.Some? ==> o.Some? && (s.value != "" ==> s.value == o.value.kmsKeyName)
    case FailoverSetting(s, o) => s.Some? ==> o.Some? && s.value == o.value.name
    case OnPremisesSetting(s, o) => s.Some? ==> o.Some? && s.value == o.value.hostPort
    case BackupSetting(s, o) => s.Some? ==> o.Some? && HonoursBackup(s.value, o.value)
    case IpSetting(s, o) => s.Some? ==> o.Some? && HonoursIp(s.value, o.value)
    case LocationSetting(s, o) =>
      s.Some? ==> o.Some? && Says(s.value.followApp, o.value.followApp) && Says(s.value.zone, o.value.zone)
    case WindowSetting(s, o) =>
      s.Some? ==> o.Some? && Says(s.value.day, o.value.day) && Says(s.value.hour, o.value.hour)
                  && Says(s.value.track, o.value.track)
    case FlagsSetting(s, o) => SaysList(s, o)
  }

  /** The kind that every generated ACL entry carries. */
  predicate Standard(x: Setting) {
    x.IpSetting? && x.ipIs.Some? ==> StandardKinds(x.ipIs.value.authorized)
  }

  // ---- laws of one setting ----

  lemma AclLaws(s: seq<AclSpec>, o: seq<Acl>)
    ensures s != [] ==> (GenerateAcl(s) == o <==> SaysAuthorized(s, o) && StandardKinds(o))
    ensures GenerateAcl(AdoptAcl(o)) == o <==> StandardKinds(o)
  {
  }

  lemma IpLaws(s: Option<IpSpec>, o: Option<Ip>)
    ensures Drifts(Late(IpSetting(s, o))) <==> !Honoured(IpSetting(s, o)) || !Standard(IpSetting(s, o))
    ensures !Drifts(IpSetting(s, o)) ==> Honoured(IpSetting(s, o))
  {
    if o.Some? {
      AclLaws(OrZero(s, NO_IP_SPEC).authorized, o.value.authorized);
    }
  }

  /** After late initialisation the overlay changes a setting exactly when the
      observation contradicts the user, or an observed ACL entry has a foreign kind. */
  lemma DriftIsDisagreement(x: Setting)
    ensures Drifts(Late(x)) <==> !Honoured(x) || !Standard(x)
  {
    if x.IpSetting? {
      IpLaws(x.ipWant, x.ipIs);
    }
  }

  lemma NoDriftIsHonoured(x: Setting)
    ensures !Drifts(x) ==> Honoured(x)
  {
  }

  /** Late initialisation makes a setting drift that did not exactly when it adopts
      ACL entries of a foreign kind. */
  lemma LateAddsDriftIff(x: Setting)
    requires !Drifts(x)
    ensures Drifts(Late(x)) <==> !Standard(x)
  {
    NoDriftIsHonoured(x);
    DriftIsDisagreement(x);
  }

  // ---- the whole instance ----

  lemma TopLate(f: TopField, s: Spec, o: Instance)
    ensures TopSetting(f, LateSpec(s, o), o) == Late(TopSetting(f, s, o))
  {
  }

  lemma InnerLate(f: InnerField, s: SettingsSpec, o: Settings)
    ensures InnerSetting(f, LateSettings(s, o), o) == Late(InnerSetting(f, s, o))
  {
  }

  lemma LateByField(f: Field, s: Spec, o: Instance)
    requires o.settings.Some?
    ensures SettingOf(f, LateSpec(s, o), o) == Late(SettingOf(f, s, o))
  {
    match f
    case Top(g) => TopLate(g, s, o);
    case Inner(g) => InnerLate(g, s.settings, o.settings.value);
  }

  /** A drifting setting of an instance that the overlay changes. */
  function FindTopDrift(s: Spec, o: Instance): TopField {
    if StringValue(s.version) != o.version then VersionField
    else if StringValue(s.zone) != o.zone then ZoneField
    else if StringValue(s.instanceType) != o.instanceType then TypeField
    else if StringValue(s.master) != o.master then MasterField
    else if Int64Value(s.maxDisk) != o.maxDisk then MaxDiskField
    else if s.region != o.region then RegionField
    else if s.replicas != o.replicas then ReplicasField
    else if s.suspension != o.suspension then SuspensionField
    else if OverlayEncryption(s.encryption, o.encryption) != o.encryption then EncryptionField
    else if OverlayFailover(s.failover, o.failover) != o.failover then FailoverField
    else OnPremisesField
  }

  function FindInnerDrift(s: SettingsSpec, o: Settings): InnerField {
    if StringValue(s.activation) != o.activation then ActivationField
    else if s.apps != o.apps then AppsField
    else if StringValue(s.availability) != o.availability then AvailabilityField
    else if BoolValue(s.crashSafe) != o.crashSafe then CrashSafeField
    else if Int64Value(s.diskSize) != o.diskSize then DiskSizeField
    else if StringValue(s.diskType) != o.diskType then DiskTypeField
    else if BoolValue(s.replication) != o.replication then ReplicationField
    else if StringValue(s.pricing) != o.pricing then PricingField
    else if StringValue(s.replicationType) != o.replicationType then ReplicationTypeField
    else if s.autoResize != o.autoResize then AutoResizeField
    else if Int64Value(s.resizeLimit) != o.resizeLimit then ResizeLimitField
    else if s.tier != o.tier then TierField
    else if s.labels != o.labels then LabelsField
    else if OverlayBackup(s.backup, o.backup) != o.backup then BackupField
    else if OverlayIp(s.ip, o.ip) != o.ip then IpField
    else if OverlayLocation(s.location, o.location) != o.location then LocationField
    else if OverlayWindow(s.window, o.window) != o.window then WindowField
    else FlagsField
  }

  lemma TopDriftIsFound(name: string, s: Spec, o: Instance)
    ensures Overlay(name, s, o).(name := o.name, settings := o.settings) == o <==>
            !Drifts(TopSetting(FindTopDrift(s, o), s, o))
  {
  }

  lemma InnerDriftIsFound(s: SettingsSpec, o: Settings)
    ensures OverlaySettings(s, o) == o <==> !Drifts(InnerSetting(FindInnerDrift(s, o), s, o))
  {
  }

  lemma TopAgrees(f: TopField, name: string, s: Spec, o: Instance)
    requires Overlay(name, s, o).(settings := o.settings) == o
    ensures !Drifts(TopSetting(f, s, o))
  {
  }

  lemma InnerAgrees(f: InnerField, s: SettingsSpec, o: Settings)
    requires OverlaySettings(s, o) == o
    ensures !Drifts(InnerSetting(f, s, o))
  {
  }

  /** The comparison with the overlaid copy fails exactly when the name or one
      setting drifts. */
  lemma UpToDateByField(name: string, s: Spec, o: Instance)
    requires o.settings.Some?
    ensures Overlay(name, s, o) == o <==> name == o.name && forall f: Field :: !Drifts(SettingOf(f, s, o))
  {
    if Overlay(name, s, o) == o {
      forall f: Field
        ensures !Drifts(SettingOf(f, s, o))
      {
        match f
        case Top(g) => TopAgrees(g, name, s, o);
        case Inner(g) => InnerAgrees(g, s.settings, o.settings.value);
      }
    }
    if name == o.name && forall f: Field :: !Drifts(SettingOf(f, s, o)) {
      assert !Drifts(SettingOf(Top(FindTopDrift(s, o)), s, o));
      assert !Drifts(SettingOf(Inner(FindInnerDrift(s.settings, o.settings.value)), s, o));
      TopDriftIsFound(name, s, o);
      InnerDriftIsFound(s.settings, o.settings.value);
    }
  }

  predicate StandardAcl(o: Instance) {
    o.settings.Some? && o.settings.value.ip.Some? ==> StandardKinds(o.settings.value.ip.value.authorized)
  }

  lemma StandardByField(f: Field, s: Spec, o: Instance)
    requires o.settings.Some?
    ensures StandardAcl(o) ==> Standard(SettingOf(f, s, o))
    ensures Standard(SettingOf(Inner(IpField), s, o)) <==> StandardAcl(o)
  {
  }

  /** The instance honours everything the user set. */
  ghost predicate AllHonoured(s: Spec, o: Instance) {
    o.settings.Some? && forall f: Field :: Honoured(SettingOf(f, s, o))
  }

  /** "Up to date" after late initialisation: the name matches, every observed ACL
      entry has the standard kind, and the instance honours everything the user set. */
  lemma UpToDateIffHonoured(name: string, s: Spec, o: Instance)
    ensures Overlay(name, LateSpec(s, o), o) == o <==>
            name == o.name && StandardAcl(o) && AllHonoured(s, o)
  {
    if o.settings.Some? {
      UpToDateWithSettings(name, s, o);
    }
  }

  lemma UpToDateWithSettings(name: string, s: Spec, o: Instance)
    requires o.settings.Some?
    ensures Overlay(name, LateSpec(s, o), o) == o <==>
            name == o.name && StandardAcl(o) && AllHonoured(s, o)
  {
    UpToDateByField(name, LateSpec(s, o), o);
    StandardByField(Inner(IpField), s, o);
    forall f: Field
      ensures Drifts(SettingOf(f, LateSpec(s, o), o)) <==>
              !Honoured(SettingOf(f, s, o)) || !Standard(SettingOf(f, s, o))
      ensures StandardAcl(o) ==> Standard(SettingOf(f, s, o))
    {
      LateByField(f, s, o);
      DriftIsDisagreement(SettingOf(f, s, o));
      StandardByField(f, s, o);
    }
    if forall f: Field :: !Drifts(SettingOf(f, LateSpec(s, o), o)) {
      assert !Drifts(SettingOf(Inner(IpField), LateSpec(s, o), o));
    }
  }

  /** Late initialisation adds drift to no setting while the observed ACL entries have
      the standard kind; when one has not, the next lemma shows drift that it adds. */
  lemma LateAddsNoDrift(f: Field, s: Spec, o: Instance)
    requires o.settings.Some? && StandardAcl(o)
    ensures Drifts(SettingOf(f, LateSpec(s, o), o)) ==> Drifts(SettingOf(f, s, o))
  {
    LateByField(f, s, o);
    StandardByField(f, s, o);
    if !Drifts(SettingOf(f, s, o)) {
      LateAddsDriftIff(SettingOf(f, s, o));
    }
  }

  lemma ForeignAclIsDrift(s: Spec, o: Instance)
    requires o.settings.Some? && !StandardAcl(o)
    ensures Drifts(SettingOf(Inner(IpField), LateSpec(s, o), o))
    ensures s.settings.ip.None? ==> !Drifts(SettingOf(Inner(IpField), s, o))
  {
  }

  /** The object that the overlay produces is up to date against the same spec, and
      stays so after the next late initialisation exactly when its ACL is standard. */
  lemma WritingSettles(name: string, s: Spec, o: Instance)
    ensures var d := Overlay(name, s, o);
            && Overlay(name, s, d) == d
            && (Overlay(name, LateSpec(s, d), d) == d <==> StandardAcl(d))
  {
    var d := Overlay(name, s, o);
    OverlayTwice(name, s, o);
    UpToDateByField(name, s, d);
    forall f: Field
      ensures Honoured(SettingOf(f, s, d))
    {
      NoDriftIsHonoured(SettingOf(f, s, d));
    }
    UpToDateIffHonoured(name, s, d);
  }

  lemma OverlayTwice(name: string, s: Spec, o: Instance)
    ensures Overlay(name, s, Overlay(name, s, o)) == Overlay(name, s, o)
  {
  }

  /** A generated instance built from nothing, as an update or a create sends it,
      always has a standard ACL, so observing it back finds nothing to do. */
  lemma RequestSettles(name: string, s: Spec)
    ensures var r := Overlay(name, s, NO_INSTANCE); Overlay(name, LateSpec(s, r), r) == r
  {
    var r := Overlay(name, s, NO_INSTANCE);
    if s.settings.ip.Some? {
      AclLaws(s.settings.ip.value.authorized, r.settings.value.ip.value.authorized);
    }
    WritingSettles(name, s, NO_INSTANCE);
  }

  // ---- late initialisation takes everything over ----

  function StripSettings(o: Settings): Settings {
    o.(backup := if o.backup.None? then None else Some(o.backup.value.(kind := "")),
       location := if o.location.None? then None else Some(o.location.value.(kind := "")),
       window := if o.window.None? then None else Some(o.window.value.(kind := "")),
       settingsVersion := 0)
  }

  /** The instance without what only the service sets. */
  function Strip(o: Instance): Instance {
    o.(encryption := if o.encryption.None? then None else Some(o.encryption.value.(kind := "")),
       failover := if o.failover.None? then None else Some(o.failover.value.(available := false)),
       onPremises := if o.onPremises.None? then None else Some(o.onPremises.value.(kind := "")),
       settings := if o.settings.None? then None else Some(StripSettings(o.settings.value)),
       state := "")
  }

  /** A late-initialised spec by itself, laid over nothing, says all that it says
      together with the observation, but for what only the service sets. */
  lemma LateSaysItAll(name: string, s: Spec, o: Instance)
    requires o.settings.Some?
    ensures Overlay(name, LateSpec(s, o), NO_INSTANCE) == Strip(Overlay(name, LateSpec(s, o), o))
  {
    LateSettingsSayItAll(s.settings, o.settings.value);
  }

  lemma LateSettingsSayItAll(s: SettingsSpec, o: Settings)
    ensures OverlaySettings(LateSettings(s, o), NO_SETTINGS) == StripSettings(OverlaySettings(LateSettings(s, o), o))
  {
  }

  /** So an instance can be rebuilt from what adopting it wrote into an empty spec. */
  lemma AdoptionIsComplete(o: Instance)
    requires o.settings.Some? && StandardAcl(o)
    ensures Overlay(o.name, LateSpec(EMPTY_SPEC, o), NO_INSTANCE) == Strip(o)
  {
    AdoptionIsSilent(o);
    LateSaysItAll(o.name, EMPTY_SPEC, o);
  }

  /** A nested struct that the spec does not have is kept, and so are database flags and
      ACL entries when the spec lists none. */
  lemma UnsetStructIsKept(name: string, s: Spec, o: Instance, ip: IpSpec)
    requires o.settings.Some? && ip.authorized == []
    ensures var d := Overlay(name, s, o);
            && (s.encryption.None? ==> d.encryption == o.encryption)
            && (s.failover.None? ==> d.failover == o.failover)
            && (s.onPremises.None? ==> d.onPremises == o.onPremises)
    ensures var w, c, d := s.settings, o.settings.value, Overlay(name, s, o).settings.value;
            && (w.backup.None? ==> d.backup == c.backup) && (w.ip.None? ==> d.ip == c.ip)
            && (w.location.None? ==> d.location == c.location) && (w.window.None? ==> d.window == c.window)
            && (w.flags == [] ==> d.flags == c.flags)
            && OverlayIp(Some(ip), c.ip).value.authorized == OrZero(c.ip, NO_IP).authorized
  {
  }

  /** What the spec leaves unset outside a nested struct is cleared, whatever was there. */
  lemma OverlayForgets(name: string, s: Spec, o: Instance, p: Instance)
    requires o.settings.Some? && p.settings.Some?
    ensures var a, b := Overlay(name, s, o), Overlay(name, s, p);
            && a == b.(encryption := a.encryption, failover := a.failover, onPremises := a.onPremises,
                       settings := a.settings, state := a.state)
            && a.settings.value == b.settings.value.(
                 backup := a.settings.value.backup, ip := a.settings.value.ip,
                 location := a.settings.value.location, window := a.settings.value.window,
                 flags := a.settings.value.flags, settingsVersion := a.settings.value.settingsVersion)
  {
  }

  const EMPTY_SETTINGS := SettingsSpec(None, [], None, None, None, None, None, None, None, None, None, "",
                                       map[], None, None, None, None, [])
  const EMPTY_SPEC := Spec(None, None, None, None, None, "", [], [], None, None, None, EMPTY_SETTINGS)

  lemma NothingSetIsHonoured(f: Field, o: Instance)
    requires o.settings.Some?
    ensures Honoured(SettingOf(f, EMPTY_SPEC, o))
  {
  }

  /** Adoption is silent: importing an existing instance with nothing set issues no
      update exactly when it has settings and its ACL is standard. */
  lemma AdoptionIsSilent(o: Instance)
    ensures Overlay(o.name, LateSpec(EMPTY_SPEC, o), o) == o <==> o.settings.Some? && StandardAcl(o)
  {
    UpToDateIffHonoured(o.name, EMPTY_SPEC, o);
    if o.settings.Some? {
      forall f: Field
        ensures Honoured(SettingOf(f, EMPTY_SPEC, o))
      {
        NothingSetIsHonoured(f, o);
      }
    }
  }

  // ---- what late initialisation keeps ----

  predicate KeepsBackup(p: Option<BackupSpec>, q: Option<BackupSpec>) {
    p.Some? ==>
      && q.Some? && Kept(p.value.binaryLog, q.value.binaryLog) && Kept(p.value.enabled, q.value.enabled)
      && Kept(p.value.location, q.value.location) && Kept(p.value.logArchiving, q.value.logArchiving)
      && Kept(p.value.startTime, q.value.startTime) && Kept(p.value.pointInTime, q.value.pointInTime)
  }

  predicate KeepsIp(p: Option<IpSpec>, q: Option<IpSpec>) {
    p.Some? ==>
      && q.Some? && Kept(p.value.ipv4, q.value.ipv4) && Kept(p.value.network, q.value.network)
      && Kept(p.value.ssl, q.value.ssl) && SaysList(p.value.authorized, q.value.authorized)
  }

  predicate KeepsLocation(p: Option<LocationSpec>, q: Option<LocationSpec>) {
    p.Some? ==> q.Some? && Kept(p.value.followApp, q.value.followApp) && Kept(p.value.zone, q.value.zone)
  }

  predicate KeepsWindow(p: Option<WindowSpec>, q: Option<WindowSpec>) {
    p.Some? ==> q.Some? && Kept(p.value.day, q.value.day) && Kept(p.value.hour, q.value.hour)
                && Kept(p.value.track, q.value.track)
  }

  /** A set disk size may only be raised, and only by a spec with auto-resize on. */
  predicate KeepsDisk(p: SettingsSpec, q: SettingsSpec) {
    && Kept(p.autoResize, q.autoResize)
    && (p.diskSize.Some? ==> q.diskSize.Some? && q.diskSize.value >= p.diskSize.value)
    && (!BoolValue(q.autoResize) ==> Kept(p.diskSize, q.diskSize))
  }

  predicate KeepsScalars(p: SettingsSpec, q: SettingsSpec) {
    && Kept(p.activation, q.activation) && SaysList(p.apps, q.apps) && Kept(p.availability, q.availability)
    && Kept(p.crashSafe, q.crashSafe) && Kept(p.diskType, q.diskType) && Kept(p.replication, q.replication)
    && Kept(p.pricing, q.pricing) && Kept(p.replicationType, q.replicationType)
    && Kept(p.resizeLimit, q.resizeLimit) && SaysList(p.tier, q.tier)
    && (p.labels != map[] ==> p.labels == q.labels) && SaysList(p.flags, q.flags)
  }

  predicate KeepsTop(p: Spec, q: Spec) {
    && Kept(p.version, q.version) && Kept(p.zone, q.zone) && Kept(p.instanceType, q.instanceType)
    && Kept(p.master, q.master) && Kept(p.maxDisk, q.maxDisk) && SaysList(p.region, q.region)
    && SaysList(p.replicas, q.replicas) && SaysList(p.suspension, q.suspension)
    && (p.encryption.Some? ==> q.encryption.Some? && SaysList(p.encryption.value, q.encryption.value))
    && Kept(p.failover, q.failover) && Kept(p.onPremises, q.onPremises)
  }

  /** `q` still says everything `p` said. */
  predicate Keeps(p: Spec, q: Spec) {
    && KeepsTop(p, q) && KeepsScalars(p.settings, q.settings) && KeepsDisk(p.settings, q.settings)
    && KeepsBackup(p.settings.backup, q.settings.backup) && KeepsIp(p.settings.ip, q.settings.ip)
    && KeepsLocation(p.settings.location, q.settings.location)
    && KeepsWindow(p.settings.window, q.settings.window)
  }

  lemma LateKeepsTop(s: Spec, o: Instance)
    ensures KeepsTop(s, LateSpec(s, o))
  {
  }

  lemma LateKeepsNested(s: SettingsSpec, o: Settings)
    ensures KeepsBackup(s.backup, LateBackup(s.backup, o.backup)) && KeepsIp(s.ip, LateIp(s.ip, o.ip))
    ensures KeepsLocation(s.location, LateLocation(s.location, o.location))
    ensures KeepsWindow(s.window, LateWindow(s.window, o.window))
  {
  }

  lemma LateKeepsScalars(s: SettingsSpec, o: Settings)
    ensures KeepsScalars(s, LateSettings(s, o)) && KeepsDisk(s, LateSettings(s, o))
  {
  }

  lemma LateKeeps(s: Spec, o: Instance)
    ensures Keeps(s, LateSpec(s, o))
  {
    LateKeepsTop(s, o);
    if o.settings.Some? {
      LateKeepsNested(s.settings, o.settings.value);
      LateKeepsScalars(s.settings, o.settings.value);
    }
  }

  lemma KeepsIsTransitive(p: Spec, q: Spec, r: Spec)
    requires Keeps(p, q) && Keeps(q, r)
    ensures Keeps(p, r)
  {
  }

  function LateMany(s: Spec, observed: seq<Instance>): Spec
    decreases |observed|
  {
    if observed == [] then s else LateMany(LateSpec(s, observed[0]), observed[1..])
  }

  /** Whatever is observed and in whichever order, what the user set stays set to the
      same value, except that a disk size may rise while auto-resize is on. */
  lemma {:induction false} UserValuesSurvive(s: Spec, observed: seq<Instance>)
    ensures Keeps(s, LateMany(s, observed))
    decreases |observed|
  {
    if observed != [] {
      var q := LateSpec(s, observed[0]);
      LateKeeps(s, observed[0]);
      UserValuesSurvive(q, observed[1..]);
      KeepsIsTransitive(s, q, LateMany(q, observed[1..]));
    }
  }

  /** Late initialisation from the same observation a second time changes nothing. */
  lemma LateSpecIsIdempotent(s: Spec, o: Instance)
    ensures LateSpec(LateSpec(s, o), o) == LateSpec(s, o)
  {
  }

  // ---- the disk over whole runs ----

  datatype State = State(spec: Spec, instance: Instance)

  /** The service grows the disk, the user edits the spec, or the provider reconciles
      and the service carries out the patch. */
  datatype Event = Grow(grown: Instance) | Edit(spec: Spec) | Reconcile(name: string, patched: Instance)

  function Disk(o: Instance): int {
    OrZero(o.settings, NO_SETTINGS).diskSize
  }

  /** What Update sends: the late-initialised spec laid over an empty instance. */
  function RequestOf(name: string, s: State): Instance {
    Overlay(name, LateSpec(s.spec, s.instance), NO_INSTANCE)
  }

  /** The assumption about the service: a patch leaves the disk as it is or sets it to
      the requested size; all else may change in any way. */
  predicate Step(s: State, e: Event, t: State) {
    match e
    case Grow(grown) =>
      t == State(s.spec, grown) && grown.settings.Some? && Disk(grown) >= Disk(s.instance)
    case Edit(spec) => t == State(spec, s.instance)
    case Reconcile(name, patched) =>
      var late := LateSpec(s.spec, s.instance);
      if Overlay(name, late, s.instance) == s.instance then t == State(late, s.instance)
      else
        && t == State(late, patched) && patched.settings.Some?
        && (Disk(patched) == Disk(s.instance) || Disk(patched) == Disk(RequestOf(name, s)))
  }

  /** Auto-resize is on: the user switched it on, or left it alone and it is on. */
  predicate AutoResizeOn(s: State)
    requires s.instance.settings.Some?
  {
    || s.spec.settings.autoResize == Some(true)
    || (s.spec.settings.autoResize == None && s.instance.settings.value.autoResize == Some(true))
  }

  /** A request asks for a smaller disk exactly when auto-resize is off and the user
      set a smaller size. */
  lemma RequestShrinksIff(name: string, s: State)
    requires s.instance.settings.Some?
    ensures Disk(RequestOf(name, s)) < Disk(s.instance) <==>
            var want := s.spec.settings.diskSize;
            !AutoResizeOn(s) && want.Some? && want.value < Disk(s.instance)
  {
  }

  /** The size that is requested: the observed one when the user set none, or set less
      with auto-resize on; otherwise the user's. */
  lemma RequestedDisk(name: string, s: State)
    requires s.instance.settings.Some?
    ensures var want, seen := s.spec.settings.diskSize, Disk(s.instance);
            Disk(RequestOf(name, s)) ==
            if want.None? || (AutoResizeOn(s) && want.value < seen) then seen else want.value
  {
  }

  lemma StepKeepsDisk(s: State, e: Event, t: State)
    requires Step(s, e, t) && s.instance.settings.Some? && (e.Reconcile? ==> AutoResizeOn(s))
    ensures t.instance.settings.Some? && Disk(t.instance) >= Disk(s.instance)
  {
    if e.Reconcile? {
      RequestShrinksIff(e.name, s);
    }
  }

  ghost predicate ResizingRun(states: seq<State>, events: seq<Event>) {
    && IsRun(Step, states, events) && states[0].instance.settings.Some?
    && forall i | 0 <= i < |events| && events[i].Reconcile? ::
      states[i].instance.settings.Some? ==> AutoResizeOn(states[i])
  }

  /** Over every run in which auto-resize is on whenever the provider reconciles, no
      request asks for a smaller disk, and the disk never shrinks. */
  lemma {:induction false} DiskNeverShrinks(states: seq<State>, events: seq<Event>, i: nat, j: nat)
    requires ResizingRun(states, events) && i <= j <= |events|
    ensures states[i].instance.settings.Some? && states[j].instance.settings.Some?
    ensures Disk(states[i].instance) <= Disk(states[j].instance)
    ensures j < |events| && events[j].Reconcile? ==>
              Disk(RequestOf(events[j].name, states[j])) >= Disk(states[j].instance)
    decreases j
  {
    if j > 0 {
      var k := j - 1;
      DiskNeverShrinks(states, events, if i < j then i else k, k);
      assert Step(states[k], events[k], states[j]);
      StepKeepsDisk(states[k], events[k], states[j]);
    }
    if j < |events| && events[j].Reconcile? {
      RequestShrinksIff(events[j].name, states[j]);
    }
  }
}
