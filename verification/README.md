# Reconciling GCP resources: a Dafny model of provider-gcp

The provider keeps Google Cloud resources in line with Kubernetes specs. Every client
package has the same three operations. *Generate* lays the spec over an API object.
*LateInitializeSpec* fills unset parts of the spec from what is observed. *IsUpToDate*
lays the spec over a copy of the observation and compares the two. This project models
those operations for GKE clusters, Cloud SQL instances, networks, firewalls, crypto
keys, IAM policies, buckets and service networking connections, and proves what the
reconcile loop built on them does over whole runs.

## How the model is laid out

| file | models |
|---|---|
| `Gcp.dfy`, `Runs.dfy` | pointers, late-initialisation helpers, runs of a state machine |
| `ClusterTypes.dfy`, `ClusterSettings.dfy` | the GKE cluster, and per setting the overlay, the late initialisation, and two readings of the user's spec |
| `ClusterDrift.dfy`, `ClusterReconcile.dfy` | the 21 comparisons, the update requests, the reconcile loop and its convergence |
| `ClusterClient.dfy` | the imperative code of the cluster client, proved against the functions above |
| `ClusterCreation.dfy` | what a generated cluster holds, and what adopting one takes over |
| `ClusterWishes.dfy` | the wishes that the comparison cannot see, over whole runs |
| `CloudSqlSettings.dfy`, `CloudSqlReconcile.dfy`, `CloudSqlPatch.dfy`, `CloudSqlClient.dfy` | the same for Cloud SQL, with the auto-resize rule over whole runs and the patch that a request amounts to |
| `NetworkClient.dfy`, `FirewallClient.dfy`, `ComputeUrls.dfy` | compute networks and firewalls, URL comparison |
| `CryptoKeyClient.dfy` | the update mask of a crypto key |
| `BucketPolicy.dfy`, `PolicyStore.dfy` | binding and unbinding a role, alone and by many clients at once |
| `Sorting.dfy`, `PolicyComparison.dfy`, `IamPolicies.dfy` | order-free comparison of IAM policies |
| `BucketLabels.dfy`, `BucketAttrs.dfy` | label patches and attribute conversion of buckets |
| `ConnectionClient.dfy` | service networking connections |

A Go pointer is an `Option`; a struct that is written through a pointer is a
`Pointer<T>` whose value is replaced; a nil dereference is `Panics`. Nil and empty
slices are one value wherever the code only asks for the length or compares with
EquateEmpty. Integers are unbounded except in the retention period, where the int64
product is written out.

What is assumed about the services is written down in definitions of its own:
`ClusterDrift.Written` (an update call writes the addressed setting; the service may
choose what it fills in by itself), `PolicyStore.Step` (a set with a stale etag is
rejected, and an accepted one gets an etag never used before), `CloudSqlPatch.Patched`,
`CryptoKeyClient.Patch` and `BucketLabels.Apply` (a patch writes what it carries and
keeps the rest), `CloudSqlReconcile.Step` (a patch leaves the disk or sets it to the
requested size) and `NetworkClient.Step` (a patch writes the routing config only).

## What the proofs found in the code

- A reconcile of a cluster takes at most 22 updates. It never acts on a change of the
  notification topic, on the disk type of node pool defaults, on the SNAT and IPv6
  choices or on the credentials, and it replaces what the user says about Cloud Run and
  the client certificate by what is observed. A cluster can therefore be up to date
  without having every value the user set; `ClusterWishes` says exactly when it has.
- An update of the maintenance policy erases every part of the window that the spec does
  not name, because late initialisation skips a policy that is set.
- LateInitializeSpec of a cluster dereferences nil when a recurring window is observed
  and the spec has no maintenance policy, and when it adopts a list with a nil entry.
- Cloud SQL late initialisation makes a setting drift that did not before exactly when an
  observed ACL entry does not have the kind that the provider writes.
- A Cloud SQL update never delivers a zero value that the user sets against a non-zero
  one, the IPv4 flag excepted, and does not settle such an instance.
- A network whose user wants another description, or automatic subnets on a custom
  network, is patched for ever.
- A Cloud SQL request asks for a smaller disk exactly when auto-resize is off and the
  user set a smaller size.
- Unbinding withdraws a pair exactly when it is listed once and in the first binding for
  the role, so with two bindings for one role it can leave the pair granted.
- URL equality is reflexive and symmetric but not transitive, and two fully qualified
  networks of different projects are equal when their base names are.
- Late initialisation of firewall deny rules is right exactly when there are as many
  allow rules as deny rules.
- IsUpToDate of a crypto key dereferences nil exactly when the spec has a version
  template and the observed key has none.
- Retention seconds return unchanged exactly up to 9223372036, which covers every period
  that the API type admits.

## Model

| member | source | states |
|---|---|---|
| `Gcp.LateInitializeString` | pkg/clients/gcp.go:186-191 | a set value is never replaced; the value read afterwards is the set one or the observed one; nil only when both are unset |
| `Gcp.LateInitializeInt64` | pkg/clients/gcp.go:194-199 | the same for numbers |
| `Gcp.LateInitializeBool` | pkg/clients/gcp.go:202-207 | the same for booleans |
| `Gcp.LateInitializeStringSlice` | pkg/clients/gcp.go:211-216 | a non-empty list stays, an empty one takes the observed list |
| `Gcp.LateInitializeStringMap` | pkg/clients/gcp.go:220-225 | the same for maps |
| `ClusterReconcile.Converges` | pkg/clients/cluster/cluster.go:1265-1356 | every run of late-init, compare, one update: at most 22 updates, in the fixed order, none twice, each one due at the start, and what remains due is exactly what was not issued |
| `ClusterReconcile.StepShrinks` | pkg/clients/cluster/cluster.go:1265-1356 | one round takes exactly the first due update off the set of due updates, unsettles nothing, and the next late initialisation does not panic |
| `ClusterReconcile.FirstDifferenceInOrder` | pkg/clients/cluster/cluster.go:1278-1355 | the update is for a comparison in the written-out order, and all before it hold |
| `ClusterReconcile.ReachesSettled` | pkg/clients/cluster/cluster.go:1265-1356 | from every state in which late initialisation does not panic there is a run that ends up to date |
| `ClusterReconcile.Progress` | pkg/controller/container/cluster.go:173-203 | a state that is not up to date always has a next update, and its closure does not dereference nil |
| `ClusterReconcile.SettledRun` | pkg/controller/container/cluster.go:173-203 | a run that ended up to date issued exactly the updates due at the start, and the cluster has every wish of the user at the start that the comparison can see |
| `ClusterReconcile.SettledIffHeeded` | pkg/controller/container/cluster.go:99-138 | after late initialisation, up to date means no bootstrap pool and every wish of the user that the comparison can see observed |
| `ClusterWishes.HonouredIffAttainable` | pkg/clients/cluster/cluster.go:1265-1356 | at the settled end of every run the cluster has every value the user had set, the five unseen wishes included, exactly when each of those was attainable at the start, unless one was left to the service to fill in |
| `ClusterWishes.GrantedIffAttainable` | pkg/clients/cluster/cluster.go:1265-1356 | per unseen wish: Cloud Run and the topic are as wished at the end exactly when there was none or the wished one at the start; disk type, SNAT, IPv6 and credentials exactly when they already were |
| `ClusterWishes.DiskTypeIsServiceChoice` | pkg/clients/cluster/cluster.go:193-246 | with an autoscaling update due, for every disk type there is a run that ends settled with it |
| `ClusterWishes.NetworkIsServiceChoice` | pkg/clients/cluster/cluster.go:1102-1126 | with a first network config due, for all SNAT and IPv6 choices there is a run that ends settled with them |
| `ClusterWishes.CredentialsNeverChange` | pkg/clients/cluster/cluster.go:1265-1356 | no update of any run touches the master credentials, which are never compared |
| `ClusterWishes.TopicIsLost` | pkg/clients/cluster/cluster.go:428-440 | a spec with a topic other than the observed one is up to date at once, and not honoured |
| `ClusterReconcile.DiffersIffUnheeded` | pkg/clients/cluster/cluster.go:648-954 | a setting of the late-initialised spec differs exactly when a wish that the comparison can see is not observed |
| `ClusterReconcile.LateAddsNoDrift` | pkg/clients/cluster/cluster.go:648-954 | every setting that differs after late initialisation differed before |
| `ClusterReconcile.LateTwice` | pkg/clients/cluster/cluster.go:648-954 | late initialisation is idempotent for a fixed observation |
| `ClusterReconcile.LostWishes` | pkg/clients/cluster/cluster.go:649-848 | with Cloud Run and a client certificate observed, the result does not depend on what the user says about them |
| `ClusterReconcile.UserValuesSurvive` | pkg/clients/cluster/cluster.go:648-954 | over any sequence of observations each user-set value keeps its value; Cloud Run only stays set |
| `ClusterReconcile.CredentialsSurvive` | pkg/clients/cluster/cluster.go:838-848 | over any sequence of observations a set user name stays, and a set certificate choice stays set |
| `ClusterReconcile.PanicsByField` | pkg/clients/cluster/cluster.go:648-954 | late initialisation panics exactly when one of three settings makes it dereference nil |
| `ClusterCreation.EmptySpecPanicsIff` | pkg/clients/cluster/cluster.go:648-954 | an empty spec makes it panic exactly on an observed recurring window or a nil limit or block |
| `ClusterReconcile.AdoptionIsSilent` | pkg/clients/cluster/cluster.go:648-954 | importing a cluster with nothing set issues no update exactly when it has no bootstrap pool |
| `ClusterCreation.AdoptionIsComplete` | pkg/clients/cluster/cluster.go:648-954 | what adopting a cluster writes into an empty spec, laid over nothing, is that cluster again but for what only the service sets, the disk type, autopilot and empty shells |
| `ClusterCreation.GeneratedHeeds` | pkg/clients/cluster/cluster.go:67-511 | laid over any cluster, the spec leaves every value the user set in a compared setting |
| `ClusterCreation.GeneratedGrants` | pkg/clients/cluster/cluster.go:67-511 | and every unseen wish, except that a topic already there stays and that the disk type is not written |
| `ClusterCreation.CreatedHonours` | pkg/controller/container/cluster.go:140-171 | a created cluster has every value the user set exactly when no disk type is asked for |
| `ClusterCreation.UnsetConfigIsKept` | pkg/clients/cluster/cluster.go:67-511 | a config the spec does not have is kept, an empty list inside one too |
| `ClusterCreation.UnsetIsCleared` | pkg/clients/cluster/cluster.go:193-277 | an unset value in a config the spec has is cleared |
| `ClusterCreation.UnsetIsClearedToo` | pkg/clients/cluster/cluster.go:360-491 | the same for private cluster, network, usage export and credentials |
| `ClusterReconcile.UpdateAtField` | pkg/clients/cluster/cluster.go:956-1239 | an update settles its own setting, through the next late initialisation, and neither settles nor unsettles any other |
| `ClusterReconcile.SiblingStays` | pkg/clients/cluster/cluster.go:1102-1126 | writing one half of the network config leaves the other half as settled as it was |
| `ClusterDrift.DriftIsUnheeded` | pkg/clients/cluster/cluster.go:67-511 | for each kind of setting, the overlay of the late-initialised spec changes the observation exactly when a wish that the comparison can see is not observed |
| `ClusterDrift.NoDriftIsHeeded` | pkg/clients/cluster/cluster.go:67-511 | a setting without drift has every wish that the comparison can see |
| `ClusterDrift.ClosurePanicsIff` | pkg/clients/cluster/cluster.go:1027-1126 | exactly three update closures dereference the spec, and panic exactly when their setting is unset |
| `ClusterDrift.DriftIsRequestable` | pkg/clients/cluster/cluster.go:1027-1036 | a setting that differs is present in the spec, so no update closure dereferences nil |
| `ClusterDrift.WriteSettles` | pkg/clients/cluster/cluster.go:956-1239 | whatever the service fills in by itself, the requested setting no longer differs |
| `ClusterDrift.UpdateSendsDesired` | pkg/clients/cluster/cluster.go:956-1239 | no update other than of the maintenance policy drops anything the user did not mention |
| `ClusterDrift.LateSendsDesired` | pkg/clients/cluster/cluster.go:648-954 | a late-initialised setting by itself says what it says together with the observation: everything unset was taken over |
| `ClusterDrift.LateAdoptsWhole` | pkg/clients/cluster/cluster.go:807-836 | a spec without a maintenance policy takes the observed daily window and exclusions over, and one without a topic the topic |
| `ClusterDrift.LateAdoptsDiskType` | pkg/clients/cluster/cluster.go:704-752 | the observed disk type is taken over when the user set none |
| `ClusterDrift.RequestIgnoresObservation` | pkg/clients/cluster/cluster.go:956-1239 | an update request depends on the spec alone |
| `ClusterDrift.MaintenanceUpdateErases` | pkg/clients/cluster/cluster.go:1063-1072 | a maintenance update keeps the observed window exactly when the spec names all of it |
| `ClusterDrift.UnheardWishes` | pkg/clients/cluster/cluster.go:428-440 | the comparison sees a topic only while none is configured, no disk type, and of the network config only two fields |
| `ClusterDrift.AutoscalingLaws` | pkg/clients/cluster/cluster.go:193-246 | overlay, late-init and the user's reading of autoscaling agree; late-init is idempotent and keeps user values |
| `ClusterDrift.MaintenanceLaws` | pkg/clients/cluster/cluster.go:319-357 | overlay, late-init and the user's reading of the maintenance policy agree; late-init is idempotent |
| `ClusterDrift.NetworksLaws` | pkg/clients/cluster/cluster.go:377-396 | the same for authorized networks |
| `ClusterDrift.AddonsLaws` | pkg/clients/cluster/cluster.go:106-169 | the same for addons |
| `ClusterClient.GenerateCluster` | pkg/clients/cluster/cluster.go:67-103 | writes the overlay of every modelled setting and nothing else |
| `ClusterClient.GenerateAddonsConfig` | pkg/clients/cluster/cluster.go:106-169 | writes only the addons, to their overlay |
| `ClusterClient.GenerateAutoscaling` | pkg/clients/cluster/cluster.go:193-246 | writes only autoscaling, limits filled by index with nil entries kept |
| `ClusterClient.GenerateMaintenancePolicy` | pkg/clients/cluster/cluster.go:319-357 | writes only the maintenance policy, exclusions copied entry by entry |
| `ClusterDrift.CredentialsLaws` | pkg/clients/cluster/cluster.go:360-374 | what is generated has the user name and certificate choice the user set, generating twice is generating once, and when late-init leaves it nothing to change |
| `ClusterClient.GenerateMasterAuthorizedNetworksConfig` | pkg/clients/cluster/cluster.go:377-396 | writes only the authorized networks, blocks filled by index |
| `ClusterClient.GenerateNetworkConfig` | pkg/clients/cluster/cluster.go:399-414 | writes only the network config |
| `ClusterClient.GeneratePrivateClusterConfig` | pkg/clients/cluster/cluster.go:443-457 | writes only the private cluster config, endpoints kept |
| `ClusterClient.GenerateResourceUsageExportConfig` | pkg/clients/cluster/cluster.go:470-491 | writes only the usage export config |
| `ClusterClient.LateInitializeSpec` | pkg/clients/cluster/cluster.go:648-954 | panics exactly when the model says so, and otherwise leaves the late-initialised spec |
| `ClusterClient.CheckForBootstrapNodePool` | pkg/clients/cluster/cluster.go:1250-1258 | true exactly when some non-nil node pool has the bootstrap name |
| `ClusterClient.FirstFailing` | pkg/clients/cluster/cluster.go:1278-1355 | the comparisons in order find the first failing one; the observation gets an empty network config exactly when that comparison is reached and there was none |
| `ClusterClient.IsUpToDate` | pkg/clients/cluster/cluster.go:1265-1356 | up to date exactly when no pool is left and nothing differs; otherwise the update is for the first difference and does not dereference nil |
| `CloudSqlReconcile.UpToDateIffHonoured` | pkg/clients/cloudsql/cloudsql.go:178-323 | after late initialisation, up to date means name equal, ACL kinds standard, and every value the user set observed, a smaller disk counting while auto-resize is on |
| `CloudSqlReconcile.UpToDateByField` | pkg/clients/cloudsql/cloudsql.go:312-323 | the whole comparison fails exactly when the name or one of 29 settings drifts |
| `CloudSqlReconcile.DriftIsDisagreement` | pkg/clients/cloudsql/cloudsql.go:40-141 | per setting, drift after late-init is disagreement with the user or a foreign ACL kind |
| `CloudSqlReconcile.LateAddsDriftIff` | pkg/clients/cloudsql/cloudsql.go:178-308 | late-init makes a settled setting drift exactly when it meets a foreign ACL kind |
| `CloudSqlReconcile.LateAddsNoDrift` | pkg/clients/cloudsql/cloudsql.go:178-308 | with standard kinds, what differs after late-init differed before |
| `CloudSqlReconcile.ForeignAclIsDrift` | pkg/clients/cloudsql/cloudsql.go:258-267 | a foreign kind is drift after late-init, and with no IP config in the spec it was none before |
| `CloudSqlReconcile.WritingSettles` | pkg/clients/cloudsql/cloudsql.go:40-141 | the overlaid instance is up to date, and after the next late-init exactly when its ACL kinds are standard |
| `CloudSqlReconcile.RequestSettles` | pkg/controller/database/cloudsql.go:173-187 | the instance an update or create sends, observed back, needs no update |
| `CloudSqlPatch.OneUpdateSettles` | pkg/controller/database/cloudsql.go:105-187 | from every spec and instance with settings, the patch made of the request leaves the instance up to date at the next observation exactly when the user asked for no zero value that the request omits |
| `CloudSqlPatch.OneUpdateAddsSettings` | pkg/controller/database/cloudsql.go:105-187 | the same for an instance without settings |
| `CloudSqlPatch.PatchIsOverlay` | pkg/controller/database/cloudsql.go:173-187 | under the same condition, and only then, the patched instance is the spec laid over the observed instance, foreign ACL kinds rewritten |
| `CloudSqlPatch.PatchDriftsIff` | pkg/controller/database/cloudsql.go:173-187 | per setting, the patch leaves drift exactly for a zero value that the request omits |
| `CloudSqlPatch.PatchHonoursIff` | pkg/controller/database/cloudsql.go:173-187 | per setting, the patch honours the spec exactly otherwise |
| `CloudSqlPatch.PatchIsStep` | pkg/controller/database/cloudsql.go:173-187 | such a patch is one of the steps of the runs in DiskNeverShrinks |
| `CloudSqlReconcile.AdoptionIsSilent` | pkg/clients/cloudsql/cloudsql.go:178-323 | importing an instance with nothing set issues no update exactly when it has settings and its ACL kinds are standard |
| `CloudSqlReconcile.AdoptionIsComplete` | pkg/clients/cloudsql/cloudsql.go:178-308 | what adopting an instance writes into an empty spec, laid over nothing, is that instance again but for what only the service sets |
| `CloudSqlReconcile.LateSaysItAll` | pkg/clients/cloudsql/cloudsql.go:178-308 | any late-initialised spec by itself says what it says together with the observation |
| `CloudSqlReconcile.OverlayForgets` | pkg/clients/cloudsql/cloudsql.go:40-141 | outside nested structs the generated instance depends on the spec only |
| `CloudSqlReconcile.UnsetStructIsKept` | pkg/clients/cloudsql/cloudsql.go:40-141 | a struct, flag list or ACL that the spec does not have is kept |
| `CloudSqlReconcile.UserValuesSurvive` | pkg/clients/cloudsql/cloudsql.go:178-308 | over any sequence of observations user values stay, except that a disk size may rise with auto-resize on |
| `CloudSqlReconcile.LateSpecIsIdempotent` | pkg/clients/cloudsql/cloudsql.go:178-308 | a second late initialisation from the same observation changes nothing |
| `CloudSqlReconcile.RequestShrinksIff` | pkg/clients/cloudsql/cloudsql.go:206-218 | a request asks for a smaller disk exactly when auto-resize is off and the user set a smaller size |
| `CloudSqlReconcile.RequestedDisk` | pkg/clients/cloudsql/cloudsql.go:206-218 | the requested size: the observed one when the user set none, or less with auto-resize on; otherwise the user's |
| `CloudSqlReconcile.DiskNeverShrinks` | pkg/clients/cloudsql/cloudsql.go:206-218 | over every run of growth, edits and reconciles with auto-resize switched on by the user, or left alone and on, no request asks for less than observed and the disk never shrinks |
| `CloudSqlClient.GenerateDatabaseInstance` | pkg/clients/cloudsql/cloudsql.go:40-141 | leaves the overlay of the spec over the prior instance |
| `CloudSqlClient.FillAcl` | pkg/clients/cloudsql/cloudsql.go:105-115 | the loop writes one standard entry per given one, or keeps the prior list |
| `CloudSqlClient.LateInitializeDisk` | pkg/clients/cloudsql/cloudsql.go:206-218 | an unset size becomes the observed one; a set one is raised to it exactly when it is smaller and auto-resize is on, by the user or by observation |
| `CloudSqlClient.LateInitializeSpec` | pkg/clients/cloudsql/cloudsql.go:178-308 | leaves the late-initialised spec |
| `CloudSqlClient.IsUpToDate` | pkg/clients/cloudsql/cloudsql.go:312-323 | true exactly when the overlay changes nothing |
| `CloudSqlClient.Observe` | pkg/controller/database/cloudsql.go:105-142 | the stored spec is the late-initialised one; the report is true exactly when the user's spec from before is honoured; panics exactly without settings |
| `NetworkClient.UpToDateIffHonoured` | pkg/clients/network/network.go:78-105 | after late-init, up to date means name equal and user honoured; late-init never changes whether to switch |
| `NetworkClient.Converges` | pkg/controller/compute/network.go:149-181 | from every state that asks for no other name, description or automatic subnets on a custom network: at most a switch to custom mode and then a patch of the routing config, and a patch settles |
| `NetworkClient.SettlesOnlyIfAttainable` | pkg/controller/compute/network.go:149-181 | from any other state no run settles; a settled end honours the first spec |
| `NetworkClient.ReachesSettled` | pkg/controller/compute/network.go:149-181 | from an attainable state there is a run that settles |
| `NetworkClient.Progress` | pkg/controller/compute/network.go:149-181 | a network that is not up to date has a next update |
| `NetworkClient.AdoptionIsSilent` | pkg/clients/network/network.go:78-105 | importing a network with nothing set issues no update |
| `NetworkClient.LateSaysItAll` | pkg/clients/network/network.go:78-87 | a late-initialised spec by itself says what it says together with the observation; an adopted network can be rebuilt from it |
| `NetworkClient.WritingSettles` | pkg/clients/network/network.go:36-52 | what the overlay produces is up to date, also after the next late-init |
| `NetworkClient.GenerateNetwork` | pkg/clients/network/network.go:36-52 | leaves the overlay of the spec |
| `NetworkClient.LateInitializeSpec` | pkg/clients/network/network.go:78-87 | leaves the late-initialised spec |
| `NetworkClient.IsUpToDate` | pkg/clients/network/network.go:91-105 | both results, each exactly characterised |
| `ComputeUrls.EquatesIff` | pkg/clients/gcp.go:234-257 | with a qualified side the base names decide, otherwise string equality |
| `ComputeUrls.OnlyV1IsQualified` | apis/compute/v1beta1/doc.go:25-25 | URLs of version 1 of the API are qualified, those of another version are not |
| `ComputeUrls.BaseIsLastComponent` | pkg/clients/gcp.go:251-256 | the base name is the last component, whatever slashes follow; a slash for slashes only, a dot for nothing |
| `ComputeUrls.QualifiedEquatesIff` | pkg/clients/gcp.go:234-257 | two qualified URLs are equal exactly when their last components are |
| `ComputeUrls.UnqualifiedEquatesIff` | pkg/clients/gcp.go:234-257 | the same for a qualified URL and an unqualified path |
| `ComputeUrls.EquatesIsSymmetric` | pkg/clients/gcp.go:234-257 | reflexive and symmetric |
| `ComputeUrls.EquatesComposes` | pkg/clients/gcp.go:234-257 | two steps compose exactly when an end is qualified or the ends are equal, so on qualified URLs it is an equivalence |
| `ComputeUrls.EquatesIsNotTransitive` | pkg/clients/gcp.go:234-257 | for all u, v, w and n: the unqualified u/n and v/n both equal the qualified w/n and, when different, not each other |
| `ComputeUrls.SuffixEquates` | pkg/clients/gcp.go:234-257 | an unqualified path suffix equals every qualified URL it ends |
| `FirewallClient.SuffixNamedNetworkIsUpToDate` | pkg/clients/firewall/firewall.go:129-140 | a spec that names its network by any path suffix of the observed URL is up to date |
| `FirewallClient.ForeignNetworkIsUpToDate` | pkg/clients/firewall/firewall.go:129-140 | naming another qualified network is up to date exactly when its last component is the observed one |
| `FirewallClient.UpToDateIffDescribed` | pkg/clients/firewall/firewall.go:129-140 | up to date exactly when name, texts, priority, six lists, direction, disabled flag, both rule lists and log config are those of the spec |
| `FirewallClient.OverlayHasSpec` | pkg/clients/firewall/firewall.go:36-74 | the generated firewall has every value of the spec, each rule in its own list |
| `FirewallClient.DeniedAdoption` | pkg/clients/firewall/firewall.go:116-124 | with no deny rules in the spec, adopting observed ones and reading them back goes well exactly when there are as many allow rules, and then copies exactly |
| `FirewallClient.FillRules` | pkg/clients/firewall/firewall.go:49-67 | the loop copies every rule, or dereferences the first nil one |
| `FirewallClient.GenerateFirewall` | pkg/clients/firewall/firewall.go:36-74 | panics exactly on a nil rule, otherwise leaves the overlay |
| `FirewallClient.IsUpToDate` | pkg/clients/firewall/firewall.go:129-140 | true exactly when the observed firewall is the one the spec describes, every string compared as a URL |
| `CryptoKeyClient.MaskIsExact` | pkg/clients/cryptokey/cryptokey.go:113-155 | the mask lists a field exactly when it differs |
| `CryptoKeyClient.EmptyMaskIff` | pkg/clients/cryptokey/cryptokey.go:113-155 | the mask is empty exactly when labels, purpose, period, time and template are those of the spec |
| `CryptoKeyClient.OverlayIsDescribed` | pkg/clients/cryptokey/cryptokey.go:43-55 | the generated key has each value of the spec in its own field |
| `CryptoKeyClient.MaskNames` | pkg/clients/cryptokey/cryptokey.go:127-149 | a mask of one field is the API's name of that field |
| `CryptoKeyClient.MaskListsOnce` | pkg/clients/cryptokey/cryptokey.go:113-155 | no field is listed twice |
| `CryptoKeyClient.PatchSettlesExactly` | pkg/clients/cryptokey/cryptokey.go:113-155 | after patching any set of fields, what is left differing is exactly what was left out, so no smaller mask settles |
| `CryptoKeyClient.ParseUndoesJoin` | pkg/clients/cryptokey/cryptokey.go:151-153 | the joined mask string splits back into exactly the masked fields |
| `CryptoKeyClient.UpdateSettles` | pkg/clients/cryptokey/cryptokey.go:113-155 | patching with the mask, as read back from its string, leaves an empty mask and the key that the spec describes |
| `CryptoKeyClient.GenerateCryptoKeyInstance` | pkg/clients/cryptokey/cryptokey.go:43-55 | leaves the key that the spec describes, with the template created when missing |
| `CryptoKeyClient.IsUpToDate` | pkg/clients/cryptokey/cryptokey.go:113-155 | true exactly when the key is the one the spec describes; otherwise the joined exact mask; panics exactly on a template the observation lacks |
| `BucketPolicy.BindInserts` | pkg/clients/bucketpolicy/bucketpolicy.go:90-111 | binding adds exactly the pair to the granted pairs, for every policy |
| `BucketPolicy.UnbindRemoves` | pkg/clients/bucketpolicy/bucketpolicy.go:115-135 | unbinding touches no other pair, and removes the pair exactly when it is listed once in the first binding for the role, or not at all |
| `BucketPolicy.UnbindMayLeaveGranted` | pkg/clients/bucketpolicy/bucketpolicy.go:115-135 | with a conditional and an unconditional binding the pair stays granted |
| `BucketPolicy.EditsOnlyRole` | pkg/clients/bucketpolicy/bucketpolicy.go:90-135 | bindings of other roles, conditions and order are untouched |
| `BucketPolicy.BindKeepsTidy` | pkg/clients/bucketpolicy/bucketpolicy.go:90-111 | distinct roles without repeated members stay so under binding |
| `BucketPolicy.UnbindKeepsTidy` | pkg/clients/bucketpolicy/bucketpolicy.go:115-135 | and under unbinding |
| `BucketPolicy.EditRefines` | pkg/clients/bucketpolicy/bucketpolicy.go:90-135 | one edit is insert or remove on a plain set, and reports true exactly when the set changed |
| `BucketPolicy.EditsRefine` | pkg/clients/bucketpolicy/bucketpolicy.go:90-135 | every run of edits is the same run on a plain set, and each edit of it reports true exactly when it changes that set |
| `BucketPolicy.EditsTouchOnlyNamedRoles` | pkg/clients/bucketpolicy/bucketpolicy.go:90-135 | over every run, from every policy: old bindings keep place, role and condition, and their members unless an edit names the role; new ones are unconditional and for a named role |
| `BucketPolicy.BindSurvives` | pkg/clients/bucketpolicy/bucketpolicy.go:90-135 | from every policy, a bound pair stays granted until that pair is unbound |
| `BucketPolicy.BindRoleToMember` | pkg/clients/bucketpolicy/bucketpolicy.go:90-111 | in place: version and bindings change as modelled, and nothing else |
| `BucketPolicy.UnbindRoleFromMember` | pkg/clients/bucketpolicy/bucketpolicy.go:115-135 | in place: only member lists change, as modelled |
| `PolicyStore.StepLinearises` | pkg/controller/storage/bucketpolicymember.go:111-159 | every get, set and refusal keeps the store invariant and edits bindings and log alike |
| `PolicyStore.Linearisable` | pkg/controller/storage/bucketpolicymember.go:111-159 | from every policy, with any clients in any interleaving, the stored bindings are those of the accepted edits in sequence; from a tidy one they grant what a plain set does |
| `PolicyStore.NoBindIsLost` | pkg/controller/storage/bucketpolicymember.go:111-159 | from every policy, an accepted bind stays granted unless that pair is later unbound |
| `PolicyStore.OtherRolesSurvive` | pkg/controller/storage/bucketpolicymember.go:111-159 | bindings for roles that no accepted edit names stay as they were, and all conditions stay |
| `PolicyComparison.SameIffAlikePerRole` | pkg/clients/bucketpolicy/bucketpolicy.go:76-81 | for all policies: same exactly when role by role the bindings agree in order, condition and multiset of members |
| `PolicyComparison.BucketPoliciesSameIff` | pkg/clients/bucketpolicy/bucketpolicy.go:76-81 | two whole policies are the same exactly when, versions aside, all else is equal and the bindings are alike role by role |
| `PolicyComparison.SameIffSameMap` | pkg/clients/bucketpolicy/bucketpolicy.go:76-81 | with distinct roles: same exactly when both map each role to the same condition and multiset of members |
| `PolicyComparison.SameUnderReordering` | pkg/clients/bucketpolicy/bucketpolicy.go:76-81 | for all policies, reordering members, and bindings within the order of each role, does not matter |
| `PolicyComparison.SameInAnyOrder` | pkg/clients/bucketpolicy/bucketpolicy.go:76-81 | with distinct roles, bindings and members may both come in any order |
| `Sorting.SortIsStable` | pkg/clients/bucketpolicy/bucketpolicy.go:79-80 | the sort orders by key and keeps equal keys in order |
| `Sorting.SortsAgree` | pkg/clients/bucketpolicy/bucketpolicy.go:79-80 | two sorted lists are equal exactly when they agree key by key |
| `Sorting.SortedStringsAgree` | pkg/clients/bucketpolicy/bucketpolicy.go:80-80 | two string lists sort alike exactly when they are equal as multisets |
| `IamPolicies.BucketUpToDateIff` | pkg/clients/bucketpolicy/bucketpolicy.go:62-73 | up to date exactly when, role by role, the policy lists the spec's bindings: same member multiset, a condition exactly when the spec has one, and its four texts |
| `IamPolicies.KmsUpToDateIff` | pkg/clients/cryptokeypolicy/cryptokeypolicy.go:74-93 | the same, and audit configs agree with exempted members as multisets |
| `IamPolicies.GeneratedPolicyIsSpec` | pkg/clients/cryptokeypolicy/cryptokeypolicy.go:41-70 | generated policies have the spec's bindings one for one with their conditions, its audit configs and version 3, and keep the rest |
| `IamPolicies.AuditsAgree` | pkg/clients/cryptokeypolicy/cryptokeypolicy.go:88-93 | nested audit configs compare equal exactly when services, log types and member multisets agree in order |
| `IamPolicies.KmsPoliciesSameIff` | pkg/clients/cryptokeypolicy/cryptokeypolicy.go:88-93 | two whole policies are the same exactly when etags, audit configs and, role by role, bindings agree; the version does not matter |
| `IamPolicies.WritingSettles` | pkg/clients/cryptokeypolicy/cryptokeypolicy.go:41-93 | what is written is up to date, for every spec and prior policy |
| `IamPolicies.WrittenKmsPolicySettles` | pkg/clients/cryptokeypolicy/cryptokeypolicy.go:41-93 | also in whichever order bindings and members come back |
| `IamPolicies.GenerateBucketPolicyInstance` | pkg/clients/bucketpolicy/bucketpolicy.go:41-58 | the loops leave the spec's bindings one for one, with members and conditions, and the version |
| `IamPolicies.GenerateCryptoKeyPolicyInstance` | pkg/clients/cryptokeypolicy/cryptokeypolicy.go:41-70 | the nested loops leave the spec's bindings with their conditions, its audit configs and the version |
| `IamPolicies.IsCryptoKeyPolicyUpToDate` | pkg/clients/cryptokeypolicy/cryptokeypolicy.go:74-85 | true exactly when the policy lists the spec's bindings role by role, conditions included, and its audit configs |
| `BucketLabels.DiffAchieves` | apis/storage/v1alpha3/types.go:671-700 | sets and deletes are disjoint and turn the current labels into exactly the desired ones, whichever is applied first |
| `BucketLabels.DiffIsLeast` | apis/storage/v1alpha3/types.go:671-700 | no patch that achieves this deletes less or sets other values |
| `BucketLabels.CopyLabels` | apis/storage/v1alpha3/types.go:690-697 | in every iteration order the loops compute that patch, and consume the caller's map |
| `BucketAttrs.RetentionReturnsIff` | apis/storage/v1alpha3/types.go:313-335 | with int64 wrap-around and any rounding of fractions, seconds return unchanged exactly up to 9223372036, which covers 0 to 3155673600 |
| `BucketAttrs.RoundTripIff` | apis/storage/v1alpha3/types.go:625-668 | converting to storage form and back is the identity exactly on the normal form |
| `BucketAttrs.NormaliseIsIdempotent` | apis/storage/v1alpha3/types.go:625-668 | the round trip always ends in the normal form |
| `BucketAttrs.StorageRoundTrip` | apis/storage/v1alpha3/types.go:625-668 | the other way round: exactly when it loses nothing |
| `BucketAttrs.RulesElementwise` | apis/storage/v1alpha3/types.go:262-287 | the rules come back one for one, with only a missing date set to the zero time |
| `BucketAttrs.RulesKeepTheirParts` | apis/storage/v1alpha3/types.go:199-224 | each conversion keeps every part of a rule in its place |
| `BucketAttrs.AttrsKeepTheirParts` | apis/storage/v1alpha3/types.go:541-668 | both conversions of the whole record keep every part in its place; which parts become nil or zero |
| `BucketAttrs.RetentionIsSent` | apis/storage/v1alpha3/types.go:323-335 | an admitted period is sent as that many times 10^9 nanoseconds |
| `BucketAttrs.NewLifecycle` | apis/storage/v1alpha3/types.go:262-273 | the loop converts every rule, nil and empty becoming nil |
| `BucketAttrs.CopyToLifecycle` | apis/storage/v1alpha3/types.go:276-287 | the same in the other direction |
| `BucketAttrs.ConvertCorsList` | apis/storage/v1alpha3/types.go:467-489 | the list comes back unchanged, nil as nil and empty as empty |
| `ConnectionClient.SameRangesIff` | pkg/clients/connection/connection.go:57-59 | equal exactly when both are nil or both are lists with the same multiset of ranges |
| `ConnectionClient.UpdateStatus` | pkg/clients/connection/connection.go:71-90 | no peering: unavailable; otherwise the last peering of that name in a known state decides; with none the condition stays |
| `ConnectionClient.LastDecidingExists` | pkg/clients/connection/connection.go:80-89 | the two cases of UpdateStatus are complete |

## Left out

- Cluster attributes that GenerateCluster writes and IsUpToDate never compares: CIDR, description, IP allocation, authenticator groups, confidential nodes, pod limits, alpha and TPU flags, version, fingerprint, network, subnetwork and name. They have no part in the loop.
- ForceSendFields and the omission of zero values from requests, except for Cloud SQL: elsewhere a wish for a zero value counts as delivered.
- The state of a resource that holds back an update while it is being created or reconciled: a step of the model is a round in which the update is issued.
- Errors of copystructure.Copy, of the Kubernetes client and of the API calls: a failed call leaves the state as it was and is not a step.
- Sharing of nested structs and slices between spec, copy and observation: they are values here. The one write through the observation, an empty network config, is modelled.
- Nil entries in Cloud SQL flag and ACL lists, in IAM bindings and in audit configs; they are modelled for cluster limits and CIDR blocks, node pools and firewall rules.
- GenerateObservation, client configs and connection secrets: field copying only. Where the Cloud SQL one dereferences nil settings, Observe does.
- Late initialisation of crypto keys and of the other firewall fields, and service account policies, DNS, addresses, key rings and memory stores: the same shapes with fewer cases.
- The merge of observed bucket attributes into the spec by mergo, and the default object ACL of a bucket, which is not converted both ways.
- ResolveReferences, provider credentials and the controllers' wiring.
- BucketAttrs.RoundTripIff: rounds fractions of a second towards zero where Duration.Seconds goes through a float; RetentionReturnsIff covers both neighbours, and the API only deals in whole seconds.
