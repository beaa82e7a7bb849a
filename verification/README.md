# A verified model of the Kafka charm

This project models the parts of the Kafka machine and Kubernetes charm in which several units, hooks or
stores have to agree, and proves what holds of them over all inputs and all runs.

* **TLS rotation between the broker and the controller application.** `Truststore` specifies what keytool
  and the charm do to one unit's stores; `TruststoreManager` is the class that changes them in place.
  `Rotation` is the protocol as steps over two applications, their databags and each unit's disk and
  process; `RotationHandlers` holds the event handlers, proved to be those steps, and `RotationHooks` says what
  single hooks leave in databags and stores. Properties of whole runs:
  `RotationSafety` and `RotationGate` (what an open gate means), `RotationCleanup` and `RotationDrops` (dropping
  old CAs), `RotationTrust` and `RotationHaste` (mutual trust throughout a rotation), `RotationProgress`, `RotationFinish`,
  `RotationDeadlock` and `RotationWays` (exactly when a rotation can finish). `RotationPremises` gives runs in
  which their conditions fail.
* **Client credentials and access rules.** `Acls` (rules, and the commands that change them and may fail),
  `AclListing` (the parser of the listing, on strings), `Clients` (recorded passwords against cluster users).
* **Relation data.** `RelationData` (databag plus secrets as one dictionary, version 0 of the data
  interfaces), `RequestEvents` and `Responses` (diffs, events and responses, version 1), `SecretLabels`.
* **Smaller cores.** `PrincipalRules`, `Ports`, `LogDirs`, `Capacity`, over the string functions of `Strings`.

Where the source changes things step by step, a method does the same and its postcondition equates the new
state with a function of the old one, or with a relation between the two; the properties are proved of that
function or relation.

## What turned out

* *Clean-up.* Dropping temporary CAs is safe in every run in which leadership does not go to a unit that lags
  behind the bundle its application has already offered (`StatusNeverDropsCaInUse`). Without that premise, an
  `update_status` hook drops a CA in use if and only if its clean-up is due, the remote offer is of the first
  generation while a remote process presents the second, and the store holds its new CA (`StatusDropsExactly`);
  `ElectionDropsCa` gives such a run, for any plan.
* *Gate.* When the gate is open for a unit, every remote unit had all CA certificates of its bundle loaded at one
  moment, at which it had published exactly what it had loaded (`GateOpensOnLoadedTrust`, in every run); in every
  allowed run from rest, both applications rotating or not, it has the whole new bundle loaded and published
  now (`GateMeansLoadedNow`).
* *Trust.* Mutual trust breaks at restarts only, those that go ahead too early (`TrustBreaksExactly`). There are
  three ways. A queued restart is not asked about the gate (`QueuedRestartBypassesGate`). The brokers' exemption
  when both applications rotate skips it (`ExemptionBypassesGate`). And an open gate looks after the unit's own new
  CA only: a unit that gets its certificate when the remote offer has already moved on is installed from that offer
  alone, and loses the remote side's old CA, under which processes may still present (`OpenGateLosesOldCa`). A
  restart that the gate has nothing against breaks trust if and only if the unit has met such a certificate event,
  the remote side's old CA is being retired, and some remote process still presents it
  (`GateRestartBreaksExactly`); over whole runs in which no restart goes past the gate, trust holds at every moment
  if and only if there is no such restart (`TrustHoldsExactly`). When one application rotates, there is none
  (`NoUnitLosesTrust`).
* *Finishing.* The broker side may go first once the controller application has announced its rotation.
  `ClearableExactly` says from which states the hooks of the two charms can clear all flags, whatever is queued,
  loaded or announced. A controller that receives its new certificate before its leader waits for the leader
  (`EarlyControllerWaits`); a broker in that place can go once the controllers announce a rotation
  (`AnnouncedExactly`). The loss of the certificates relation does not announce one, so that two leaders losing
  theirs block each other for good, as far as the charms' own hooks go (`BothRelationsBrokenDeadlocks`).
* *Access rules.* The listing does not show pattern types. Removing a user's rules leaves none exactly when
  all of them read back as themselves (`ClearedExactly`); a rule for a topic pattern, which the charm itself
  creates, never does (`PatternStays`).
* *Orphans.* A client that has left is rid of its user after a pass that goes through if and only if it was
  recorded or had none (`DepartedAreGone`). `OrphanArises` is a run that leaves one: a hook adds the user, fails at
  the rules, and so records nothing; the client leaves. Over histories, a client that came and left has a user
  afterwards exactly when it was never recorded and some pass over it was cut short after adding the user
  (`OrphanExactly`).
* *Requests.* A request that keeps its resource is announced once by the hook that stores its snapshot, and once
  more by each hook before it that is refused after it got to the request: the rollback takes the snapshot back but
  not the event (`AnnouncedExactly` of `RequestEvents`; `RefusalRepeats` gives two hooks that announce it twice).
  A request that arrives together with its client certificate is never announced as a resource
  request when client certificates are enabled (`CertificateHidesResource`). Permissions that are altered cause no
  event, as the check before refuses them (`EventsExactly`).
* *Reading several fields.* A field that is in the databag, while its group's secret holds others of the fields
  asked for but not this one, is found alone and missed among them (`FetchedAgrees`); states in which each secret
  field has one place do not show the difference (`FetchedWhole`; `MissedTogether` gives a state that does).
* *Repeated ids.* Responses set at once and one by one differ for a repeated id exactly when its last response does
  not have the effect of all of them added up (`AgreesExactly`).
* *Extra listeners.* The configuration check asks for rising ports more than 100 apart, not merely for ports
  100 apart as its message says, and its uniqueness check cannot fire (`CheckExtraListeners`). Base ports
  20001 to 20004 can meet a node port's listener (`PortsApart`, and `LowBaseClashes` for one that does).
* *Drained storages.* The check matches broker ids by prefix: a yes is right, and a no may be due to another
  broker (`DrainedMeans`, and `PrefixMisleads` for brokers 1 and 10).

## Modelling choices

Certificates are identities with a leaf or CA kind; distinct certificates are taken to render as distinct
fingerprints. The keytool aliases are a datatype. Modification and restart times come from a logical clock
that each step advances. A databag write is visible to the steps that follow. A delivered certificate differs
from the stored one, as the certificates library reports changed certificates only; a unit's certificate
differs from its CA. A hook that fails rolls its databag writes back, while what it did to the Kafka cluster
stays.

## Model

| member | source | states |
|---|---|---|
| Truststore.BundleShape | src/core/models.py:889-897 | a bundle holds certificate, CA and chain once each, certificate and CA first |
| Truststore.PassFixedPoint | src/managers/tls.py:265-283 | a peer-cluster pass changes nothing exactly when the whole bundle is trusted |
| Truststore.PassAdds | src/managers/tls.py:265-283 | a pass brings in certificates of the bundle only and leaves the keystore alone |
| Truststore.PassKeeps | src/managers/tls.py:265-283 | a pass leaves every alias without the `new-` prefix as it was |
| Truststore.PassOrigin | src/managers/tls.py:271-283 | every entry after a pass was there before or is a missing bundle certificate under its own index |
| Truststore.PassFilesExact | src/managers/tls.py:265-283 | every entry a pass writes has its file, no other file changes, and the store is newer exactly when something was written |
| Truststore.FreshPass | src/managers/tls.py:265-283 | one pass is enough for a store without peer-cluster aliases |
| Truststore.FirstPass | src/managers/tls.py:265-283 | one pass is enough, and forgets nothing, for a store without `new-` aliases |
| Truststore.PassBringsHome | src/managers/tls.py:271-283 | a pass that changes the store brings more certificates to their own index, although it may overwrite others |
| Truststore.PassesConverge | src/managers/tls.py:265-283 | repeated passes reach a store that trusts the whole bundle and that no pass changes |
| Truststore.AstrayBound | src/managers/tls.py:265-283 | at most bundle-length passes change the store |
| Truststore.PassesKeep | src/managers/tls.py:265-283 | no number of passes loses an entry outside the `new-` aliases |
| Truststore.RebuildExact | src/managers/tls.py:586-593 | the rebuilt store is exactly own bundle plus peer-cluster bundle, with no temporary alias, so that the trigger is gone |
| Truststore.ConfigureExact | src/managers/tls.py:285-294 | writing all TLS files into an empty directory trusts own and peer-cluster bundle |
| Truststore.KeepExact | src/managers/tls.py:324-341 | importing the previous bundle under `old-` aliases adds exactly it |
| Truststore.ImportExact | src/managers/tls.py:296-341 | an import writes missing files, adds missing aliases from the files that are there, and makes the store newer exactly when it adds one |
| Truststore.InstallExact | src/events/tls.py:207-215 | after a certificate event the store trusts own, peer-cluster and kept bundle, each under its own aliases |
| TruststoreManager.TlsManager.UpdateCert | src/managers/tls.py:372-378 | an entry is replaced |
| TruststoreManager.TlsManager.ImportBundle | src/managers/tls.py:324-341 | the loop refines the import on values: missing files and missing aliases only |
| TruststoreManager.TlsManager.UpdatePeerClusterTrust | src/managers/tls.py:265-283 | the loop refines the pass on values, with the trusted set read once |
| TruststoreManager.TlsManager.SetChain | src/managers/tls.py:197-211 | all files of the bundle are rewritten |
| TruststoreManager.TlsManager.Configure | src/managers/tls.py:285-294 | refines the configuration on values |
| TruststoreManager.TlsManager.Reinstall | src/events/tls.py:207-215 | refines the installation on values |
| TruststoreManager.TlsManager.RebuildTruststore | src/managers/tls.py:586-593 | refines the rebuild on values |
| TruststoreManager.TlsManager.HasTemporaryAliases | src/managers/tls.py:685-692 | whether some alias has the `old-` or `new-` prefix |
| RotationHandlers.Charm.TrustedByOurApp | src/core/cluster.py:682-689 | the accumulated intersection is what every unit has published |
| RotationHandlers.Charm.PeerClusterAppTrustsNewBundle | src/managers/tls.py:548-567 | the loop answers whether the remote application trusts all CA certificates of the unit's bundle |
| RotationHandlers.Charm.BothAppsTrustNewBundle | src/managers/tls.py:569-584 | the loop answers whether both applications trust all CA certificates of both bundles |
| RotationHandlers.Charm.HeldAtGate | src/events/tls.py:389-407 | a rotating unit waits unless the other side trusts its bundle or the broker side may go first |
| RotationHandlers.Charm.UpdatePeerTruststoreState | src/events/broker.py:525-550 | the handler refines the publication step, forced or guarded by the times |
| RotationHandlers.Charm.ConfigChanged | src/events/broker.py:268-299 | the handler is the protocol's pass |
| RotationHandlers.Charm.CertificateAvailable | src/events/tls.py:186-235 | the handler is the protocol's certificate step |
| RotationHandlers.Charm.TlsRelationBroken | src/events/tls.py:154-184 | the handler is the protocol's step for a lost relation, which does not announce the rotation |
| RotationHandlers.Charm.RestartBroker | src/charm.py:140-160 | the handler is the protocol's restart: load, then publish if healthy |
| RotationHandlers.Charm.UpdateStatus | src/events/broker.py:301-317 | the handler is the protocol's clean-up step |
| Rotation.StepBundles | src/events/tls.py:186-219 | only certificate events change a bundle, and only the own one; other hooks never raise a flag |
| RotationHooks.StatusCleans | src/events/broker.py:301-317 | after an update-status hook whose pass leaves both bundles within both trusts no `old-` or `new-` entry is left, and a retired CA is gone; otherwise the store keeps them |
| RotationHooks.StepOffers | src/events/broker.py:415-435 | every step but an election keeps the offer the leader's own bundle |
| RotationHooks.RunOffers | src/events/broker.py:415-435 | so it is in every run without elections |
| RotationHooks.PassWrites | src/events/broker.py:268-299 | what a pass writes: the offer at a broker leader that may pass and nowhere else, the flags, the published trust, the application's trust; and when it asks for a restart |
| RotationHooks.CertificateWrites | src/events/tls.py:186-235 | what a delivered certificate writes: bundle, flag, at the leader the offer and the announcement, and no wish to restart |
| RotationHooks.CertificateInstalls | src/events/tls.py:207-215 | and the store: new bundle, remote offer, and the bundle before exactly if the CA is another one |
| RotationHooks.RestartWrites | src/charm.py:140-160 | what a restart loads, and what it publishes and forgets only if the workload is healthy |
| RotationHooks.BrokenWrites | src/events/tls.py:154-184 | what a lost relation writes: bundle, flag, at the leader the offer; and the store afterwards |
| RotationHooks.LostRelationReaches | src/events/tls.py:375-381 | after the leader has lost its relation, a remote unit's pass brings in every certificate of the new bundle that it did not have |
| RotationHooks.LostRelationAdopted | src/events/tls.py:375-381 | and within the plan every CA certificate of it |
| RotationSafety.StepCoherent | src/managers/tls.py:285-294 | in every run keystore and bundle files follow the databag's bundle, and a process newer than the truststore has loaded it |
| RotationSafety.PublishesLoaded | src/events/broker.py:525-550 | what is published is what is loaded, on the forced and the guarded path |
| RotationSafety.PublishedWasLoaded | src/events/broker.py:525-550 | in every run there is one moment at which the unit had loaded, and published, exactly the set it has published now |
| RotationSafety.TrustWasLoaded | src/core/cluster.py:682-704 | in every run each unit had all that its application trusts loaded at one moment, at which it had published what it had loaded |
| RotationSafety.GateOpensOnLoadedTrust | src/events/tls.py:389-407 | in every run, when the gate is open every remote unit had the whole bundle's CA certificates loaded at one moment, at which it had published what it had loaded |
| RotationGate.StepTelling | src/events/broker.py:525-550 | kept by every allowed step: what a unit has published of the other side's new CA stays on its disk and loaded, and the application's trust in it stays published |
| RotationGate.GateMeansLoadedNow | src/events/tls.py:389-407 | in every allowed run, both applications rotating or not, an open gate means that every remote unit has the whole new bundle loaded and published now |
| RotationCleanup.RestIsPossible | src/events/broker.py:415-435 | every plan has applications at rest, of any size, so that the theorems from rest speak of something |
| RotationCleanup.PassStored | src/managers/tls.py:271-283 | what stands under which aliases during a rotation is kept by a pass |
| RotationCleanup.PassLosesNoAuthority | src/managers/tls.py:278-283 | during a rotation a pass never loses a CA certificate |
| RotationCleanup.StepSound | src/events/broker.py:301-317 | the invariant of all runs within the plan, whoever leads: a new CA is published only by restarted units and is in a remote store only once offered |
| RotationCleanup.StepSafe | src/events/broker.py:301-317 | with steady leadership also: offers never go back |
| RotationCleanup.RunSafe | src/events/broker.py:301-317 | the invariant holds in every allowed run |
| RotationDrops.StatusDropsExactly | src/events/broker.py:301-317 | in every run within the plan, whoever leads, exactly when an update-status hook drops a CA in use: clean-up due, remote offer of the first generation, a remote process presenting the second, and the new CA in the store |
| RotationDrops.StatusNeverDropsCaInUse | src/events/broker.py:301-317 | in every allowed run an update-status hook drops no CA in use from its store |
| RotationTrust.StepTrusting | src/events/tls.py:383-407 | the invariant of mutual trust is kept by every step |
| RotationTrust.NoUnitLosesTrust | src/events/tls.py:383-440 | while one application rotates, every process has loaded every CA the other side presents, at every moment |
| RotationTrust.TrustBreaksExactly | src/events/broker.py:230-241 | in every allowed run, a step breaks mutual trust if and only if it restarts a unit whose new CA some remote process has not loaded, or whose store lacks the old CA under which one presents |
| RotationHaste.OldKeptRun | src/events/tls.py:207-215 | in every allowed run, while a remote process presents the old CA: which of its certificates a unit's store holds, by whether a certificate event met the new offer |
| RotationHaste.GateRestartBreaksExactly | src/events/tls.py:389-407 | a restart of a unit for which the gate is open, or which presents its old CA, breaks trust if and only if a remote process presents an old CA that is being retired and the unit has met a certificate event with the new offer |
| RotationHaste.RestartByGate | src/events/tls.py:389-440 | where no certificate meets a queued restart and the exemption is not used, every restart is such a one |
| RotationHaste.TrustHoldsExactly | src/events/tls.py:383-440 | over such runs, one application rotating or both, all processes trust each other at every moment if and only if there is no restart of that kind |
| RotationProgress.StepBase | src/events/broker.py:525-550 | a unit with nothing to do has loaded and published its store, in every run |
| RotationProgress.AdoptAll | src/events/tls.py:375-381 | passes of any unit adopt the whole remote bundle, at the shut gate too |
| RotationProgress.SettleUnit | src/events/broker.py:268-299 | a unit that is not held back can rotate, adopt, restart and publish |
| RotationProgress.TellAll | src/events/broker.py:525-550 | an application whose units are free, have restarts queued or have just restarted can bring the other side's certificates into its trust |
| RotationWays.RestReady | src/events/broker.py:525-550 | applications at rest meet the premises of the theorems on finishing |
| RotationFinish.AnnouncedFinishes | src/core/cluster.py:731-762 | a controller leader that does not rotate unannounced lets some hooks clear all flags, if the other side can come to trust the rotating units, or the controllers announce theirs to waiting brokers |
| RotationDeadlock.UnseenStays | src/managers/tls.py:265-283 | a CA certificate that is neither offered nor trusted, and unknown to some remote unit, stays so whatever hooks run |
| RotationDeadlock.JamStays | src/events/tls.py:389-407 | in any state, units that wait for each other, or for their leaders, go on waiting whatever hooks run |
| RotationDeadlock.JamWaits | src/events/tls.py:389-407 | so no sequence of hooks clears their flags |
| RotationWays.AnnouncedExactly | src/core/cluster.py:731-762 | with the controller leader's rotation announced, all flags can be cleared if and only if no controller is ahead of its leader, and no broker is unless the controllers have a rotation to announce |
| RotationWays.ClearableExactly | src/events/tls.py:389-440 | for any state, restarts queued or just finished anywhere, all flags can be cleared if and only if the stated condition on databags and stores holds |
| RotationWays.RunsClearableExactly | src/events/tls.py:389-440 | the same for the states of all allowed runs from rest in which no rotating unit lags behind its leader |
| RotationWays.EarlyFollowerStrange | src/events/tls.py:186-219 | in such runs, a unit that receives its new certificate before its leader cannot come to be trusted by the other side until its leader moves |
| RotationWays.EarlyControllerWaits | src/events/tls.py:389-407 | so a controller that does keeps the rotation from finishing |
| RotationWays.AnnouncedRunsFinish | src/core/cluster.py:731-762 | in every run that announces, from both sides rotating at once too, nothing but units ahead of their leaders keeps the flags up |
| RotationWays.BothRelationsBrokenDeadlocks | src/events/tls.py:154-184 | two leaders that lose their certificates relation deadlock |
| RotationPremises.ElectionDropsCa | src/events/peer_cluster.py:107-116 | a run in which an election and the new leader's offer make a clean-up drop a CA in use |
| RotationPremises.QueuedRestartBypassesGate | src/events/broker.py:230-241 | a run in which a queued restart presents a CA nobody trusts |
| RotationPremises.ExemptionBypassesGate | src/events/tls.py:389-407 | a run of both applications in which a broker, let through first, presents a CA that no controller has loaded |
| RotationPremises.OpenGateLosesOldCa | src/events/tls.py:207-215 | a run of both applications in which a unit passes the open gate, restarts while it is open, and does not trust the remote process, whose old CA its new store lacks |
| Acls.UpdateExact | src/managers/auth.py:295-350 | on literal names the user's rules become the requested ones and nobody else's change |
| Acls.UpdateTwice | src/managers/auth.py:295-350 | a second update has nothing to do |
| Acls.OthersKept | src/managers/auth.py:341-350 | an update leaves other users alone, whatever the names |
| Acls.ClearedExactly | src/managers/auth.py:280-293 | removing all rules leaves none if and only if all are addressed by what the listing shows |
| Acls.FaithfulMeans | src/managers/auth.py:194-278 | those are the group prefixes and the literal topics that do not look like patterns |
| Acls.PatternStays | src/managers/auth.py:221-229 | the rule the charm creates for a topic pattern cannot be removed by it |
| Acls.WantedOwn | src/managers/auth.py:322-339 | the requested rules are the user's own |
| Acls.AddressMeans | src/managers/auth.py:194-278 | what a command addresses: groups and starred topic names as prefixes, the star cut off, other names as they are |
| Acls.ContainsMeans | src/managers/auth.py:323-328 | a role is asked for wherever its name stands in the string |
| Acls.RightsExact | src/managers/auth.py:322-350 | on literal names, exactly what a user may do after an update: by role, consumer group and permissions |
| Acls.AuthManager.UpdateUserAcls | src/managers/auth.py:295-350 | with commands failing anywhere, what is common to old and new rules stays, additions come first, and success is the full update |
| Acls.AuthManager.RemoveAllUserAcls | src/managers/auth.py:280-293 | with commands failing anywhere, only the user's rules go, and success is the full removal |
| AclListing.ParseAcls | src/managers/auth.py:62-95 | the loop is the fold over lines with remembered resource type, name and user |
| AclListing.CommaNeeded | src/managers/auth.py:67-81 | a value without a comma behind it is not found |
| AclListing.SearchJoined | src/managers/auth.py:67-81 | a search in a line given by its parts between commas finds the value in the first part that has the key |
| AclListing.HeaderFinds | src/managers/auth.py:67-73 | a resource line yields its type and name and no rule |
| AclListing.EntryFinds | src/managers/auth.py:75-81 | a rule line yields its user and operation and no resource |
| AclListing.ParserRecoversListing | src/managers/auth.py:62-95 | exactly the printed rules come back, each with the resource it stands under; fields may hold equals signs |
| AclListing.CommaCuts | src/managers/auth.py:75-77 | a principal reads back as it is if and only if it has no comma, at which it is cut |
| Clients.UsernameInjective | src/core/models.py:1290-1294 | usernames are injective in relation and request id |
| Clients.UsernameForm | src/core/models.py:1290-1294 | what usernames look like |
| Clients.KafkaProvider.HandleClientRequest | src/events/provider.py:71-130 | a client is set up once with one password for user and record, or left for a later pass |
| Clients.KafkaProvider.RemoveBrokenClients | src/events/provider.py:234-249 | departed clients lose rules, user and record, the others nothing |
| Clients.KafkaProvider.Reconcile | src/events/provider.py:251-266 | what a full pass and an interrupted one do to every account, set up in part included |
| Clients.KafkaProvider.Hook | src/events/provider.py:251-266 | the same with the record rolled back on failure |
| Clients.KafkaProvider.UpdateCredentialsCache | src/events/broker.py:496-523 | lost users come back with their recorded passwords |
| Clients.NextUsable | src/events/provider.py:71-130 | recorded credentials stay usable through arrivals, departures, passes, failures and restarts |
| Clients.PasswordsHold | src/events/provider.py:71-130 | over whole histories a recorded password is the cluster's and never changes until the client leaves |
| Clients.DepartedAreGone | src/events/provider.py:234-249 | after a full pass a name that is not active has no record; it has no user if and only if it was recorded or had none; and which rules it keeps |
| Clients.OrphanArises | src/events/provider.py:107-130 | a hook that fails after adding the user, and a full pass after the client has left, leave the user |
| Clients.GoneLater | src/events/provider.py:234-249 | through any history, an unrecorded client that has left keeps its user, password and rules; a recorded one loses its user with its record |
| Clients.OrphanExactly | src/events/provider.py:234-266 | over histories, exactly which clients that came and left have a user after a full pass |
| Clients.NoOrphans | src/events/provider.py:234-249 | full passes leave no client user without a record |
| RelationData.UpdatePartition | lib/charms/data_platform_libs/v0/data_interfaces.py:1309-1353 | each field of an update goes to exactly one group's secret or to the databag |
| RelationData.SecretByField | lib/charms/data_platform_libs/v0/data_interfaces.py:961-969 | in which secret each field ends up, and in no other |
| RelationData.FallsBack | lib/charms/data_platform_libs/v0/data_interfaces.py:1100-1168 | in any state, exactly when a secret field goes into the databag: its secret is gone but still referred to |
| RelationData.ReferencesHidden | lib/charms/data_platform_libs/v0/data_interfaces.py:1271-1273 | references to secrets are no fields |
| RelationData.UpdateValid | lib/charms/data_platform_libs/v0/data_interfaces.py:1367-1404 | an update keeps every secret field in one place and never falls back to the databag |
| RelationData.FieldAfterUpdate | lib/charms/data_platform_libs/v0/data_interfaces.py:1085-1098 | a field reads back as updated, untouched fields as before |
| RelationData.UpdateRefines | lib/charms/data_platform_libs/v0/data_interfaces.py:1085-1168 | an update is an update of one plain dictionary |
| RelationData.DeleteRefines | lib/charms/data_platform_libs/v0/data_interfaces.py:1170-1216 | a removal is a removal from one plain dictionary |
| RelationData.RunRefines | lib/charms/data_platform_libs/v0/data_interfaces.py:1085-1216 | so is any run of both, with secrets or on the databag |
| RelationData.DeleteTakesEffect | lib/charms/data_platform_libs/v0/data_interfaces.py:1378-1404 | in any state, exactly when a removed field is really gone |
| RelationData.DataStore.GetContent | lib/charms/data_platform_libs/v0/data_interfaces.py:747-762 | the cache returns the stored content |
| RelationData.DataStore.SetContent | lib/charms/data_platform_libs/v0/data_interfaces.py:764-778 | content is replaced, and unchanged content makes no revision |
| RelationData.DataStore.AddOrUpdateSecret | lib/charms/data_platform_libs/v0/data_interfaces.py:1100-1168 | one group of an update, or a refusal |
| RelationData.DataStore.Update | lib/charms/data_platform_libs/v0/data_interfaces.py:1085-1098 | the group-by-group update with its cache refines the update on values |
| RelationData.DataStore.Delete | lib/charms/data_platform_libs/v0/data_interfaces.py:1170-1216 | the removal with its cache refines the removal on values |
| RelationData.DataStore.FetchField | lib/charms/data_platform_libs/v0/data_interfaces.py:1426-1462 | a field is read from its secret, else from the databag |
| RelationData.DataStore.FetchSecrets | lib/charms/data_platform_libs/v0/data_interfaces.py:1386-1404 | group by group, what the secrets hold of the fields, and the fields of the groups that hold none of them |
| RelationData.DataStore.FetchAll | lib/charms/data_platform_libs/v0/data_interfaces.py:1426-1462 | the group-wise reading of everything, reference fields hidden, with its second chance in the databag per group |
| RelationData.FetchedAgrees | lib/charms/data_platform_libs/v0/data_interfaces.py:1367-1404 | in any state, exactly when a field read among others comes out as it does alone |
| RelationData.MissedTogether | lib/charms/data_platform_libs/v0/data_interfaces.py:1386-1404 | a state in which a field is found alone and missed together with another |
| RelationData.FetchedWhole | lib/charms/data_platform_libs/v0/data_interfaces.py:1426-1462 | where every secret field has one place, reading everything gives the plain dictionary |
| RequestEvents.DiffPatches | lib/charms/data_platform_libs/v1/data_interfaces.py:414-435 | the diff patches the old data into the new |
| RequestEvents.ResourceProviderEventHandler.ComputeDiff | lib/charms/data_platform_libs/v1/data_interfaces.py:2169-2202 | the diff is against the request's own snapshot, which is replaced |
| RequestEvents.ResourceProviderEventHandler.OnRelationChanged | lib/charms/data_platform_libs/v1/data_interfaces.py:2431-2461 | the hook's loop with its refusals and their rollback |
| RequestEvents.OthersUntouched | lib/charms/data_platform_libs/v1/data_interfaces.py:443-466 | storing one request leaves the others' snapshots and events alone |
| RequestEvents.UnchangedIsQuiet | lib/charms/data_platform_libs/v1/data_interfaces.py:2169-2202 | unchanged requests cause no event |
| RequestEvents.AgainIsQuiet | lib/charms/data_platform_libs/v1/data_interfaces.py:2328-2338 | handling the same requests again causes no event |
| RequestEvents.EventsExactly | lib/charms/data_platform_libs/v1/data_interfaces.py:2264-2326 | exactly which event a request causes, by the fields of the request and its snapshot |
| RequestEvents.EventsApart | lib/charms/data_platform_libs/v1/data_interfaces.py:2328-2461 | the requests of a hook each cause theirs, in turn |
| RequestEvents.HookAnnounces | lib/charms/data_platform_libs/v1/data_interfaces.py:2285-2338 | what one hook announces of a request, refused or not |
| RequestEvents.AnnouncedExactly | lib/charms/data_platform_libs/v1/data_interfaces.py:2285-2338 | over any hooks: one announcement by the hook that stores the snapshot, and one by each hook refused after getting to the request before |
| RequestEvents.AnnouncedAtMostOnce | lib/charms/data_platform_libs/v1/data_interfaces.py:2264-2338 | exactly when a request that keeps its resource is announced at most once |
| RequestEvents.FirstAnnouncement | lib/charms/data_platform_libs/v1/data_interfaces.py:2285-2318 | a new request is announced if and only if it names a resource and no client certificate comes first |
| RequestEvents.CertificateHidesResource | lib/charms/data_platform_libs/v1/data_interfaces.py:2285-2290 | a request with its client certificate is never announced |
| RequestEvents.RefusalRepeats | lib/charms/data_platform_libs/v1/data_interfaces.py:2264-2283 | a refused hook and its repetition announce the request before the refused one twice, and store nothing |
| Responses.SetResponse | lib/charms/data_platform_libs/v1/data_interfaces.py:2495-2507 | the first entry with the id is updated, or the response appended |
| Responses.SetResponses | lib/charms/data_platform_libs/v1/data_interfaces.py:2545-2563 | the merge of a dictionary of responses, and the error for stored entries without id |
| Responses.DictionaryExact | lib/charms/data_platform_libs/v1/data_interfaces.py:2547-2549 | the dictionary holds the last response of each id, and none without an id |
| Responses.AtOnceOrOneByOne | lib/charms/data_platform_libs/v1/data_interfaces.py:2545-2563 | for distinct ids, at once and one by one give the same list, with stored duplicates too |
| Responses.OneByOne | lib/charms/data_platform_libs/v1/data_interfaces.py:2495-2507 | responses set one by one are each id's responses added up and then merged, whatever ids repeat |
| Responses.AgreesExactly | lib/charms/data_platform_libs/v1/data_interfaces.py:2547-2560 | for any stored list and any repetition, exactly when setting at once and one by one agree |
| Responses.RepeatedId | lib/charms/data_platform_libs/v1/data_interfaces.py:2547-2549 | the same for two responses to one new request: the last one repeats all fields of the first, and its salt |
| Responses.MergeKeeps | lib/charms/data_platform_libs/v1/data_interfaces.py:786-794 | stored entries keep order, id and salt, unmentioned ones everything |
| Responses.MergeUpdates | lib/charms/data_platform_libs/v1/data_interfaces.py:2551-2557 | a response is used for the first stored entry with its id |
| Responses.MergeAppends | lib/charms/data_platform_libs/v1/data_interfaces.py:2559-2560 | new ids are appended in order |
| SecretLabels.RoundTrip0 | lib/charms/data_platform_libs/v0/data_interfaces.py:1275-1307 | name and id come back for every relation name, dots included |
| SecretLabels.LabelsDiffer0 | lib/charms/data_platform_libs/v0/data_interfaces.py:1275-1279 | labels are injective |
| SecretLabels.RoundTrip1 | lib/charms/data_platform_libs/v1/data_interfaces.py:2204-2221 | name and id come back if and only if the name has no dot |
| SecretLabels.RequestRoundTrip1 | lib/charms/data_platform_libs/v1/data_interfaces.py:2223-2230 | the request id comes back if and only if it has no dot |
| SecretLabels.ForeignLabels | lib/charms/data_platform_libs/v1/data_interfaces.py:2204-2230 | what is read off labels of fewer parts |
| PrincipalRules.SplitRules | src/managers/ssl_principal_mapper.py:98-115 | the loop over matches, with the empty match at the end |
| PrincipalRules.ParseRules | src/managers/ssl_principal_mapper.py:117-141 | the loop over rules, stopped by the first one that is not consumed or does not compile |
| PrincipalRules.ParsePrinted | src/managers/ssl_principal_mapper.py:117-141 | a printed rule whose pattern compiles parses to itself |
| PrincipalRules.AcceptedIsPrinted | src/managers/ssl_principal_mapper.py:117-141 | exactly the printed rules whose patterns compile, and the empty string, are accepted |
| PrincipalRules.WrittenForm | src/managers/ssl_principal_mapper.py:96-98 | how rules are written |
| PrincipalRules.SpacedRoundTrip | src/managers/ssl_principal_mapper.py:98-141 | however a list is spaced and whichever inner places are empty, splitting and parsing give its rules back |
| PrincipalRules.RulesRoundTrip | src/managers/ssl_principal_mapper.py:98-141 | printing, joining, splitting and parsing gives the rules back, commas and spaces in their bodies allowed |
| PrincipalRules.Normalises | src/managers/ssl_principal_mapper.py:98-141 | every accepted list has a standard form with the same meaning |
| Ports.CheckExtraListeners | src/core/structured_config.py:216-251 | exactly which values are accepted, and that the uniqueness check never fires |
| Ports.CollectPorts | src/core/structured_config.py:223-238 | the ports of the entries, all in range, or the complaint about the first bad entry |
| Ports.CheckSpacing | src/core/structured_config.py:240-247 | each port more than 100 above the one before |
| Ports.EntryMeans | src/core/structured_config.py:223-228 | which part of an entry is its port, and that an empty one is no number |
| Ports.BuildExtraListeners | src/managers/config.py:569-594 | every authentication method at every base port, counted in order |
| Ports.AllPresent | src/managers/config.py:639-648 | every listener there should be is there, once |
| Ports.PortsApart | src/managers/config.py:136-147 | ports are pairwise distinct if and only if no extra listener meets a node port's listener |
| Ports.KnownPorts | src/literals.py:96-102 | the ports of each scope and authentication method |
| Ports.LowBaseClashes | src/managers/config.py:136-147 | base port 20001 with a node port, where two listeners get port 29093 |
| Ports.PortBounds | src/literals.py:96-102 | none does with base ports above 20004 or without node ports, and no port exceeds 59095 |
| Ports.NamesApart | src/managers/config.py:149-154 | names are pairwise distinct |
| Ports.KnownNames | src/managers/config.py:149-154 | the names of each scope and authentication method |
| LogDirs.ParseLogDirs | src/managers/balancer.py:384-410 | the nested loops fill the dictionary of directories |
| LogDirs.NothingOverwritten | src/managers/balancer.py:402-408 | with distinct ids every directory has an entry with its partitions, and there is no other entry |
| LogDirs.AllStoragesDrained | src/managers/balancer.py:366-382 | the check over the dictionary, with its prefix match |
| LogDirs.DrainedMeans | src/managers/balancer.py:366-382 | exactly what the answer says of the listed brokers |
| LogDirs.PrefixMisleads | src/managers/balancer.py:366-382 | broker 1 is drained, and the answer is no because of broker 10 |
| LogDirs.DrainedIsSound | src/managers/balancer.py:366-382 | after a yes no partition is left on the broker |
| LogDirs.DrainedIsExact | src/managers/balancer.py:366-382 | with ids of equally many digits the answer is right both ways |
| Capacity.KafkaCluster.AddBroker | src/core/models.py:783-802 | a complete report replaces the entry |
| Capacity.KafkaCluster.UpdateBrokersState | src/events/broker.py:565-581 | the entries after a pass: old or newly reported brokers that are online or on the relation |
| Capacity.IncompleteIgnored | src/core/models.py:785-786 | a report without cores or storages changes nothing, wherever it stands |
| Capacity.CompleteCounts | src/core/models.py:783-802 | a complete report that is the broker's last is its entry |
| Capacity.EntryStays | src/events/broker.py:572-581 | a broker keeps its entry without a gap if and only if every pass finds it |
| Capacity.EntryIsLastReport | src/core/models.py:783-802 | over whole histories an entry is the last complete report |

## Left out

- The client scope of TLS: its rotation flag also closes the gate, and its truststore is reloaded without a restart.
- Changed subject alternative names, which lead to a new certificate; the certificate event itself is modelled.
- The balancer's own copies of the stores and its rotation flag; KRaft single mode, in which the gate is always open.
- A queued restart that finds the unit unhealthy beforehand: it is put off, as if it had not been reached yet.
- Units that join or leave during a rotation, and the first installation of a unit without any certificate.
- `config_changed` hooks of a unit that is not healthy, which do nothing, and of one without peer-cluster data beyond doing nothing.
- PEM parsing, openssl, file ownership and process handling: only their effect on the stores is kept.
- RotationWays.ClearableExactly: asks that each rotating unit presents under its leader's CAs, or under one that the other side cannot come to trust. Outside are units renewed within the first generation that are still rotating when their leader moves to the second. `JamWaits` refutes for them too; whether they can be let through depends on the order in which other units publish, as a leader that is held back cannot refresh its trust again once a pass has changed its store. Those whose CA every remote store holds for good are covered by `AnnouncedExactly`.
- RotationWays.RunsClearableExactly: the same, as `NoLaggard`.
- RotationWays.AnnouncedExactly: asks that each rotating unit can be served, or presents under a CA that the other side cannot come to trust; units whose CA some remote stores hold in part or for a time only are outside.
- RotationWays.AnnouncedRunsFinish: asks the same of the state reached.
- RotationTrust.NoUnitLosesTrust: it is about trust between the two applications; units of one application that have not all got their new certificates yet can be without each other's CA. Runs in which both rotate, or in which a certificate meets a queued restart, are the subject of `TrustHoldsExactly` and `TrustBreaksExactly`.
- RotationTrust.NoUnitLosesTrust: it is about trust between the two applications; units of one application that have not all got their new certificates yet can be without each other's CA. Runs in which both rotate are the subject of `TrustBreaksExactly`.
- Operations and resource kinds outside topics and groups, which the permission model refuses.
- AclListing.ParserRecoversListing: fields with commas, or with the parser's own keys in them, are shut out; `CommaCuts` shows what a comma does.
- The mutual TLS principals of clients, OAuth, and the data written back to clients.
- Client names that return after they have gone: the platform does not use relation ids twice.
- Secrets whose reference the other side publishes, custom groups of peer secrets, and removals of several fields at once (version 0 of the data interfaces).
- RelationData.DataStore.Update: callers that write reserved `secret-` fields themselves; the references are kept apart from the other fields.
- The models' serialisation and their own secrets, bulk events, and version 0 requests in version 1 of the data interfaces.
- PrincipalRules.RulesRoundTrip: strings with line breaks, which `OneLine` rules out, and Unicode spaces; which patterns compile, a parameter; applying a compiled pattern to a name.
- Ports.CheckExtraListeners: the digits outside ASCII that Python's `isdigit` accepts too.
- Requests of version 1 without an id, whose snapshot overwrites all others.
- Numbers in labels that Python's `int` accepts beside plain digits (signs, spaces, underscores).
- Extra listeners with more than one colon in an entry, which the check accepts and the listener code cannot unpack.
- The `broker_active` and quorum queries behind the set of online brokers, which is a parameter.
