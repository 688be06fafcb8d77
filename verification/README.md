# Kterodactyl, modelled and verified in Dafny

Kterodactyl is a Kubernetes operator for game servers. Its controllers and its
HTTP API all write the same versioned objects with nothing but optimistic
concurrency between them. This project models that protocol as state machines
cut at every point where another writer may step in, and proves what holds in
every interleaving. `dafny verify dfyconfig.toml` checks all of it.

## How it is laid out

- `VersionedStore`: one cell per object key, holding every version ever stored. A
  write is accepted only from the current version, and a read may be of any age.
- `Lifecycle`, `GameServers`, `Labels`, `Text`, `Sets`: the tables, the status
  values and the loops that build them, and small facts.
- `GameServerSlot`: everything under one GameServer key. The reconcile worker is
  a program counter plus the snapshot it read; API requests, the DNS controller
  and the kubelet act between its steps. `SlotInvariant` has the inductive
  invariant, `SlotMoves` the state changes, `SlotFields` the connection data
  under stale reads. `Cluster` puts any number of keys together and states the
  theorems about whole runs.
- `Reconciler`: the controller as the imperative code it is, proved equal to the
  machine's worker left alone; `ReconcileOutcome` says where that leads, over what
  can be observed. `FreshServer` does so inside a cluster of any size, and
  `Quiescence` builds on it.
- `BackupProtocol`, `BackupRuns`, `BackupReconciler`, `BackupSchedule`,
  `BackupNames`: the backup worker against concurrent API requests, its
  imperative form, retention, cron scheduling and naming. `BackupOutcome` says
  where one reconcile leads.
- `Dns`: the DNS controller. `Invites`: tokens and registration under concurrent
  redeemers. `Registrations`: the users they leave. `Base64` and `PasswordRecord`: the stored password string.
- `Api`: the HTTP handlers call by call. `Tenancy`: many users' handlers in
  flight next to the controllers. `ApiHandlers`: the handlers as imperative code.
  `ApiOutcome`: what answers and writes mean over the stored fields.
- `Writers`: every change that a handler or the DNS controller makes is an event
  of the machines above. `Operator`: game servers, backups and handlers in one
  machine, whose every run is a run of those two, so that their theorems hold.
- `StopHolds`: exactly when an accepted stop holds. `LostStop`: a run of the
  cluster in which one is overwritten. `Address`: the two writers of the address.

The same pattern recurs: a class whose methods follow the source is proved
equal to the machine with nobody else moving, the machine's invariant is proved
for every event, and the theorems follow for every run.

## Where the code does not do what one would expect

- A stop that is accepted while a worker is on its way to a move (counting, making
  or observing the Pod, or about to write) can be overwritten, and one accepted at
  any other moment holds until the next start or restart: `StopHoldsExactly`.
  `MoveLeavesTableExactly` says exactly when such a write is no edge of the table,
  and `StopCanBeOverwritten` gives a run in which it happens.
- A backup deleted while its upload runs, and created again under the same name,
  jumps from the empty state to Completed: `RebirthJumps`, `RebirthIsReachable`.
  `MovesAreRegularUnlessAhead` says exactly when the table is left.
- Backups of a server called `schedule`, or `schedule-` and more, are taken for
  schedule requests: `BackupReachesItsReconciler` gives the exact condition.
- An invite that one request has seen expire can still be redeemed by another
  that judged it in time: `SeenExpiredIsNotTooLate`. Two requests that hold one
  token both redeem it exactly when an invite with the same first twelve
  characters is issued in between: `SharedPrefixSpendsTwice`,
  `TokenCanBeSpentTwice`.
- A scheduled run that creates its backup and then fails to record the time makes
  a second backup for the same fire: `SecondBackupExactlyWhenUnrecorded` gives the
  exact condition.
- The DNS controller leaves servers marked for deletion, and serving ones without
  an owner, as they are, and cannot serve one whose Service or route another object
  controls: `OnePassConverges` gives the exact condition.
- The two controllers overwrite each other's address of a Ready server:
  `ControllersContestTheAddress`.
- Two servers of one owner and game type share a hostname, and their Services
  select each other's Pods: `HostnamesTellServersApart`, `ServicesTellServersApart`.

## Model

| member | source | states |
|---|---|---|
| `VersionedStore.AcceptedReadIsCurrent` | internal/controller/gameserver_controller.go:1058-1064 | However old a read is, a write made from it is accepted if and only if the version read is the one stored now, so no accepted write loses an earlier one |
| `VersionedStore.WritesRetireReads` | internal/controller/gameserver_controller.go:1058-1064 | Writes keep version numbers unique, and after a write or a removal no earlier read is ever accepted again |
| `GameServers.IsPodReady` | internal/controller/gameserver_controller.go:1229-1239 | The loop answers true exactly when at least one container is reported and all reported ones are ready |
| `GameServers.MapPorts` | internal/controller/dns_controller.go:252-262 | The loop builds the exact image of spec.Ports, entry by entry |
| `SlotInvariant.EnteredAgrees` | internal/controller/gameserver_controller.go:1066-1147 | On every edge of the table, conditions that agreed with the state left agree with the state entered once transitionState has set them, although Allocated sets only one of them |
| `SlotInvariant.WorkerStepKeepsOk` | internal/controller/gameserver_controller.go:329-689 | Every step of a worker, whatever is re-fetched, keeps the slot invariant: the object held keeps identity, finalizer and owner, its state is the one read or a requested Creating or Shutdown, conditions agree, no live Pod without its server |
| `SlotInvariant.ForeignWriteKeepsOk` | internal/api/handlers_gameserver.go:291-406 | A write by anyone else that touches state only by a lifecycle request keeps that invariant while a worker holds the key |
| `SlotInvariant.DeleteKeepsOk` | internal/api/handlers_gameserver.go:261-287 | A delete landing at any point of a reconcile keeps that invariant |
| `SlotInvariant.ApplyKeepsOk` | internal/controller/gameserver_controller.go:329-689 | Every event under a key (worker, API, DNS controller, kubelet), with reconciles that start from a current read, keeps the slot invariant |
| `SlotMoves.MoveLeavesTableExactly` | internal/controller/gameserver_controller.go:1046-1064 | A pending move is off the table on the re-fetched object if and only if it writes something other than Creating over a requested stop, or Ready or Allocated over a requested start or restart |
| `SlotMoves.StateMovesAreLegal` | internal/controller/gameserver_controller.go:1046-1064 | Every state change under a key is one its event may make: start only from empty, Shutdown or Error, stop never from Shutdown or Error, controller writes as MoveLeavesTableExactly says, never to empty |
| `SlotMoves.PendingMoveOverwritesStop` | internal/controller/gameserver_controller.go:1046-1064 | Whatever state a worker is about to move to, a stop accepted now is overwritten by that move, which is an edge of the table if and only if it is to Creating |
| `SlotMoves.WritesLandExactly` | internal/controller/gameserver_controller.go:1058-1064 | Whatever was written since a worker's first read, a write from a current re-fetch lands, on that object and the fields it owns, and a write from the snapshot lands if and only if nothing was written |
| `StopHolds.StopHoldsExactly` | internal/controller/gameserver_controller.go:363-388 | After every run with current reads, an accepted stop holds through every continuation without a start or restart of that server if and only if no worker holding its key is counting, setting up the namespace, making or observing the Pod, or about to move |
| `StopHolds.LostWhenSomebodyMoves` | internal/controller/gameserver_controller.go:427-496 | Otherwise gives the continuation, made of the Pod's end and that worker's own steps, after which the same object is no longer Shutdown, whatever counts the worker sees |
| `LostStop.StopCanBeOverwritten` | internal/controller/gameserver_controller.go:427-496 | For every server and limits that admit it, gives a run of the whole cluster, with current reads and creation at home, whose last but one action is an accepted stop and whose last is a controller write that turns the Shutdown into Starting |
| `SlotFields.ApplyKeepsWellStored` | internal/controller/dns_controller.go:247-278 | Every event, with reads of any age including a worker's first, keeps status.Ports empty or the image of spec.Ports, and an address only together with that image |
| `SlotFields.WritersKeepToTheirFields` | internal/controller/dns_controller.go:247-320 | DNS writes change address and ports only, lifecycle requests the state only, edits no status, and of the worker's writes only the one for a Ready server touches address or ports |
| `Cluster.PlacesNeedACount` | internal/controller/gameserver_controller.go:448-472 | A key comes to hold a place (its server runs, or its worker may yet make it run) only by passing the count, which leaves the store unchanged; only existing servers hold places |
| `Cluster.PlaceTakenUnderLimit` | internal/controller/gameserver_controller.go:448-457 | A key that takes a place by passing the count takes it under the limit, although other workers passed the count before and have not written yet |
| `Cluster.AdmissionBoundGlobal` | internal/controller/gameserver_controller.go:448-457 | In every interleaving of any number of workers with every API request, the servers in Starting, Ready or Allocated never exceed MaxServersGlobal |
| `Cluster.AdmissionBoundPerUser` | internal/controller/gameserver_controller.go:459-472 | The same for MaxServersPerUser in every user's namespace, when servers are created in their owner's namespace as the API does |
| `Cluster.ConditionsAgree` | internal/controller/gameserver_controller.go:1066-1147 | In every interleaving every stored server's conditions agree with its state, although the API writes states and never conditions |
| `Cluster.NoOrphanPod` | internal/controller/gameserver_controller.go:660-689 | In every interleaving a live Pod has its server, stored under the uid that owns the Pod and still carrying the finalizer |
| `Cluster.LifecycleEdges` | api/v1alpha1/gameserver_lifecycle.go:31-48 | After every run, whatever happens next changes a server's state only by a legal move |
| `Cluster.ConnectionInfoIsNeverTorn` | internal/controller/gameserver_controller.go:1163-1203 | In every interleaving and however stale any read, connection data is whole or absent and the next write touches only its writer's fields |
| `Reconciler.GameServerReconciler.TransitionState` | internal/controller/gameserver_controller.go:1046-1160 | Refused off the table, else the re-fetched object gets state and conditions: exactly the machine's move step |
| `Reconciler.GameServerReconciler.UpdateReadyStatus` | internal/controller/gameserver_controller.go:1163-1203 | Address, ports and both conditions on the re-fetched object: exactly the machine's publish step |
| `Reconciler.GameServerReconciler.RefreshAndUpdateCondition` | internal/controller/gameserver_controller.go:1207-1226 | One condition on the re-fetched object: exactly the machine's mark step |
| `Reconciler.GameServerReconciler.InitializeState` | internal/controller/gameserver_controller.go:397-423 | Writes from the snapshot itself: exactly the machine's first step |
| `Reconciler.GameServerReconciler.ReconcileCreating` | internal/controller/gameserver_controller.go:427-496 | Owner check, both counts, namespace, Pod and move, in this order, are the machine's steps run one after another |
| `Reconciler.GameServerReconciler.ReconcileStarting` | internal/controller/gameserver_controller.go:499-541 | Pod gone, ready, failed or timed out lead where the machine's observation leads |
| `Reconciler.GameServerReconciler.ReconcileReady` | internal/controller/gameserver_controller.go:544-577 | Pod lost, allocation and publishing lead where the machine's observation leads |
| `Reconciler.GameServerReconciler.ReconcileAllocated` | internal/controller/gameserver_controller.go:580-608 | Pod lost and allocation withdrawn lead where the machine's observation leads |
| `Reconciler.GameServerReconciler.ReconcileShutdown` | internal/controller/gameserver_controller.go:611-643 | Deletes the Pod, then marks Ready false |
| `Reconciler.GameServerReconciler.HandleDeletion` | internal/controller/gameserver_controller.go:660-689 | Deletes the Pod before the finalizer is taken off |
| `Reconciler.GameServerReconciler.Reconcile` | internal/controller/gameserver_controller.go:329-394 | One undisturbed reconcile is one pass of the machine's worker, and leads where `PassOutcome` says |
| `Reconciler.PassOutcome` | internal/controller/gameserver_controller.go:329-689 | The outcome of one undisturbed reconcile of any object and Pod, over phase, containers, annotation, clock, counts, owner and namespace: to which state exactly when, what the conditions say and since when, address and ports, the Pod made, doomed or left alone, the finalizer, and a deletion that ends with the object gone and no live Pod |
| `FreshServer.PassLeads` | internal/controller/gameserver_controller.go:329-394 | The same outcome is reached inside a cluster of any size by steps of that key's worker, told the true counts |
| `FreshServer.AdmissionIsExact` | internal/controller/gameserver_controller.go:427-496 | Undisturbed, a Creating server without a Pod is started if and only if it has an owner whose namespace can be set up and the servers there are, itself included, are within both limits; otherwise it ends in Error |
| `FreshServer.FreshServerComesUp` | internal/controller/gameserver_controller.go:329-577 | In any cluster with room for one more, gives the run in which a fresh server whose Pod comes up reaches Ready with its Pod's address, no other key being touched |
| `Quiescence.PassLowers` | internal/controller/gameserver_controller.go:363-388 | Each quiet pass that changes the state lowers a potential of at most four, and none raises it |
| `Quiescence.QuietReconcilesSettle` | internal/controller/gameserver_controller.go:499-608 | With Pod, annotations, limits and API quiet, any number of reconciles at any times changes the state at most four times |
| `BackupNames.ScheduleRequestDecodes` | internal/controller/backup_controller.go:91-103 | Every schedule request is decoded to exactly its server |
| `BackupNames.BackupReachesItsReconciler` | internal/controller/backup_controller.go:91-103 | A backup's name is taken for a backup if and only if its server's name followed by a dash does not begin with `schedule-` |
| `BackupNames.ServerCalledSchedule` | internal/api/handlers_backups.go:134-135 | A server called `schedule` gets backups that are taken for schedule requests |
| `BackupNames.NameFormats` | internal/controller/backup_controller.go:582 | What on-demand, scheduled and request names look like |
| `BackupNames.BackupNameRoundTrip` | internal/api/handlers_backups.go:134-135 | Kind, server and 15-character timestamp are read back from every on-demand or scheduled name |
| `BackupNames.BackupNamesAreInjective` | internal/controller/backup_controller.go:582 | No two backups that differ in kind, server or timestamp share a name |
| `BackupNames.KeyPrefixesAreDisjoint` | internal/controller/backup_controller.go:263-265 | An object key lies under one slash-free namespace and server only |
| `BackupNames.ObjectKeysAreInjective` | internal/controller/backup_controller.go:263-265 | Object keys are injective in namespace, server and timestamp |
| `BackupProtocol.ClaimKeepsExclusive` | internal/controller/backup_controller.go:174-206 | The write that starts a backup, made some time after the search for others, leaves at most one InProgress per server |
| `BackupProtocol.ApplyKeepsOk` | internal/controller/backup_controller.go:143-305 | Every step of the worker and every API create, mark and delete in between keeps the backup invariant |
| `BackupRuns.MutualExclusion` | internal/controller/backup_controller.go:174-206 | In every run each server has at most one backup InProgress |
| `BackupRuns.RestoreReadsOwnData` | internal/api/handlers_backups.go:269-316 | In every run, and whatever is uploaded between the fetch of the backup and the download, what lies under the key was uploaded in full from the server restored to and nothing else ever was |
| `BackupRuns.CompletedWasUploaded` | internal/controller/backup_controller.go:270-298 | In every run the bucket and key of a Completed backup name an upload of its own server that succeeded |
| `BackupRuns.MovesAreRegularUnlessAhead` | internal/controller/backup_controller.go:476-530 | A state change is a first enrolment or an edge of the table if and only if it is not a worker finishing work on a backup reborn under its name; Completed and Failed are never left |
| `BackupRuns.FreshRunsFollowTheTable` | api/v1alpha1/backup_lifecycle.go:29-47 | When no name is created again after its backup is gone (creates refused as already existing do no harm), every state change of every run follows the table |
| `BackupRuns.ReadyMeansCompleted` | internal/controller/backup_controller.go:281-298 | In every run Ready is true exactly for Completed backups, which did not end before they started when no name is created again after its backup is gone |
| `BackupRuns.RebirthJumps` | internal/controller/backup_controller.go:279-298 | Whenever a backup is deleted under a worker about to finish, creating it again makes the new one Completed without a start time |
| `BackupRuns.RebirthIsReachable` | internal/controller/backup_controller.go:143-305 | Such a moment is reached from an empty store: gives the run |
| `BackupReconciler.ThreePassesFinish` | internal/controller/backup_controller.go:115-140 | Whatever each pass finds, every backup is Completed or Failed after three undisturbed passes |
| `BackupReconciler.BackupReconciler.FindOtherInProgress` | internal/controller/backup_controller.go:174-195 | The loop finds another InProgress backup of the server exactly when there is one |
| `BackupReconciler.BackupReconciler.ReconcilePending` | internal/controller/backup_controller.go:143-210 | Enrolment, checks, failure or start: exactly one pass of the machine's worker |
| `BackupReconciler.BackupReconciler.ReconcileInProgress` | internal/controller/backup_controller.go:213-305 | Upload, failure or completion with bucket and key: exactly one pass of the machine's worker |
| `BackupReconciler.BackupReconciler.Reconcile` | internal/controller/backup_controller.go:106-140 | One undisturbed reconcile is one pass of the machine's worker, and leads where `PassOutcome` says |
| `BackupReconciler.PassOutcome` | internal/controller/backup_controller.go:143-305 | A Pending backup starts exactly when S3 is configured, its server is Ready or Allocated and no other backup of it runs, an InProgress one is Completed exactly when the server serves, S3 is ready and the upload succeeded, either is Failed otherwise; every status field written, the upload made, nothing else changed |
| `BackupReconciler.SortNewestFirst` | internal/controller/backup_controller.go:674-677 | The sorted list is a permutation, newest first, in no promised order among equals |
| `BackupReconciler.NewestAreRetained` | internal/controller/backup_controller.go:647-698 | For every order the sort may pick among ties, deleting what lies behind the limit keeps exactly the newest |
| `BackupReconciler.BackupReconciler.EnforceRetention` | internal/controller/backup_controller.go:647-698 | With a positive limit the ideal outcome keeps the smaller of limit and count, deletes none newer than a survivor and changes nothing else; the outcome is the ideal one except under the keys whose delete failed, which stay as they were; with no positive limit nothing is deleted |
| `BackupReconciler.RetentionCatchesUp` | internal/controller/backup_controller.go:691-694 | Whatever deletes failed in a first run, a second in which none fails leaves what a single run without failures may leave |
| `BackupReconciler.RetentionIsIdempotent` | internal/controller/backup_controller.go:647-698 | A second run deletes nothing |
| `ApiOutcome.RetentionLimit` | internal/controller/backup_controller.go:628-635 | The limit is the annotation's if it reads as a number, else the admin config's |
| `ApiOutcome.AskedRetentionIsEnforced` | internal/api/handlers_backups.go:389-407 | After a schedule request the limit that retention goes by is the retention asked for, or the admin config's when none is |
| `BackupSchedule.Scheduler.ReconcileSchedule` | internal/controller/backup_controller.go:533-644 | Due or not, created or already there, recorded or not, and when to wake again: exactly the schedule's specification |
| `BackupSchedule.WakeupOutcome` | internal/controller/backup_controller.go:533-619 | A run makes and records a backup of its own second exactly when there is a schedule that parses, the server is Ready or Allocated and the next fire after the last run, or after creation, has come; any other run does nothing |
| `BackupSchedule.AlarmIsNextFire` | internal/controller/backup_controller.go:574-579 | A run asks to be woken at the first fire still to come |
| `BackupSchedule.AtMostOneBackupPerFire` | internal/controller/backup_controller.go:555-619 | Whenever runs that record their time are woken, no two backups are charged to one fire, and each is charged to a fire after creation that had come |
| `BackupSchedule.OneBackupPerFire` | internal/controller/backup_controller.go:641-643 | Woken exactly when asked, the backups made are exactly the fires |
| `BackupSchedule.FiresAfterIsComplete` | internal/controller/backup_controller.go:562-572 | The list of fires that OneBackupPerFire speaks of leaves none out and adds none |
| `BackupSchedule.SecondBackupExactlyWhenUnrecorded` | internal/controller/backup_controller.go:608-619 | After a fire got its backup and until the next fire, wake-ups of any number and kind make a second one if and only if one of them is eligible, comes before any run recorded its time, and falls in another second |
| `BackupSchedule.UnrecordedRunRepeats` | internal/controller/backup_controller.go:608-619 | The next eligible wake-up makes a second backup for the same fire if and only if the first run failed to record its time and the two fall in different seconds |
| `Dns.HostnamesTellServersApart` | internal/util/networking.go:41-43 | Two servers share a hostname if and only if game type and owner match, both being single DNS labels |
| `Dns.ServicesTellServersApart` | internal/controller/dns_controller.go:145-150 | A server's Service selects another server's Pod if and only if owner and game type match |
| `Dns.DnsReconciler.EnsureService` | internal/controller/dns_controller.go:121-175 | Refuses exactly a Service controlled by another object; otherwise the Service is the server's own field by field: owner, selector, two labels, each port |
| `Dns.DnsReconciler.EnsureRoute` | internal/controller/dns_controller.go:178-244 | Refuses exactly a route controlled by another object; otherwise the route is the server's own field by field: owner, TTL, the one parent with the configured gateway's name and namespace, hostname, backend and its port |
| `Dns.DnsReconciler.Reconcile` | internal/controller/dns_controller.go:59-118 | One undisturbed reconcile is one pass of the specification |
| `Dns.OnePassConverges` | internal/controller/dns_controller.go:59-320 | From any earlier Service and route, whoever controls them, and any whole status, one pass exposes a serving owned server, field by field, and hides any other if and only if the server is neither left alone nor, while serving, blocked by a Service or route of another object, or had converged before; it changes only address and ports of the server and keeps every label and annotation not its own |
| `Dns.BlockedPassStops` | internal/controller/dns_controller.go:100-118 | A blocked pass does nothing at a foreign Service, and writes the Service alone at a foreign route |
| `Dns.LeftAloneKeepsItsService` | internal/controller/dns_controller.go:79-98 | A server marked for deletion, or serving without an owner, keeps what it was given |
| `Dns.SecondPassChangesNothing` | internal/controller/dns_controller.go:59-320 | From any state whatever, a second pass changes nothing |
| `Address.ControllersContestTheAddress` | internal/controller/gameserver_controller.go:1163-1203 | The next reconcile of an exposed Ready, unallocated server with a running Pod leaves the Pod's IP as address, so it stays exposed if and only if that IP is its hostname; the next DNS pass exposes it again |
| `Invites.TokensAreSpentOnce` | internal/auth/invite.go:149-195 | When no Secret name is issued again after its Secret is gone, in every interleaving of redeemers each token yields at most one redemption, judged in time |
| `Invites.UsersInjectIntoInvites` | internal/api/handlers_auth.go:99-151 | Registrations inject into invites issued, each with its invite's email |
| `Registrations.UsersAreRegistered` | internal/auth/store.go:70-104 | In every run each stored user has a valid name that is not reserved and the email of the latest registration of that name |
| `Registrations.UsersStayUntilDeleted` | internal/auth/store.go:70-104 | Nothing but its own deletion changes or removes a user, however the run goes on, and until then its name is not registered again |
| `Registrations.RegistrationCreatesExactly` | internal/api/handlers_auth.go:117-151 | A redeemed request that names a valid and unused name creates exactly that user with its invite's email, and any other leaves the users as they are |
| `Registrations.NamesAreChecked` | internal/auth/auth.go:89-107 | The names accepted are exactly the DNS labels of at most 63 characters that are not reserved |
| `Invites.BuriedInvitesAreNotRedeemed` | internal/auth/invite.go:173-184 | Once an invite has been deleted as expired, nobody redeems it |
| `Invites.SeenExpiredIsNotTooLate` | internal/auth/invite.go:173-192 | A request that judged the invite in time redeems it, although another has seen it expire, if and only if its Secret is still there |
| `Invites.SeenExpiredIsReachable` | internal/auth/invite.go:149-195 | Such a moment is reached from an empty store: gives the run |
| `Invites.SharedPrefixSpendsTwice` | internal/auth/invite.go:100-104 | When two requests, whenever each judged it, are about to spend one invite and another is issued between their deletes, both redeem it if and only if its Secret is still there and the two invites share their Secret name |
| `Invites.TokenCanBeSpentTwice` | internal/auth/invite.go:149-195 | For every two invites with one Secret name, and any time between the two judgements before expiry, gives a run from the empty store that redeems the first token twice |
| `Invites.AuthService.FindByToken` | internal/auth/invite.go:163-169 | The search loop finds the invite with this token exactly when there is one |
| `Invites.AuthService.RedeemInvite` | internal/auth/invite.go:149-195 | Is the machine's request left alone; which answer each token gets, and that the invite found is gone afterwards either way |
| `Invites.AuthService.Register` | internal/api/handlers_auth.go:74-151 | An incomplete form and a closed registration are refused with the invite untouched; an admitted one is the machine's request left alone; granted exactly for a live invite and a valid, unused name; creates that one user with the invite's email; a bad name has spent the invite all the same |
| `Base64.Base64RoundTrip` | internal/auth/password.go:52-53 | Unpadded base64 (sections 3.2 and 4 of RFC 4648) of any bytes decodes to those bytes |
| `Base64.EncodingIsBase64` | internal/auth/password.go:52-53 | Symbol i stands for bits 6i to 6i + 5 of the bytes, most significant first and zeros behind the end, and there are as many symbols as those bits need |
| `Base64.SymbolsAreTheAlphabet` | internal/auth/password.go:52-53 | The alphabet of section 4 of RFC 4648 |
| `Text.DecimalRoundTrip` | internal/auth/password.go:49-51 | Every number is read back from its decimal digits |
| `PasswordRecord.ParametersRoundTrip` | internal/auth/password.go:70-71 | The parameter field printed for 32-, 32- and 8-bit values is scanned back to them |
| `PasswordRecord.RecordParts` | internal/auth/password.go:61-64 | The record splits at dollar signs into exactly its six parts |
| `PasswordRecord.StoredPasswordFormat` | internal/auth/password.go:49-55 | The string stored, to the letter |
| `PasswordRecord.SplitIsExact` | internal/auth/password.go:61 | Splitting cuts at every separator and loses nothing |
| `PasswordRecord.OtherStringsAreRefused` | internal/auth/password.go:61-64 | A string without exactly five dollar signs is refused whatever the guess |
| `PasswordRecord.RecordRoundTrip` | internal/auth/password.go:49-81 | Every version below the limit of a 64-bit int, parameters in their widths, salt and hash are all read back from the record |
| `PasswordRecord.StoredPasswordVerifies` | internal/auth/password.go:59-87 | A stored password accepts a guess if and only if Argon2id maps both to the same key; the password itself is accepted |
| `ApiHandlers.MergeMaps` | internal/api/handlers_gameserver.go:410-419 | The merged map has the keys of both, and the override's value wherever it has one |
| `ApiOutcome.ScheduledMeans` | internal/api/handlers_backups.go:385-407 | What a schedule request leaves in the annotations: the schedule exactly when there is one, the retention exactly when both are asked for and readable as it was asked for, every other annotation unchanged |
| `ApiOutcome.NewServerMeans` | internal/api/handlers_gameserver.go:133-160 | A new server field by field: owner, game type, ports, merged parameters, the two path annotations, an empty status |
| `ApiOutcome.GetAnswers` | internal/api/handlers_gameserver.go:182-203 | 404 for a missing server, else the stored server field by field |
| `ApiOutcome.ListServersAnswers` | internal/api/handlers_gameserver.go:78-98 | Every server of the caller's namespace field by field, and nothing else |
| `ApiOutcome.ListBackupsAnswers` | internal/api/handlers_backups.go:169-208 | 404 for a missing server, else every backup labelled with it field by field, and nothing else |
| `ApiHandlers.Server.HandleCreateGameServer` | internal/api/handlers_gameserver.go:101-179 | Run alone, the handler does what its calls do one by one; exactly when it answers 401, 400, 409 and 201; what is then stored; every other key and, when refused, the whole store unchanged |
| `ApiHandlers.Server.HandleUpdateGameServer` | internal/api/handlers_gameserver.go:207-258 | The same; exactly when it answers 400, 404 and 200, and that only the parameters change, to the merged ones |
| `ApiHandlers.Server.HandleDeleteGameServer` | internal/api/handlers_gameserver.go:261-287 | The same; 404 or 204, and that the server is then marked for deletion if it had a finalizer and gone if not |
| `ApiHandlers.Server.HandleStartGameServer` | internal/api/handlers_gameserver.go:291-330 | The same; 409 exactly outside empty, Shutdown and Error, else only the state changes, to Creating |
| `ApiHandlers.Server.HandleStopGameServer` | internal/api/handlers_gameserver.go:334-370 | The same; 409 exactly in Shutdown and Error, else only the state changes, to Shutdown |
| `ApiHandlers.Server.HandleRestartGameServer` | internal/api/handlers_gameserver.go:377-406 | The same; never 409, only the state changes, to Creating |
| `ApiHandlers.Server.HandleSetBackupSchedule` | internal/api/handlers_backups.go:362-429 | The same; exactly when it answers 403, 404, 400 and 200, what it leaves in the annotations (as ScheduledMeans), and that the answer is read back from them |
| `ApiHandlers.Server.HasBackupInProgress` | internal/api/handlers_backups.go:118-131 | The loop finds a listed backup in progress exactly when there is one |
| `ApiHandlers.Server.HandleCreateBackup` | internal/api/handlers_backups.go:95-164 | The same for its four calls; exactly when it answers 404, 409, 500 and 201, and the Pending backup it leaves |
| `ApiHandlers.Server.HandleDeleteBackup` | internal/api/handlers_backups.go:212-245 | The same; exactly when it answers 403, 404 and 204, and that the backup is then gone |
| `ApiHandlers.Server.HandleRestoreBackup` | internal/api/handlers_backups.go:251-357 | The same; exactly when it answers 403, 404, 409, 503, 500 and 200, and that the server is then Creating |
| `Tenancy.NamespacesTellUsersApart` | internal/util/labels.go:88-90 | Users have the same namespace if and only if they are the same |
| `Tenancy.CallStaysAtHome` | internal/api/handlers_backups.go:95-245 | Every call of every handler has the same outcome in any two stores that look the same in the caller's namespace |
| `Tenancy.StepProjects` | internal/api/middleware.go:29-35 | A handler's step on the caller's part of the store is its step on the whole store, and every other namespace stays as it was |
| `Tenancy.UsersAreIsolated` | internal/auth/jwt.go:84-96 | After any mixed run of requests in flight and controller writes, a user's namespace, pending requests and all answers received equal those of running that user's share alone |
| `Tenancy.ServerRequestsAreAtomic` | internal/api/handlers_gameserver.go:78-406 | In every interleaving a server request answered and not refused has the effect and answer of the whole request run at that instant; a refused one has no effect |
| `Tenancy.AnswersMatchTheStore` | internal/api/handlers_gameserver.go:51-75 | In every interleaving each answer is true of the store at that instant, field by field: servers and backups shown or listed, the schedule and retention as read back, a deleted server gone or marked, a deleted backup gone, a restored server restarting |
| `Writers.ServerCallIsEvent` | internal/api/handlers_gameserver.go:101-406 | Each change a handler makes to a game server is one event of that server's key, made from a read of its past, with creation in the owner's namespace, whatever Pod and worker the key has |
| `Writers.BackupCallIsEvent` | internal/api/handlers_backups.go:133-161 | Each change a handler makes to a backup is one event of the backup protocol, whatever its worker does, for slash-free names |
| `Writers.RestoreHoldsItsSource` | internal/api/handlers_backups.go:269-316 | What a restore handler is about to download is the bucket and key of `BackupRuns.RestoreSource`, and it is refused exactly when there is none |
| `Writers.DnsPassIsEvent` | internal/controller/dns_controller.go:59-320 | A DNS pass leaves the server as it is, or is the connect or disconnect event under its key |
| `Operator.DoKeepsOk` | internal/api/handlers_gameserver.go:78-406 | Every event of the whole operator keeps the invariants of all keys, of the backups and of every handler in flight |
| `Operator.OperatorRunProjects` | internal/controller/gameserver_controller.go:329-689 | Every run of workers, kubelet, DNS controller, backup worker and handlers in flight is a run of the cluster with current reads and creation at home, and a run of the backup protocol |
| `Operator.OperatorAdmissionBounds` | internal/controller/gameserver_controller.go:448-472 | In every run of the whole operator both admission limits hold, with no assumption about where servers are created: the create handler sees to it |
| `Operator.RestoreDownloadsOwnData` | internal/api/handlers_backups.go:251-316 | In every run of the whole operator, and however it goes on, all that was ever uploaded where a restore handler is about to download came from the server restored to |

## Left out

- Argon2id, JSON Schema, the cron parser and `Next`, token signing: parameters of the model, with the laws the theorems name (Argon2id returns the length asked for; `Next` returns the first fire strictly later).
- Requests without a valid token never reach a handler; tokens carry the namespace that `GenerateToken` puts there.
- S3, tar, gzip and Pod exec: only success or failure and the bucket and key written; the S3 client cache and the removal of S3 objects (by retention) are not modelled, so a restore's object may be gone when it is downloaded.
- Condition reasons, messages, events, log lines, backup sizes, creation times of game servers and most response texts.
- The order of listed game servers and backups in API answers: a list is a map from name to entry.
- Contents of Pods, ResourceQuota, LimitRange, NetworkPolicy and PVCs: a user namespace is set up or not, and a Pod is present, live, and reports a phase.
- Failed API-server calls inside a reconcile end it (the machine's abort).
- The scheduler's write of the last-backup annotation is an edit in `GameServerSlot`; `BackupSchedule` keeps only whether it succeeded.
- Watch-event delivery, requeue timing and leader election: a reconcile may happen at any time.
- Clocks that go back: the order of a backup's start and end rests on a clock that never does.
- Edits by hand with kubectl: stripped finalizers, changed ports, unlabelled backups.
- One backup worker and at most one worker per GameServer key, as the controllers are set up; admin limits are fixed over a run.
- Version numbers count per object and not per cluster; nothing compares versions of different objects.
- handleUploadMod: only its last write, which is a restart; mod listing, upload and deletion work on files in a Pod.
- The checks of the create-backup handler are dropped in `BackupProtocol`, so mutual exclusion covers more runs than the API can make; `Api` models them.
- Backup requests are not claimed to be atomic: between the check for a backup in progress and the create, and between a backup's fetch and its delete, others may act.
- A scan of decimal fields skips no leading blanks and accepts no signs; the records that HashPassword writes have neither.
- Login, token refresh, user listing, invite e-mails, console, metrics, rate limits, routing and the web frontend.
