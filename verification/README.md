# Verified model of pgop's crash-tolerant protocols

pgop is a Kubernetes operator for PostgreSQL. Its hard parts are protocols between a spec, a durable
status record and an outside system (PostgreSQL, Jobs, pods, volumes) that have to survive failing calls,
writes that were applied although they reported an error, stale reads, and a crash between any two calls.
This project models those protocols in Dafny and proves what they keep over whole runs. Where a promise does
not hold of the code, a lemma gives the run that breaks it, and another one the exact condition under which
the promise holds.

## Files

| files | what they model |
|---|---|
| `RestoreModel`, `RestoreSafety`, `RestoreRuns`, `RestoreHazards`, `RestoreHistory`, `RestoreOutcomes`, `RestoreProgress`, `RestoreConfirmation`, `RestoreApproval` | the physical restore protocol: a state machine whose steps are the API writes of the Restore controller, Cluster reconciles, users, pods, Jobs, volumes and crashes; its invariant; mutual exclusion; the three writes that break it, each reached from an initial state; who starts PostgreSQL again; what is reported and deleted; deletions that end; approvals |
| `RestoreObjects` | the same protocol's in-place changes (annotation map, status, volume loop), proved against the steps of `RestoreModel` |
| `GrantKeys`, `GrantWorld`, `GrantEngine`, `GrantPasses` | the grant engine with its intent log: ledger keys, the server and the status as a world in which every statement may fail or crash, the engine's loops, and runs of passes |
| `PublicPrivileges` | the mirror image: default privileges taken away from PUBLIC and given back |
| `RolePassword` | the password protocol over PostgreSQL, the credentials Secret and the Role's status |
| `Replication` | names and ordinals, volume cleanup, replication slots |
| `PasswordSync` | bounded restarts with growing delays, and their record |
| `ExtensionPlan`, `ExtensionVersions`, `ExtensionOwnership` | dependency closure and policy, version order, the record of what pgop created |
| `ConfFile` | the printer of postgresql.conf and the server's reader |
| `Decimal`, `Text`, `Option` | decimal numbers, `strings.Split` and `strings.Join` as Go has them |

A world class (`GrantWorld.World`, `PublicPrivileges.World`, `RolePassword.World`, ...) is the state outside the
operator. Its methods are the calls the operator makes; they choose an outcome (done, failed, crashed, ...)
freely, and a call that does not report success may have been applied. A method that returns after `Crashed`
models the crash, so the states in which runs can end include every state between two calls. `reliable` says
that every call succeeds that can be carried out: what a method promises then cannot be evaded by failing.

## What was found

* **Restore exclusion.** With no Restore deleted between recording its Job and finishing, and no vanished
  target coming back, a live restore Job has PostgreSQL off, is the only one, and its Restore holds
  `restore-in-progress` (`RestoreExcludesPostgres`). In every state, exactly three kinds of write break the
  exclusion (`ExclusionStep`, both directions), and each is reachable:
  a deleted Restore gives the Cluster up before its Job's pods are gone
  (`internal/controller/restore_physical.go:556`), so a second, confirmed Restore runs its Job beside it
  (`DeletedRestoreLosesExclusion`); a Restore that succeeded but crashed before recording that
  (between lines 480 and 494) succeeds again and clears the mark that guards another Restore's Job
  (`UnrecordedSuccessStartsPostgres`); and `createRestoreJob` (lines 271-291) does not check again that its
  Restore holds the Cluster, so a target that vanishes and comes back around a crash lets the Job run beside
  PostgreSQL (`TargetFlapRunsJobBesidePostgres`), or beside the Job of a Restore that has claimed the Cluster
  since (`TargetFlapRunsTwoJobs`). `docs/user-guide/restores.md:213-214` says that a second
  Restore also waits for one being deleted until its Job has stopped; the code does not do that, and the model
  follows the code.
  In every run a Restore whose Job was ever created was approved (`NothingRunsUnapproved`), a reported success had
  its Job completed (`SuccessIsTrue`), and from every reachable state a deleted Restore can still go away
  (`DeletedRestoreCanGo`).
* **Passwords.** A reconcile that completes leaves the Secret with PostgreSQL's password if and only if the
  two agreed or the Role, as it was when its status was written, called for a password to be sent
  (`RolePassword.Reconcile`). A rotation request that is withdrawn after its password was sent and before the
  Secret was written breaks this for every reconcile after that (`WithdrawnRequestComesApart`); as long as none
  is withdrawn, the promise holds in every run, others acting between any two calls (`Run`).
* **Size of the object grant ledger.** Whatever is declared, what a pass may record stays within the size of the
  ledger if and only if the kept entries leave room for one more (`RoomForOneDecides`). Over a ledger full of kept
  entries a pass tries to record one entry too many; the API refuses such a status (`maxItems`, 4096), so nothing
  is granted (`PassOverFullLedger`).
* **Grants that miss the ledger.** The intent log records what is missing when the plan is made. When others act
  between plan and statement, exactly those additions miss it that come with a grant option, were read to be
  held, are not held any more and are not listed (`GrantOne`); such a privilege stays when its declaration goes
  (`OptionAfterRevoke`). Everything else that pgop granted is in the ledger or was reported, in every run (`Run`).
* **Extensions.** A DROP EXTENSION hits an installation that pgop created, with the owner in its entry, if and only
  if it hits exactly what the entry names and that was no misreading of an earlier creation
  (`ExtensionOwnership.Run`). DROP EXTENSION names the extension and not the installation, so a replacement
  between lookup and drop is hit (`ReplacedBeforeDrop`); one between CREATE EXTENSION and its read-back is
  recorded as pgop's and dropped later (`ReplacedBeforeLookup`). A CREATE EXTENSION runs only scripts that are
  trusted or allowed if and only if what CASCADE reaches through an extension dropped since the plan is allowed
  (`DroppedDecides`, in every run): CASCADE installs what was dropped again, and what that requires, unchecked
  (`DroppedBeforeCreate`).

## Model

| member | source | states |
|---|---|---|
| RestoreSafety.StepKeepsInv | internal/controller/restore_physical.go:139-235 | Every write of a reconcile, crash, user action, Cluster reconcile, pod, volume and Job step keeps the invariant: restore-in-progress names an unfinished Restore with a finalizer, active Jobs belong to unfinished Restores that recorded them, PostgreSQL is off once the holder has recorded its Job, and the running reconcile's copy is current but for a deletion |
| RestoreSafety.ExclusionStep | internal/controller/restore_physical.go:172-235 | In every reachable state in which live Jobs exclude PostgreSQL and each other, a step keeps it so if and only if it is not one of three writes described by what holds just before them |
| RestoreSafety.ClaimExclusion | internal/controller/restore_physical.go:173-192 | Claiming the Cluster keeps the exclusion if and only if no Job may still run |
| RestoreSafety.FinishExclusion | internal/controller/restore_physical.go:326-381 | The end of a Restore keeps the exclusion unless it is a success that clears the only mark guarding another Restore's live Job |
| RestoreSafety.CreateJobExclusion | internal/controller/restore_physical.go:271-291 | A Restore that holds the Cluster may create its Job; one that does not hold it and is not being deleted breaks the exclusion by it; and in all cases the exclusion is kept if and only if the write is not the hazard (a mark may stand in for holding the Cluster only while the Restore is being deleted) |
| RestoreRuns.RestoreExcludesPostgres | internal/controller/restore_physical.go:139-291 | In every run of competing Restores without mid-run deletion and without a target that comes back: no PostgreSQL pod beside a Job pod, at most one Job with a pod, and its Restore is unfinished and holds restore-in-progress |
| RestoreRuns.DeletionMidRunIsSafeAlone | internal/controller/restore_physical.go:521-570 | A Restore may be deleted at any moment, its Job running, as long as no other is unfinished |
| RestoreRuns.HazardsAreTheOnlyWayOut | internal/controller/restore_physical.go:139-570 | A run without the three writes, whatever else happens in it, keeps PostgreSQL and restore Jobs apart |
| RestoreRuns.CreatorHoldsCluster | internal/controller/restore_physical.go:266-291 | In every run in which no vanished target comes back, whatever is deleted, claimed, finished or cut short meanwhile: a Restore that creates its Job holds the Cluster at that moment, and PostgreSQL is off; before that, a Restore that has recorded its Job, has none and is not being deleted holds it, or its target is gone |
| RestoreHazards.DeletedRestoreLosesExclusion | internal/controller/restore_physical.go:556 | For all names: a run in which no target appears leads to a deleted Restore's Job and a second Restore's Job both writing the volume |
| RestoreHazards.HazardousClaimRunsTwoJobs | internal/controller/restore_physical.go:177-187 | After every reachable claim beside live Jobs, of a Restore that is not being deleted on a Cluster with its primary's volume, a run leads on to its Job and any of those both having a pod |
| RestoreHazards.TargetFlapRunsJobBesidePostgres | internal/controller/restore_physical.go:271-291 | For all names: a run without any deletion leads to a Job, created after its Restore released the Cluster, running beside PostgreSQL |
| RestoreHazards.TargetFlapRunsTwoJobs | internal/controller/restore_physical.go:271-291 | For all names: a run without any deletion, with a second Restore claiming the Cluster in between, leads to both Jobs writing the volume |
| RestoreHazards.UnrecordedSuccessStartsPostgres | internal/controller/restore_physical.go:480-494 | For all names: a run in which no target appears and a success that was not recorded happens again leads to PostgreSQL running beside another Restore's Job |
| RestoreHazards.SecondSuccessStartsPostgres | internal/controller/restore_physical.go:351-353 | After every success of that kind, beside live Jobs, a run leads on to PostgreSQL running beside any of them |
| RestoreHazards.LateJobRunsBesidePostgres | internal/controller/restore_physical.go:286-289 | From every reachable creation of a Job on a Cluster that is not paused, a run leads on to PostgreSQL running beside it |
| RestoreHazards.LateJobRunsBesideHolder | internal/controller/restore_physical.go:286-289 | From every reachable creation of a Job while another Restore holds the Cluster and prepares, a run leads on to both Jobs having a pod |
| RestoreHazards.LateJobRunsBesideJob | internal/controller/restore_physical.go:286-289 | From every reachable creation of a Job while another's is live, a run leads on to both having a pod |
| RestoreHazards.LateJobRunsBesideRecorded | internal/controller/restore_physical.go:286-289 | From every reachable creation of a Job while another Restore holds the Cluster and has recorded its Job without creating it, a run leads on to both Jobs having a pod |
| RestoreHazards.LateJobRunsBesideNewcomer | internal/controller/restore_physical.go:286-289 | From every reachable creation of a Job while nobody holds the Cluster, even if restore-interrupted keeps it paused, a run leads on to the Job of a new Restore that claims it having a pod beside that one |
| RestoreHazards.UnpausedBesideLiveJob | internal/controller/cluster_controller.go:978-991 | From every state in which a Cluster is not paused and a Job is live, a run leads on to PostgreSQL running beside that Job |
| RestoreHistory.WhoUnpauses | internal/controller/restore_physical.go:326-365 | In every run, the operator makes a paused Cluster unpaused only by the end of a Restore that never created its Job, or of one whose Job completed; when that Restore held the Cluster, no standby volume is left at that moment |
| RestoreHistory.WhoClearsTheMark | internal/controller/restore_physical.go:343-365 | In every run, restore-interrupted goes away only by a user removing it or by the end of a Restore whose own Job completed; no release and no failed or interrupted end clears one |
| RestoreOutcomes.SuccessIsTrue | internal/controller/restore_physical.go:470-495 | In every run, a Restore in phase Succeeded, and one that status.lastRestore says succeeded, had its own Job completed |
| RestoreOutcomes.WhoDeletesVolumes | internal/controller/restore_physical.go:662-687 | In every run, the controller deletes a data volume only for a Restore whose own Job completed, and never the primary's |
| RestoreOutcomes.CompletedJobDecides | internal/controller/restore_physical.go:466-482 | Once its Job is complete, a Restore that is reconciled starts to delete exactly the standbys' volumes that are not being deleted yet, and goes on to its success if and only if there is no standby volume at all |
| RestoreProgress.DeletedRestoreCanGo | internal/controller/restore_physical.go:517-566 | From every reachable state, a Restore that is being deleted can still go away, without the help of a user: no crash, no lost or removed Job, no other Restore and no state of the Cluster keeps it for ever |
| RestoreApproval.StandingApprovalRunsOnce | internal/controller/restore_physical.go:396-413 | However often a name-only approval is applied again, Restores of that name are created again and the controller crashes, at most one Restore UID ever creates a Job |
| RestoreConfirmation.ConfirmedMeans | internal/controller/restore_physical.go:396-413 | The annotation confirms a Restore if and only if it is its name and UID joined by a slash, or its name alone while the Cluster has seen no other Restore through |
| RestoreConfirmation.ClaimDecides | internal/controller/restore_physical.go:139-192 | In every run, a reconcile goes on to claim the Cluster if and only if the Restore has its finalizer, is unfinished, not being deleted, has not recorded its Job and resolves, does not hold the Cluster already and no other unfinished one does, and the annotation approves it |
| RestoreConfirmation.NothingRunsUnapproved | internal/controller/restore_physical.go:396-413 | In every run, a Restore whose Job was ever created was approved at some moment of the run, in one of the two forms |
| RestoreObjects.FinishAnnotations | internal/controller/restore_physical.go:343-360 | The in-place changes of the annotation map are the model's step, and touch no other annotation |
| RestoreObjects.FinishOnCluster | internal/controller/restore_physical.go:326-381 | Whatever fails, the Cluster is as before, or has its annotations finished, or also lastRestore recorded; when it succeeds, all of it; a release with a Job of the Restore counts as interrupted |
| RestoreObjects.DeleteStandbyVolumes | internal/controller/restore_physical.go:662-687 | Only standby volumes are touched, the count is that of the standby volumes listed, none of those left is not being deleted, and a count of zero means nothing was changed |
| RestoreObjects.CompletePhysicalRestore | internal/controller/restore_physical.go:470-495 | While a standby volume exists, neither the Cluster nor the phase moves on; a Restore that becomes Succeeded has finished on the Cluster before |
| GrantKeys.KeyIdentifies | internal/controller/privilege_grants.go:92-103 | Two targets have the same key if and only if kind, grantee, forRole and (OID if set, else name) agree, for all names |
| GrantKeys.QuotePrefix | internal/controller/privilege_grants.go:94-101 | A quoted name can be told from whatever follows it, for all names |
| GrantWorld.World.GrantTo | internal/controller/privilege_grants.go:174-176 | GRANT on the server, after whatever others did since the last call: all or nothing, kept account of as pgop's; of what it adds, exactly what the durable ledger does not list is counted as missing the ledger |
| GrantWorld.World.RevokeFrom | internal/controller/privilege_grants.go:177-178 | REVOKE on the server, after whatever others did since the last call: all or nothing, refused as a whole without CASCADE when one of the privileges was passed on |
| GrantWorld.World.Save | internal/controller/privilege_grants.go:222-225 | The status write, of a ledger that covers pgop's grants: refused without effect if the API does not take the ledger, and otherwise perhaps applied although it fails |
| GrantEngine.PlanMissing | internal/controller/privilege_grants.go:342-354 | The plan adds exactly the declared privileges and grant options that were not held when it read them, and plain grants and grants with option together cover them |
| GrantEngine.MakePlan | internal/controller/privilege_grants.go:278-288 | Undisturbed and except at targets whose reads failed, the plan adds exactly what is missing of the declared grants; nothing missing means an empty plan; whatever others do meanwhile, recording it never lists what a grantee that is left alone held at the start |
| GrantEngine.GrantMissing | internal/controller/privilege_grants.go:289-314 | What is about to be granted is recorded first; if that fails or the API refuses it, no statement is issued; undisturbed, everything planned is held afterwards except at failed targets, and nothing misses the ledger |
| GrantEngine.GrantOne | internal/controller/privilege_grants.go:298-309 | Grant options first, plain privileges only after them, one statement each; with others acting in between, exactly those additions miss the ledger that come with a grant option, were read to be held, are not held any more when they are granted and are not listed |
| GrantEngine.RevokeEach | internal/controller/privilege_grants.go:423-437 | One at a time: each privilege is revoked, blocked because it was passed on, or failed; none of the revoked ones remains as pgop's; undisturbed, the blocked ones are still held |
| GrantEngine.RevokeRemoved | internal/controller/privilege_grants.go:359-418 | Without errors the entry keeps exactly what is still declared; undisturbed, exactly what is recorded and no longer declared is revoked, except for blocked privileges without a recorded option that were passed on, which leave the entry and are reported; what is gone leaves the ledger without a statement; what remains recorded still covers pgop's grants in every case, whatever others do |
| GrantEngine.RevokeAll | internal/controller/privilege_grants.go:316-329 | A failing target does not hold up the others; with nothing to revoke no statement is issued |
| GrantEngine.Apply | internal/controller/privilege_grants.go:252-330 | The whole pass: undisturbed, per target the new privileges, options, entry and reported ones, whatever fails elsewhere; over the limit nothing is granted or recorded, entries only go, and revokes still run; at rest nothing is issued; whatever others do, without a record no statement, and what is to be recorded is right |
| GrantPasses.PassWithin | internal/controller/privilege_grants.go:252-330 | Undisturbed: without errors every target is reconciled (see DidReconcile); when calls succeed, the limit holds, the targets exist and nothing was passed on, there are none if the API takes the ledgers, and otherwise nothing has changed; at rest no statement is issued and the ledger stays |
| GrantPasses.Pass | internal/controller/database_object_grants.go:743-765 | A pass with the controller's limit and an API that takes up to that many entries: it is over the limit exactly if tracked and declared keys are more than what the kept entries leave, and more than one; with room for all of them it has no errors when undisturbed, unless something is in the way; without any room it is clean or has changed nothing |
| GrantPasses.DidReconcile | internal/controller/privilege_grants.go:342-418 | held = (held + declared) - (recorded - declared), entry = (recorded and declared) + (declared - held before), and likewise for grant options |
| GrantPasses.CleanPassRests | internal/controller/privilege_grants.go:252-330 | After a pass without errors, a second one finds nothing missing and nothing recorded in vain |
| GrantPasses.PassTwice | internal/controller/privilege_grants.go:252-330 | A second pass right after one without errors issues no statement and leaves privileges and ledger as they are, when nobody acts during them |
| GrantPasses.Run | internal/controller/privilege_grants.go:232-330 | Over any run of passes, failures, crashes and changes by others between and during passes: what pgop granted and is still held is in the durable ledger, was reported as refused, or missed the ledger and was once taken away by others; nothing misses it when nobody acts during passes; when nobody else changes privileges, what was held at the start still is and is never recorded; the ledger stays within the limit, every attempt has at most one entry too many, and none too many where fewer entries than the limit are kept |
| GrantPasses.StaysBounded | internal/controller/database_object_grants.go:716-763 | With fewer kept entries than the limit, kept and managed entries together stay within it |
| GrantPasses.RoomForOneDecides | internal/controller/database_object_grants.go:762-764 | Whatever is declared, what a pass may record has at most as many entries as the ledger may hold, if and only if there are fewer kept ones than that |
| GrantPasses.PassOverFullLedger | internal/controller/database_object_grants.go:743-765 | A pass without failing calls over a ledger full of kept entries, with one new grant declared, tries to record one entry too many: the API refuses that, the pass reports an error, and privileges and ledger are as before (short entries stay below the byte budget that could stop it) |
| GrantPasses.OptionAfterRevoke | internal/controller/privilege_grants.go:289-304 | For all keys and privileges: a held privilege is declared with grant option, someone takes it away between plan and statement, the declaration is withdrawn: the privilege that pgop granted is held, a pass ends without errors, and no entry tracks it |
| PublicPrivileges.ReconcileItem | internal/controller/database_grants.go:348-389 | An item is revoked only after it is on record, and struck off the record only after it was given back |
| PublicPrivileges.ReconcileKind | internal/controller/database_grants.go:308-403 | After each item, done or failed: the others and those of the other kind are untouched, contradictory ones are left alone, and without errors each item asked for is taken away, each other one is as at the start, and what is gone and not asked for is off the record |
| PublicPrivileges.Run | internal/controller/database_grants.go:292-420 | In every durable state of every run, the schema public being dropped in between or not: of what is still there, PUBLIC holds an item or the record lists it exactly if PUBLIC held it at the start; a last pass that asks for nothing restores exactly that and empties the record |
| RolePassword.ChoosePasswordFresh | internal/controller/role_password.go:341-363 | A password is replaced only when a rotation is pending on the current Role |
| RolePassword.ResolvePassword | internal/controller/role_password.go:297-338 | A password taken from the Secret is sent only as the current Secret has it |
| RolePassword.ReconcileSecret | internal/controller/role_controller.go:750-812 | At most one write, of the given password and its fingerprint, and none when they are there and nothing else changes; if nothing was sent, only over a Secret with that password already; if one was sent, success means the Secret has it; whatever others write to it meanwhile |
| RolePassword.Reconcile | internal/controller/role_controller.go:168-227 | Completed, Secret and PostgreSQL agree if and only if they did or the Role as it was when the status was written called for a password; no rotation is left pending; what a later reconcile can put right stays so, whatever fails and whatever others do in between, unless a request is withdrawn; without a sent password neither changes; undisturbed and without failures it completes, sends a password exactly if one is requested, scheduled or not on record, and a rotation (and nothing else) leaves a password that the Secret never had, recorded with its time |
| RolePassword.SendsWhenCalledFor | internal/controller/role_password.go:176-189 | With the current Role, a password is sent if and only if the current objects call for it, however stale the Secret read |
| RolePassword.OnlyANewRequestSends | internal/controller/role_password.go:142-148 | With the password on record and no rotation due, a value of the annotation has a password sent if and only if it is a new request |
| RolePassword.WithdrawnRequest | internal/controller/role_controller.go:199-214 | A request whose password is sent, a crash before the Secret is written, and the request withdrawn: no later reconcile can put it right |
| RolePassword.WithdrawnRequestComesApart | internal/controller/role_controller.go:168-229 | Any number of reconciles after that complete and leave the Secret without PostgreSQL's password |
| RolePassword.Run | internal/controller/role_controller.go:168-229 | In every run in which no rotation request is withdrawn, others acting at any moment, every completed reconcile leaves PostgreSQL's password in the Secret |
| Replication.OrdinalNames | internal/controller/replication.go:183-200 | The ordinal parser accepts exactly the names the printer makes, below 2^63 |
| Replication.StandbyNames | internal/controller/replication.go:183-216 | A name is read as ordinal n of a volume, a pod or a slot if and only if it is data-CLUSTER-n, CLUSTER-n or pgop_replica_n in canonical form, below 2^63 |
| Replication.NamesAreNotShared | internal/controller/replication.go:188-211 | No volume and no pod name belongs to two Clusters |
| Replication.CleanupStandbyVolumes | internal/controller/replication.go:1288-1332 | Only obsolete volumes change; without errors every obsolete one is gone or going, and the ordinals returned are exactly those of the volumes that stay |
| Replication.TrimSlots | internal/controller/replication.go:1234-1269 | Exactly the slots of scaled-away and invalidated standbys that are not in use are dropped |
| Replication.ReconcileSlots | internal/controller/replication.go:1227-1278 | Every slot is kept, dropped or created as it should be; without errors exactly so |
| Replication.ReconcileReplication | internal/controller/replication.go:728-790 | Volumes first, then slots: the primary's and other Clusters' volumes stay, so do active, logical and foreign slots and the healthy slots of standbys whose volume is left; without errors every wanted standby with a pod has a slot, the volumes of standbys that were scaled away and have no pod go, and so do their slots and the invalidated ones |
| PasswordSync.ParsePrinted | internal/controller/replication.go:981-996 | Parsing a printed record returns it |
| PasswordSync.RestartPrimary | internal/controller/replication.go:1017-1059 | With the current record, a call gives up exactly at five attempts, waits exactly until 5, 10, 20 or 40 minutes after the last one and says for how long, and otherwise records an attempt and restarts once; with a stale one it restarts nothing |
| PasswordSync.Run | internal/controller/replication.go:1004-1059 | At most five restarts for one password, whose records are at least 5, 10, 20 and 40 minutes apart, whatever the clock, conflicts, failures and crashes |
| ExtensionPlan.Dependencies | internal/controller/database_extensions.go:274-305 | It ends on cyclic requirements, too, and splits exactly the names reachable through extensions to install into installed, to install and unavailable, without duplicates |
| ExtensionPlan.InstallVersions | internal/controller/database_extensions.go:324-340 | The version itself and exactly the versions on update paths to it that start at an installable one |
| ExtensionPlan.CheckVersions | internal/controller/database_extensions.go:344-372 | A problem if and only if some version is not trusted and the policy does not allow the extension |
| ExtensionPlan.VettedMayInstall | internal/controller/database_extensions.go:320-372 | Outside the policy, a version may be installed if and only if it and every version on every update path to it that starts at a version the server lists are listed as trusted |
| ExtensionPlan.PlanCreate | internal/controller/database_extensions.go:377-431 | A plan comes out only if the extension and all it needs are there and every script that may run is trusted or allowed, and it names exactly what will be installed, each outside the policy vetted (see VettedMayInstall); each refusal is justified and means no plan was possible |
| ExtensionPlan.PlanUpdate | internal/controller/database_extensions.go:566-605 | An update never lowers a numeric version, runs only scripts that are trusted or allowed, and finds all dependencies installed |
| ExtensionVersions.CompareVersions | internal/controller/database_extensions.go:793-815 | Lower, higher or equal exactly as the first differing numbers say; equal if and only if the versions agree without trailing zeros |
| ExtensionVersions.NumericVersion | internal/controller/database_extensions.go:818-832 | The loop yields the numbers of a version, or none (see NumericMeans) |
| ExtensionVersions.NumericMeans | internal/controller/database_extensions.go:817-832 | A version has these numbers if and only if it is their decimal forms, digits only and each below 2^64, joined with dots |
| ExtensionVersions.Trichotomy | internal/controller/database_extensions.go:789-815 | Exactly one of lower, same and higher holds, for versions of any length |
| ExtensionVersions.Transitive | internal/controller/database_extensions.go:789-815 | Lower and same are transitive, also mixed |
| ExtensionVersions.SameWithoutZeros | internal/controller/database_extensions.go:789-815 | Two versions are the same if and only if they agree after dropping trailing zeros |
| ExtensionOwnership.World.Create | internal/controller/database_extensions.go:549 | CREATE EXTENSION: installs exactly the extension and, with CASCADE, what it needs and is not installed; every one is planned well before |
| ExtensionOwnership.World.Drop | internal/controller/database_extensions.go:714-718 | DROP EXTENSION, issued for a created and confirmed entry whose oid and owner the lookup has just seen: refused without effect while other objects depend on the extension; otherwise, whatever others did since the lookup, it is logged with what it hits: what was looked up, or what has replaced it |
| ExtensionOwnership.CreateAndConfirm | internal/controller/database_extensions.go:549-562 | The entry claims what the lookup saw; that is what pgop created, or logged as a misreading; a creation that failed leaves no claim |
| ExtensionOwnership.CreateOne | internal/controller/database_extensions.go:521-563 | Nothing is created unless every script is trusted or allowed when it is planned, and not without a record of it, beside the spec's other entries, in the status; an allowed extension is created, and claimed if nobody interferes |
| ExtensionOwnership.ReconcileOne | internal/controller/database_extensions.go:159-186 | Undisturbed, the entry claims exactly what it claimed before and is still there, or what was created just now, which is created if and only if it is allowed |
| ExtensionOwnership.DropOne | internal/controller/database_extensions.go:696-730 | One removed extension: its drop is issued only if the lookup saw the oid and the owner of its entry, to be dropped; the entry is kept exactly when that drop is refused because other objects depend on the extension |
| ExtensionOwnership.DropRemoved | internal/controller/database_extensions.go:691-735 | Undisturbed and without failures, exactly those removed extensions are dropped that are still the confirmed installation and that no other object depends on; the entries of the refused ones are kept while the status has room |
| ExtensionOwnership.Pass | internal/controller/database_extensions.go:134-216 | Undisturbed, a pass adds only extensions of the spec and what CASCADE brings for them; without failures exactly those of the installed extensions are gone that were due to be dropped and that nothing depends on, and where the drop is refused the entry stays on record while the status has room; the status owns each listed extension that was owned before or has been created, and claims no other |
| ExtensionOwnership.DroppedDecides | internal/controller/database_extensions.go:377-431 | A creation that was planned well installs only what the policy allows if and only if everything that CASCADE reaches through an extension dropped since the plan is installed by then or may be installed under the policy |
| ExtensionOwnership.Run | internal/controller/database_extensions.go:134-216 | Over any run with crashes, failures and others acting before every statement: each drop was issued for an entry whose oid and owner the lookup saw, and hits pgop's own installation with the owner in the entry if and only if it hits what the entry names and that was no misreading; and each creation runs only trusted or allowed scripts if and only if that holds of what CASCADE reaches through an extension dropped after the plan |
| ExtensionOwnership.ReplacedBeforeDrop | internal/controller/database_extensions.go:700-714 | Create, confirm, replace, drop: the drop hits another's installation |
| ExtensionOwnership.ReplacedBeforeLookup | internal/controller/database_extensions.go:549-562 | Create, replace, read back, drop: another's installation is recorded as pgop's and dropped although nobody interferes by then |
| ExtensionOwnership.DroppedBeforeCreate | internal/controller/database_extensions.go:523-549 | An extension that the policy does not allow, dropped between plan and creation, is installed again by CASCADE |
| ConfFile.ReadEscaped | internal/controller/pgconfig.go:88-97 | What the server reads of a quoted value is the value, for all values |
| ConfFile.ReadConf | internal/controller/pgconfig.go:113-128 | The server reads the include line and then exactly the parameters in key order, with unchanged values |
| ConfFile.Render | internal/controller/pgconfig.go:118-128 | The file has the parameters in the one order of their names, and reads back as them |
| ConfFile.BeforeMeans | internal/controller/pgconfig.go:121 | The order of the keys is lexicographic: up to some place they agree, and there one ends or has the lower character |
| ConfFile.RenderIsInjective | internal/controller/pgconfig.go:113-128 | Different parameters are never rendered alike |

## Assumptions

* Restores: each reconcile reads current objects at one moment (later writes happen one at a time, with
  everybody else in between); a Cluster reconcile's annotation read and StatefulSet write are one step; a
  completed or failed Job has no running pods; nobody else removes a Job while its Restore is in
  CreatingJob, and a removed Job has no pods; users do not edit `restore-in-progress`, remove
  `restore-interrupted` only while no Job is live, and do not scale the StatefulSet; the Cluster is not deleted;
  one Restore reconcile runs at a time; names are non-empty and hold no slash.
* Grants: each pass reads the current status; a grantee is tracked by the privileges it holds from the object's
  owner; kinds hold no bar; desired keys are not among the kept ones. Others may act before every call; with
  `quiet` (undisturbed) they act only between passes, and with `alone` they never change privileges, except that
  grantees pass on what they can.
* PUBLIC: nobody else changes PUBLIC's privileges on the four items but by dropping the schema public, which is
  not created again, and the status read is current.
* Passwords: the Role's spec, a referenced password and the passwords in the Secret are not edited by hand;
  generated passwords are new; the clock does not go back, and a reconcile reads it once. Fingerprints are
  injective. A reconcile completes when its status update succeeds. The Secret may start without fingerprint, as
  an earlier release left it.
* Password restarts: the record does not count attempts for this password at the start, and no login succeeds
  (that clears it); times fit 64 bits in seconds.
* Extensions: no oid is used twice; the extension files on the server do not change; the server carries out a
  creation whose requirements are there or may be brought by CASCADE, also when they require each other.

## Left out

- Kubernetes and PostgreSQL plumbing: clients, watches, events, messages, SQL text, pod and Job templates, TLS.
- The PostgreSQL client package is not part of this model: the server is an abstract state.
- Order of keys and privileges in grant passes and listings: loops take them in any order, which covers the sorted one.
- Grants on the schemas of extensions: keys of two extensions that share a schema are not exclusive to one object, so the ledger's provenance is not claimed for them.
- Several entries for one key in a stored ledger: the engine merges them when it reads the ledger, and the model starts from the merged one.
- The byte budget of the object grant ledger (`database_object_grants.go:824-841`): it only removes declared grants before the engine runs, and the engine is proved for all declared grants.
- PublicPrivileges.Run: specs that also grant an item to PUBLIC are left alone here; what the grant engine then does to that item is not followed.
- The report that PUBLIC still holds an item from another grantor, which changes nothing.
- Password policy checks, NOLOGIN roles and the refusal of hand-edited passwords: single-branch facts.
- RolePassword.Run: a withdrawn request, an edited spec or a Secret edited by hand right after a failed write are outside its claim; for the first, the exact condition is proved.
- Replication password rollout: terminating pods are skipped there, so one standby at a time is not claimed.
- Schema checks before CREATE EXTENSION (`database_extensions.go:440-517`, `656-682`): each is decided by one rule per schema.
- RestoreHazards.HazardousClaimRunsTwoJobs: without the primary's volume the claim ends in a release, and a Restore that is being deleted ends in its finalizer, so these are left out of the claim.
- ALTER EXTENSION ... UPDATE is modelled by its check (ExtensionPlan.PlanUpdate), not as a statement in the runs of ExtensionOwnership; it changes neither oid nor owner.
- ExtensionOwnership.DropRemoved: which removed extensions stop being tracked when the status is full is left open; they are then never dropped. Whether other objects depend on an extension when its DROP runs is an input.
- ConfFile.ReadConf: names are read as letters, digits, underscores and dots; the server's own limit on dots in names is not modelled, nor are unquoted values. The hash of the file is not modelled.
- Finalizer waits for Job pods are modelled, foreground deletion by the garbage collector only by its result (`JobRemoved`).
- Role memberships, settings, ownership markers, requeue times, image tags and generated code: easier variants of what is here, or single-branch facts.
