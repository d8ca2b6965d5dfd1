# The CloudNativePG provider, modelled and verified

The provider turns OpenEverest resources (Instance, Backup) into CloudNativePG ones (Cluster,
Backup, ScheduledBackup, Database) and Barman ObjectStores. It is a reconciler: every call reads
the object store, changes a few objects and returns, while operators, Jobs, retention and users
change the same objects in between. This project models the calls and the other actors and proves
what they keep true over every run. `dafny verify dfyconfig.toml` checks it.

## How it is built

One module per file, in five groups.

* **Backup lifecycle.** `Backups` has the objects and, as functions, what one call of
  `SyncBackup`, `CleanupBackup` and `deleteBackupData` does. `BackupController` has the same calls
  as methods on a class that holds the API server's maps; their contracts say that they do exactly
  what the functions say. `BackupProtocol` interleaves the calls with sixteen kinds of steps of
  others. It states one invariant that every run keeps (`ObjectsOk`) and one that orderly runs keep
  (`Inv`); `BackupInvariant` proves both. `BackupFrames` says what a single event can change,
  `BackupSafety` what follows for runs, `BackupReports` when reported states go back,
  `BackupProgress` that the deletion finishes, `BackupEnding` when it still can. `Recovery` adds
  restores.
* **Shared retention.** `Retention` has the policy of one storage, the refusal rule and one
  reconcile, `RetentionProtocol` any number of Instances taking turns.
* **Extensions.** `Extensions` has the table, the validators and the Database, `ExtensionsApply`
  what is put on the Cluster, as a function and in place on heap objects, `ExtensionsProtocol`
  arbitrary spec edits with crashes between the two applies, for every well-formed table, and
  `ExtensionsTable` shows that the provider's table is one.
* **Schedules.** `Schedules` is the desired-state loop and its interruptions, `Cron` the cron
  conversion, `Names` the generated names.
* **Small parts.** `Versions`, `Identifiers`, `Cpu`, and `Regexes` for the last and for retentions.

## What the results show

* When `CleanupBackup` reports true for a Backup that is not Retain, none of its data is left, for
  any naming of Jobs, even one that gives all Backups the same Job name. Two things carry this: the
  ownership check, and that the CNPG Backup goes last. It holds in every orderly run, that is, as
  long as three conditions hold. What happens without each of them is proved too:
  * The Job is well addressed when it is created: endpoint, path and server name were each recorded
    by the CNPG Backup, or are still those the data was written to. An undisturbed deletion always
    reports true, and the data is gone if and only if this held (`DeletionIsExact`). An edit of the
    storage breaks it exactly when it changes an endpoint or a path that was not recorded
    (`StorageEditOrphansData`), and so can a Backup that adopts a CNPG Backup of another storage.
  * The backup is not at rest by then. `deleteBackupData` does not wait for the phases New and
    WalArchivingFailing; should a backup that has an ID resume from one of them after its Job has
    run, its data is left (`ResumedBackupOrphansData`).
  * Nobody else deletes the CNPG Backup while its data is protected and not drained. If somebody
    does, data is left exactly when it is in the bucket and there is no Job, or a complete one of
    another owner (`StrayDeletionOrphansData`).
* A deletion under Delete can still end, without a change of the configuration and without anybody
  deleting a Job, if and only if there is no failed Job under its Job name (`EndIsReachableExactly`).
* The absent path (`internal/provider/backup.go:218-229`) does not look at the owner of the Job it
  finds. Safety does not suffer, liveness does: a failed Job of another Backup under a colliding
  name blocks a cleanup that has nothing to do (`ForeignFailedJobBlocks`).
* At most one CNPG Backup is created per Backup, plus one for each creating call whose status was
  never stored.
* Reported states are not monotone. Of two calls that find the same CNPG Backup, the later takes
  back the earlier if and only if the Cluster is missing by then, or Running became a phase
  reported as pending (`Finalizing` has no case of its own), or WalArchivingFailing became a phase
  not reported as failed (`ReportsRegressExactly`); `BackupReportsRegressExactly` has the condition
  for any two calls for one Backup, with or without a CNPG Backup. A stored Succeeded is reported
  again exactly as long as the Cluster and the CNPG Backup exist and the parameters decode.
* A restore and the deletion Job of a Backup agree on ID, server and ObjectStore. The restore reads
  the data where it was written exactly when the ObjectStore still has that endpoint and path; the
  deletion also finds it where the CNPG Backup recorded them. They agree exactly when, for endpoint
  and path each, none is recorded or the ObjectStore has the recorded one.
* ScheduledBackup names are not unique across Instances. Names that fit unhashed collide exactly
  when one Instance name is the other with a dash and the beginning of its schedule name appended,
  as `a` with `b-c` and `a-b` with `c`; two such Instances take the ScheduledBackup from each other
  at every sync (`NamesCollideExactly`, `RespelledSchedulesChangeHands`).
* The retention freeze needs storage names to be unique inside an Instance
  (`DuplicateStorageOverwrites`).
* The three extension validators give together what none gives alone: leaving out any one breaks a
  property (`WithoutSupportedNamesRepeat`, `WithoutNotDisabledNamesAreOrphaned`,
  `WithoutAtCreationEditionsSwitch`).
* `versionAtLeast` reads a component whose leading digits overflow as the largest or, with a minus,
  the smallest int, not as 0 as its comment says of unparsable ones (`AtoiOfAnything`); it is a
  total preorder all the same.
* The form accepts CPU values that `validateCPU` rejects: above 9223372036854775.807 cores the milli
  value does not fit 64 bits. Up to there the two agree on tidy notation.
* `ApplyExtensions` copies the InitDB it is handed but writes the parameters map in place, so the
  decoded Instance parameters see the defaults.

## Assumptions

One call is one atomic step; a list followed by an apply sees no change in between. A call that
fails on an API error has done nothing or what the step does. For the rest:

* *Operator.* It assigns a backup ID once, together with the place it writes to, to an object that
  is not being deleted. No two objects share a location, and what it records of the place is true.
  Data exists only from then on, and is written only while the object is there and in progress.
  Completed and Failed are final; any other phase may follow any other.
* *Addresses.* Endpoint, path, server name and ID identify a base backup, whatever the region and
  the credentials, and differ when they are spelled differently. Barman's provider options name no
  endpoint.
* *Jobs.* A Job with an owner is one the provider built. Complete means that what its arguments
  address is gone. A complete or failed Job stays so. Anybody may create unowned Jobs and delete any
  Job at any time.
* *Runtime.* It calls cleanup only for Backups being deleted and removes a Backup only after
  cleanup returned true; it keeps a recorded operator ref when a later status omits it; the deletion
  policy is fixed once deletion began. Every policy other than Retain is treated as Delete.
* *Others.* Configuration, Clusters and Instances may change at any time, anybody may delete a CNPG
  Backup, and a Backup may adopt any existing one of its name. A scheduled CNPG Backup gets a name
  that is not in use.
* *Retention.* Names are unique, the specs are not edited during the run, and only this provider
  writes the ObjectStores.
* *Extensions.* Users do not list images under the names of catalog entries, an apply makes the
  stored spec the built one, and the catalog does not change inside one reconcile.
* *Applies.* An apply makes the applying Instance the controller of a ScheduledBackup, also of one
  that another Instance controls.
* *Hashes.* SHA-256 is any function to eight hex digits. Nothing is claimed about collisions.
* *Quantities.* The milli value of a quantity that fits is exact; for one that does not fit, the
  library returns any 64-bit number.
* *Strings* are byte sequences in `Names` and code points in `Cron`.

## Model

| member | source | states |
|---|---|---|
| BackupInvariant.NextKeepsObjects | internal/provider/backup.go:26-112 | Every step of the provider, the operator, the Job controller, Barman retention and users keeps the invariant of the objects: who bore which name, who owns what, what was recorded |
| BackupInvariant.NextKeepsInv | internal/provider/backup.go:205-250 | Every orderly step keeps the invariant that links each base backup in a bucket to an object that can still address it, for any Job naming |
| BackupInvariant.DoneMeansDrained | internal/provider/backup_delete.go:33-92 | When the data deletion reports done, the base backup is gone and will not be written again, even if another Backup's Job has the same name |
| BackupInvariant.NewJobAddresses | internal/provider/backup_delete.go:112-140 | A Job built for a CNPG Backup addresses its data if and only if endpoint, path and server were each recorded or are still those it was written to |
| BackupInvariant.NewJobIsOk | internal/provider/backup_delete.go:62-77 | The location of a finished CNPG Backup is data of its Backup that nobody writes any more |
| BackupInvariant.SyncStepCases | internal/provider/backup.go:29-112 | A sync call either creates the one CNPG Backup with the recorded fields, or changes nothing but its controller |
| BackupInvariant.SyncKeeps | internal/provider/backup.go:29-112 | A sync call keeps the invariant, whether or not its status is stored afterwards |
| BackupInvariant.CleanupMoves | internal/provider/backup.go:208-250 | A cleanup call does nothing, creates the one Job, or deletes the one CNPG Backup after its data is dealt with; it returns true only without doing anything |
| BackupInvariant.CleanupKeeps | internal/provider/backup.go:208-250 | An orderly cleanup call keeps the invariant |
| BackupFrames.EventFrame | internal/provider/backup.go:26-250 | Over any event but its removal a Backup keeps its uid, its deletion, its policy while deleted and its recorded ref; a CNPG Backup keeps its uid, its mark and a final status, and a new one appears only where none was recorded |
| BackupFrames.JobFrame | internal/provider/backup_delete.go:62-77 | Owned Jobs come from cleanup calls under Delete alone, only a deletion takes a Job away, and a finished Job stays as it is |
| BackupSafety.RunKeepsObjects | internal/provider/backup.go:26-250 | The invariant of the objects holds after every run |
| BackupSafety.RunKeepsInv | internal/provider/backup.go:205-250 | The whole invariant holds after every orderly run |
| BackupSafety.CleanupDoneMeansDataGone | internal/provider/backup.go:205-250 | In every orderly run, when cleanup returns true for a Backup that is not Retain, no base backup of its data is left in a bucket and its CNPG Backup is gone |
| BackupSafety.DeletionIsExact | internal/provider/backup_delete.go:112-140 | From every state of every run, an undisturbed deletion ends with cleanup returning true, and the data is gone if and only if the Job was well addressed, in endpoint, path and server |
| BackupSafety.StorageEditOrphansData | internal/provider/backup_delete.go:112-130 | After an edit of the ObjectStore's endpoint and path the deletion ends all the same, and leaves the data if and only if one of them was changed and not recorded |
| BackupSafety.RepointingIsAnEdit | internal/cnpg/barman/backup.go:165-176 | That change of the ObjectStore is an ordinary configuration step of a run |
| BackupSafety.ResumedBackupOrphansData | internal/provider/backup_delete.go:38-48 | A backup with an ID that was neither in progress nor ended when its Job was created, and resumes after that, leaves its data with cleanup returning true |
| BackupSafety.StrayDeletionOrphansData | internal/provider/backup.go:213-229 | After somebody else deleted the CNPG Backup, exactly when the next call returns true, and exactly when it then leaves data |
| BackupSafety.CreatedJobTargetsItsBackup | internal/provider/backup_delete.go:62-77 | A Job that a cleanup call creates is owned by the Backup, exists only for a policy other than Retain, and addresses the base backup if and only if it is well addressed |
| BackupSafety.JobRemovesOnlyOwnData | internal/provider/backup_delete.go:81-84 | In every orderly run, what a Job removes is data of the Backup that owns it, and that Backup, if it still exists, is being deleted with policy Delete |
| BackupSafety.RetainedAtDeletion | internal/provider/backup.go:234-242 | When deletion begins under Retain no Job acts for the Backup |
| BackupSafety.RetainCreatesNoJob | internal/provider/backup.go:234-242 | Over every run after that, no Job is ever created for it |
| BackupSafety.RetainKeepsData | internal/provider/backup.go:205-250 | Over every orderly run after that, its data stays until native retention expires it, even after its name is reused |
| BackupSafety.SyncCreatesExactlyWhenArchived | internal/provider/backup.go:48-84 | A CNPG Backup is created exactly when none exists or was recorded, the Instance configures the storage, the Cluster archives to it and the parameters decode; it names that storage and Cluster and nothing else changes |
| BackupSafety.AtMostOneCreation | internal/provider/backup.go:44-84 | In every run, at most one CNPG Backup is created per Backup, plus one per creating call whose status was not stored |
| BackupSafety.LostBackupStaysLost | internal/provider/backup.go:48-54 | Once a recorded CNPG Backup is gone, no later call of the run recreates it or reports Running or Succeeded |
| BackupReports.ReportsExactly | internal/provider/backup.go:29-145 | In every state of every run: Succeeded is reported exactly for a present Completed CNPG Backup, Running for Running, Failed for Failed, WalArchivingFailing, a lost recorded one or a storage not configured; exactly when parameters are refused, and when a ref is reported |
| BackupReports.StoredSuccessIsTrue | internal/provider/backup.go:86-109 | In every run, a Backup whose stored state is Succeeded has recorded its CNPG Backup, which is Completed or gone |
| BackupReports.ReportsRegressExactly | internal/provider/backup.go:33-109 | Of two calls in one run that find the same CNPG Backup, the later report takes back the earlier if and only if the Cluster is missing by then, or running became a phase reported as pending, or failed archiving a phase not reported as failed |
| BackupReports.BackupReportsRegressExactly | internal/provider/backup.go:33-112 | The same for any two calls for one Backup in one run: with the same, another or no CNPG Backup at the later call, recorded or not, and another one only where none was recorded |
| BackupReports.RecordedStaysTheSame | internal/provider/backup.go:48-54 | Over every run, a CNPG Backup found under the name of a recorded one is that one |
| BackupReports.RunningRegresses | internal/provider/backup.go:95-109 | A running backup can become finalizing in one step and is then reported as pending |
| BackupReports.ArchivingRegresses | internal/provider/backup.go:100-106 | A backup reported failed for its WAL archiving can run in one step and is then reported as running |
| BackupReports.MissingClusterRegresses | internal/provider/backup.go:33-40 | Without the Cluster every backup is reported as pending |
| BackupReports.SuccessIsReportedWhileItLasts | internal/provider/backup.go:33-109 | Once Succeeded was reported and stored, a later call of the run reports it if and only if the Cluster and the CNPG Backup exist and the parameters decode |
| BackupProgress.ActingCallProgresses | internal/provider/backup.go:208-250 | A cleanup call that changes anything lowers the number of remaining steps and asks to be called again |
| BackupProgress.CallsMoveExactly | internal/provider/backup.go:208-250 | In terms of the objects it finds: exactly when a call creates the Job, deletes the CNPG Backup, or fails |
| BackupProgress.FailuresAreExplained | internal/provider/backup_delete.go:50-92 | The error a call fails with is true |
| BackupProgress.EveryCallIsAccountedFor | internal/provider/backup.go:208-250 | A call requeues exactly when it acts or waits for a stated reason, never both, acts and fails exactly when the objects are so, and returns true exactly when the CNPG Backup is gone and no Job of that name is unfinished or failed |
| BackupProgress.ForeignFailedJobBlocks | internal/provider/backup.go:218-229 | A failed Job of another owner under the same name makes a cleanup without any data left fail |
| BackupProgress.WorkIsBounded | internal/provider/backup_delete.go:38-84 | Over every run, the calls that act are at most the remaining steps plus the deletions of the Job |
| BackupProgress.HelpWorks | internal/provider/backup_delete.go:38-84 | From every unobstructed state of every run the environment can make its next step, which brings the end closer, or the next call acts or returns true |
| BackupProgress.CooperationFinishes | internal/provider/backup.go:205-250 | With a cooperating environment cleanup returns true within eight rounds |
| BackupEnding.FailedJobBlocksForGood | internal/provider/backup_delete.go:87-92 | Over every run, whatever else is deleted or configured, no call returns true until a failed Job under the Job name is deleted |
| BackupEnding.EndIsReachableExactly | internal/provider/backup.go:208-250 | From every state of every run, an end without configuration changes and Job deletions can be reached if and only if the policy is Retain or no Job of that name has failed |
| BackupEnding.EndIsReached | internal/provider/backup.go:208-250 | Where it can be reached, an orderly run reaches it |
| Backups.DeletionJobIsBuiltExactly | internal/provider/backup_delete.go:94-140 | A Job is built if and only if the key references and the provider options are there and ID, path and server are each recorded or known; every error is true of what it names |
| Backups.ArchiveStoreIsTheFirst | internal/cnpg/barman/plugin.go:18-25 | The archive store is the parameter of the first enabled Barman plugin, and empty without one |
| Backups.DeletionJobAddressesItsBackup | internal/provider/backup_delete.go:94-140 | The arguments of a built Job address the endpoint, path, server and ID of its CNPG Backup with the fallbacks, whatever provider options stand between |
| BackupController.JobHas | internal/provider/backup_delete.go:258-274 | The loop finds exactly a condition of the kind that is true |
| BackupController.DeletionJobDone | internal/provider/backup_delete.go:87-92 | Failure wins over completion |
| BackupController.ArchiveObjectStoreName | internal/cnpg/barman/plugin.go:18-25 | The store of the first enabled Barman plugin, or the empty name |
| BackupController.InstanceHasBackupStorage | internal/provider/backup.go:134-145 | True exactly when backups are enabled and some storage has the name |
| BackupController.BackupStorageBlocker | internal/provider/backup.go:116-132 | Failed when the storage is not configured, Pending until the Cluster archives to it |
| BackupController.BuildBackupDeletionJob | internal/provider/backup_delete.go:94-140 | The appending code builds the specified Job or fails for the specified reason |
| BackupController.ApiServer.DeleteBackupData | internal/provider/backup_delete.go:33-85 | The whole new state and outcome are those of the step function, with the hashed Job name |
| BackupController.ApiServer.Delete | internal/provider/backup.go:244-248 | With finalizers the object is only marked, otherwise it is gone |
| BackupController.ApiServer.CleanupBackup | internal/provider/backup.go:208-250 | The whole new state and outcome are those of the step function the protocol is proved about |
| BackupController.ApiServer.SyncBackup | internal/provider/backup.go:29-112 | The whole new state and status are those of the step function the protocol is proved about |
| Recovery.RestoreAndDeleteAgree | internal/cnpg/barman/restore.go:60-106 | In every run, a recovery config comes from the Completed CNPG Backup of the same name, with a non-empty ID, and its ID, server and store are those of the deletion Job; exactly when each of the two finds the data where it was written, endpoint included, and exactly when they agree |
| Recovery.RecoveryNeedsACompletedBackup | internal/cnpg/barman/restore.go:109-163 | In every run, exactly when such a config is built |
| Recovery.RecoveryFailsExactly | internal/cnpg/barman/restore.go:109-163 | In every run, exactly when each reason to wait or to fail is given; the wait for the completion of a CNPG Backup never is |
| Recovery.PointInTimeReadsTheSource | internal/cnpg/barman/restore.go:48-60 | A point-in-time recovery reads where the Cluster of the source, or of the Instance itself, keeps its base backups, up to the date or the end |
| Names.NamesFit | internal/provider/backup_delete.go:243-254 | Both generated names have at most 63 bytes for all inputs |
| Names.JobNameKeepsPrefix | internal/provider/backup_delete.go:249-253 | A Job name starts with `delete-backup-`, also when the trimming eats the prefix's own dash |
| Names.TrimSeparatorsIsAPrefix | internal/provider/backup_delete.go:253 | Trimming removes exactly the trailing dashes and dots |
| Names.FittingJobNamesDiffer | internal/provider/backup_delete.go:243-248 | Backups whose Job names fit have different ones |
| Names.LongNamesEndInTheirDigest | internal/provider/backup_delete.go:249-253 | A name that does not fit is the beginning of the full name, a dash and the digest, of the Backup's name for a Job and of the joined names for a ScheduledBackup |
| Names.NamesCollideExactly | internal/cnpg/barman/schedule.go:191-195 | Names that fit unhashed are equal if and only if Instance and schedule are, or one pair is the other with the dash read elsewhere |
| Names.RespelledMeans | internal/cnpg/barman/schedule.go:191-195 | The dash read elsewhere: the longer Instance name is the shorter, a dash and m, and the schedule of the shorter is m, a dash and the other schedule |
| Names.RespelledNamesCollide | internal/cnpg/barman/schedule.go:191-200 | Such pairs generate the same name at any length, hashed or not |
| Retention.StorageRetentionPolicy | internal/cnpg/barman/schedule.go:62-81 | The loop computes the specified policy or the first error |
| Retention.PolicyIsCommonDuration | internal/cnpg/barman/schedule.go:61-81 | The policy is p exactly when every schedule, disabled ones included, has no retention and p keeps all, or has time retention p and p matches the regular expression; keep all without schedules |
| Retention.PolicyFailsExactly | internal/cnpg/barman/schedule.go:62-81 | Each error is returned exactly when it blames the first schedule that is wrong: not time, no match, or not what the one before asks for |
| Retention.DurationIsTheRegex | internal/cnpg/barman/schedule.go:23 | The durations accepted are exactly those of the regular expression |
| Retention.PolicyIgnoresOrderAndEnabled | internal/cnpg/barman/schedule.go:61-81 | The policy depends on the set of retentions alone |
| Retention.ObjectStores.CheckSharedRetention | internal/cnpg/barman/backup.go:99-147 | Refuses exactly when a live peer disagrees and the store does not already hold the policy; every reported conflict is a real one |
| Retention.ObjectStores.SyncBackupInfrastructure | internal/cnpg/barman/backup.go:23-97 | Stores the policies of the storages up to the first that is blocked, and returns the plugin from which the archive store is read back as the first storage |
| RetentionProtocol.OnlyUndisputedWritesChange | internal/cnpg/barman/backup.go:99-141 | At every write, a stored policy changes only to what each live peer wants |
| RetentionProtocol.DisputedPolicyIsFrozen | internal/cnpg/barman/backup.go:99-147 | While two live Instances disagree, no sequence of reconciles of any Instances creates the ObjectStore or changes its policy, and whoever matches it is not refused |
| RetentionProtocol.DuplicateStorageOverwrites | internal/cnpg/barman/backup.go:30-87 | An Instance that lists a storage twice overwrites a disputed policy |
| RetentionProtocol.AgreementSettles | internal/cnpg/barman/backup.go:75-87 | When the live Instances agree, one successful reconcile stores the policy, it stays through every run and no later check refuses |
| RetentionProtocol.AccessFailsExactly | internal/cnpg/barman/backup.go:30-73 | Each reason not to look at the retention is given exactly in its case |
| RetentionProtocol.ReconcileSucceedsExactly | internal/cnpg/barman/backup.go:23-97 | A reconcile succeeds if and only if every storage is usable, has a policy and is not refused; then each stores what its schedules ask for, and other stores never change |
| RetentionProtocol.WithoutBackupsNothingIsWritten | internal/cnpg/barman/backup.go:24-27 | An Instance with backups off or without storages writes nothing and is not refused |
| Cron.AsciiWhiteSpace | internal/cnpg/barman/schedule.go:184 | Among ASCII characters, exactly the six that Go's `unicode.IsSpace` names separate fields |
| Cron.OnlyFieldsMatter | internal/cnpg/barman/schedule.go:179-189 | The conversion depends on the white-space-separated fields alone |
| Cron.ConversionPrependsSeconds | internal/cnpg/barman/schedule.go:179-189 | It succeeds exactly for a lone descriptor, which is kept, and for five fields, and then splits into "0" and those five |
| Cron.ConversionExactly | internal/cnpg/barman/schedule.go:25-34 | An expression converts if and only if it has five fields or is one of the seven descriptors |
| Cron.ConvertedIsRejected | internal/cnpg/barman/schedule.go:184-188 | A converted expression is never accepted again |
| Schedules.BuildScheduledBackups | internal/cnpg/barman/schedule.go:120-155 | The nested loops build the specified objects or return the first error |
| Schedules.SyncEstablishesDesired | internal/cnpg/barman/schedule.go:83-118 | From any objects, after a successful sync the Instance controls exactly the desired names, each as last desired, what it controlled besides is gone, and nothing else has changed |
| Schedules.SyncMatchesSchedules | internal/cnpg/barman/schedule.go:83-155 | After a successful sync the Instance controls exactly one ScheduledBackup per name generated from an enabled schedule |
| Schedules.SyncedSpecsMatchSchedules | internal/cnpg/barman/schedule.go:83-155 | After a successful sync every controlled object is, in full, that of an enabled schedule: its Cluster, storage, parameters, and second 0 with its five fields or its descriptor |
| Schedules.BuildExactly | internal/cnpg/barman/schedule.go:120-155 | Building succeeds if and only if every enabled schedule converts and decodes, and what is built comes from one |
| Schedules.BuildFailsExactly | internal/cnpg/barman/schedule.go:131-138 | The error is about the first enabled schedule that cannot be built, and says which part |
| Schedules.DesiredExactly | internal/cnpg/barman/schedule.go:120-123 | Without backups nothing is wanted and nothing fails |
| Schedules.EntriesExactly | internal/cnpg/barman/schedule.go:126-127 | All schedules of all storages are looked at, each with its own storage |
| Schedules.LaterSyncTakesShared | internal/cnpg/barman/schedule.go:94-117 | After one Instance synced and then another, the first controls exactly the names it wants and the other does not |
| Schedules.RespelledSchedulesChangeHands | internal/cnpg/barman/schedule.go:94-117 | Two Instances whose schedules generate the same name take its ScheduledBackup from each other |
| Schedules.InterruptionsDoNotMatter | internal/cnpg/barman/schedule.go:94-117 | Wherever a sync was cut off, the next successful one ends as the first would have |
| Schedules.SyncIsIdempotent | internal/cnpg/barman/schedule.go:94-117 | A second sync changes nothing |
| Schedules.LookupInvertsNaming | internal/cnpg/barman/schedule.go:157-175 | For distinct schedule names that fit unhashed the lookup inverts the naming |
| Schedules.MirrorFindsTheSchedule | internal/provider/backup_mirror.go:25-78 | A CNPG Backup produced by a ScheduledBackup is mirrored with the storage, name and parameters of the schedule the ScheduledBackup was built from |
| Schedules.MirrorsExactly | internal/provider/backup_mirror.go:25-78 | Exactly when a CNPG Backup is mirrored, and that all it is mirrored with is its own or that of a schedule of the generated name |
| Schedules.ScheduledBackups.ApplyAll | internal/cnpg/barman/schedule.go:94-102 | Applies a prefix of the desired objects, all unless the API server fails |
| Schedules.ScheduledBackups.DeleteStale | internal/cnpg/barman/schedule.go:104-117 | Deletes only what the Instance controls and does not keep, all of it unless the API server fails |
| Schedules.ScheduledBackups.SyncScheduledBackups | internal/cnpg/barman/schedule.go:85-118 | A sync without error ends in the specified state; one that fails leaves a state the next sync repairs |
| Versions.VersionAtLeast | internal/cnpg/extensions.go:221-238 | The loop decides the lexicographic order on zero-padded components |
| Versions.AtoiOfAnything | internal/cnpg/extensions.go:221-232 | For every component, signed or not: 0 when something else comes before 64 bits are full, and otherwise the leading number with its sign, clamped; one that is no int reads as 0 exactly in that case or when it is empty |
| Versions.SplitCuts | internal/cnpg/extensions.go:224 | The components are free of dots and joined by dots give the version |
| Versions.AtLeastIsNotLess | internal/cnpg/extensions.go:221-238 | The order is the one that compares the first numbers and then the rest |
| Versions.TenIsMoreThanSix | internal/cnpg/extensions.go:221-222 | 18.10 is at least 18.6, 18.4 is not |
| Versions.AtLeastIsTotal | internal/cnpg/extensions.go:221-238 | The order is total, and equivalent versions are those equal up to trailing zeros |
| Versions.AtLeastIsTransitive | internal/cnpg/extensions.go:221-238 | The order is transitive |
| Identifiers.QuotedReadsBack | internal/cnpg/extensions.go:359-361 | Lexing a quoted name, before any text that does not begin with a quote, gives the name and that text |
| Identifiers.DelimitedIsQuoted | internal/cnpg/extensions.go:359-361 | Every delimited identifier is the quoted form of its name |
| Extensions.ValidateExtensions | internal/cnpg/extensions.go:173-204 | Accepts exactly when release, dependencies and conflicts suit every enabled extension; an error is true of the extension it names |
| Extensions.SupportIsUpwardClosed | internal/cnpg/extensions.go:178-204 | What is accepted is accepted by every later release of the same major |
| Extensions.ReleaseIs | internal/cnpg/extensions.go:206-214 | The engine's version, or else the Instance's, or else the default |
| Extensions.MajorIs18 | internal/cnpg/extensions.go:216-219 | The major is 18 for 18 itself and for what begins with 18 and a dot |
| Extensions.FindIsTheFirst | internal/cnpg/extensions.go:278-282 | The catalog entry taken is the first of its name |
| Extensions.ResolveExtensionImages | internal/cnpg/extensions.go:249-290 | The images of exactly the enabled image extensions as the catalog has them, or an error that is true |
| Extensions.ValidateExtensionsAtCreation | internal/cnpg/extensions.go:336-357 | Accepts exactly when every enabled creation-only extension is on the existing Cluster |
| Extensions.ValidateExtensionsNotDisabled | internal/cnpg/extensions.go:429-457 | Accepts exactly when everything the Database creates is still created by something enabled |
| Extensions.BuildExtensionsDatabase | internal/cnpg/extensions.go:379-412 | Lists the SQL name of each enabled extension in table order with its image's version, and is absent when there are none |
| Extensions.SpecsExactly | internal/cnpg/extensions.go:381-398 | The Database lists exactly the SQL extensions of what is enabled, each in the version the catalog annotates for its image and major, or the default |
| ExtensionsApply.ApplyServes | internal/cnpg/extensions.go:292-334 | User images, libraries and statements stay as a prefix, user parameters win, nothing listed is added again, and every enabled extension finds all it needs |
| ExtensionsApply.ApplyIsIdempotent | internal/cnpg/extensions.go:292-334 | Applying twice is applying once |
| ExtensionsApply.ImagesExactly | internal/cnpg/extensions.go:297-300 | The Cluster lists exactly what the user listed and, where the user listed nothing of its name, the resolved image of each enabled extension |
| ExtensionsApply.LibrariesExactly | internal/cnpg/extensions.go:302-306 | A library is preloaded exactly when the user or an enabled extension asks for it |
| ExtensionsApply.ParametersExactly | internal/cnpg/extensions.go:308-315 | A parameter has the user's value, or else the first enabled extension's default, and is not set otherwise |
| ExtensionsApply.BootstrapExactly | internal/cnpg/extensions.go:317-332 | Without bootstrap SQL nothing changes; otherwise the initdb keeps database and owner, and its statements are the user's and those whose end a PostgreSQL lexer reads as the owner |
| ExtensionsApply.OnlyEnabledImages | internal/cnpg/extensions.go:297-300 | An image is listed exactly when the user listed it or an enabled extension brought it |
| ExtensionsApply.Parameters.AddMissing | internal/cnpg/extensions.go:308-315 | Whatever the map order, the unset defaults are added and nothing set is changed |
| ExtensionsApply.Cluster.AddBootstrapSQL | internal/cnpg/extensions.go:317-332 | The statement is added to a fresh copy of the InitDB |
| ExtensionsApply.Cluster.ApplyExtensions | internal/cnpg/extensions.go:292-334 | The Cluster becomes what the specification says, the InitDB it was handed keeps its value even when aliased, the parameters map is the one it was handed |
| ExtensionsProtocol.CreationOnlyMeansFromCreation | internal/cnpg/extensions.go:336-357 | Over all accepted edits, a creation-only extension enabled at a sync was enabled at every earlier one |
| ExtensionsProtocol.EditionNeverChanges | internal/cnpg/extensions.go:429-457 | Of the extensions that create one SQL extension no two are ever enabled, not even at different syncs |
| ExtensionsProtocol.NamesInOrder | internal/cnpg/extensions.go:369-398 | The names listed in the Database are distinct, complete and come after their dependencies |
| ExtensionsProtocol.DatabaseIsOrdered | internal/provider/provider.go:229-277 | In every reachable state, also with a crash or pending restore between the applies, the Database lists each SQL extension once and after its dependencies |
| ExtensionsProtocol.DatabaseIsServed | internal/provider/provider.go:229-277 | In every reachable state, each of its extensions is still enabled, with its preload libraries on the Cluster and exactly the image the catalog had at the last sync |
| ExtensionsProtocol.DatabaseOnlyGrows | internal/provider/provider.go:268-275 | Over every run a name in the Database stays there |
| ExtensionsProtocol.EnabledExactly | internal/cnpg/extensions.go:148-171 | Enabled is what its toggle says |
| ExtensionsProtocol.EditsAcceptedExactly | internal/provider/provider.go:122-136 | In every reachable state, an edit is accepted if and only if its images resolve, its extensions suit release and each other, creation-only ones were enabled before, and all the Database lists stays enabled |
| ExtensionsProtocol.CreationAcceptedExactly | internal/provider/provider.go:122-136 | Before there is a Cluster only the first two count |
| ExtensionsProtocol.WithoutSupportedNamesRepeat | internal/provider/provider.go:122-124 | Without the first validator two editions are accepted and listed twice |
| ExtensionsProtocol.WithoutNotDisabledNamesAreOrphaned | internal/provider/provider.go:130-132 | Without the second the Database can list names that nothing serves |
| ExtensionsProtocol.WithoutAtCreationEditionsSwitch | internal/provider/provider.go:134-136 | Without the third an edition can be replaced by the other |
| ExtensionsTable.TableIsWellFormed | internal/cnpg/extensions.go:62-146 | The provider's table meets every hypothesis of the protocol |
| ExtensionsTable.TableSupportsExactly | internal/cnpg/extensions.go:173-204 | The provider's extensions are accepted if and only if all but pgvector and pgaudit run on 18, TimescaleDB Community on 18.6 or later, pgRouting comes with PostGIS, and not both editions are enabled |
| ExtensionsTable.CreationOnlyInTable | internal/cnpg/extensions.go:156-161 | The creation-only extensions are the two TimescaleDB editions, pg_ivm and AGE |
| ExtensionsTable.TimescaleEditionIsFixed | internal/cnpg/extensions.go:62-91 | Whichever TimescaleDB edition is enabled at one sync, the other is enabled at none |
| Cpu.ValidateCPU | internal/cnpg/validate.go:132-144 | Accepts exactly the positive whole numbers of millicores that fit 64 bits, whatever the library returns on overflow |
| Cpu.FormIs | definition/topologies/replicaSet/topology.yaml:314 | What the form's regular expression matches, in terms of the leading digits and what follows |
| Cpu.FormAgreesWithValidateCPU | internal/cnpg/validate.go:132-144 | For every string, the form accepts it if and only if it is tidy plain notation and either the validation accepts the quantity or its milli value overflows 64 bits |
| Cpu.WholeCores | internal/cnpg/validate.go:132-144 | Of whole numbers of cores without leading zeros the form accepts all, the validation exactly those up to the boundary |
| Cpu.BoundaryIsAcceptedByTheFormOnly | internal/cnpg/validate.go:139 | 9223372036854776 cores pass the form and fail the validation |

## Left out

- Cpu.ValidateCPU: does not model quantities in other notations (exponents, signs, suffixes other than m); quantity parsing is library code, modelled for plain decimal and milli notation only.
- BackupController.BuildBackupDeletionJob: leaves out pod details, environment, volumes and labels; the provider options of Barman's library are opaque arguments.
- BackupController.ApiServer.SyncBackup: leaves out messages and timestamps, and API failures other than not found.
- BackupController.ApiServer.DeleteBackupData: leaves out API failures other than not found, and a Job created by somebody else between the look-up and the creation.
- BackupController.ApiServer.CleanupBackup: leaves out API failures other than not found.
- Retention.ObjectStores.CheckSharedRetention: leaves out failures of the list and get calls.
- Retention.ObjectStores.SyncBackupInfrastructure: keeps only the retention of an ObjectStore; its other fields copy the BackupStorage.
- Extensions.BuildExtensionsDatabase: leaves out the database name, owner and reclaim policy.
- BackupSafety.CleanupDoneMeansDataGone: is about orderly runs; what happens without their conditions is BackupSafety.DeletionIsExact, BackupSafety.ResumedBackupOrphansData and BackupSafety.StrayDeletionOrphansData.
- Recovery.RestoreAndDeleteAgree: is about configs built from a Backup; a point-in-time recovery names no base backup.
- The Kubernetes client, watches, RBAC and the HTTP server: Get, Apply, Create and Delete are maps here; races inside one call and pods that outlive a deleted Job are not modelled.
- `Status`, `failedClusterStatus`, `ManagedRolesStatus` and `ExtensionsStatus`: guard chains settled by reading the branches.
- `SyncRestore` and `CleanupRestore`: a status report and a stub.
- Pooler, PodMonitor, scheduling, TLS rules, certificates and connection details: field copying.
- The other checks of `Validate`, such as engine, bootstrap, synchronous replication and DNS labels of schedules: one arbitrary Boolean per reconcile; none touches extensions or backups.
- The recovery section that replaces the bootstrap section, with the extensions' statements, when a data source is set: the bootstrap of a restored Cluster.
- Deletion of the Cluster or the Database by users: the extension results speak of one Cluster's life.
- Reading endpoint CAs and credentials: only how these reads end.
- SHA-256, JSON decoding, error texts and logging.
