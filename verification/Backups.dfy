/** The objects behind internal/provider/backup.go and backup_delete.go, and what
    one call of each operation does to the object store, as a function. */
module Backups {
  import opened Common
  import opened Instances

  type Uid = nat

  /** CNPG BackupPhase; New is the empty phase of a Backup the operator has not picked up. */
  datatype Phase = New | Pending | Started | Running | Finalizing | Completed | Failed | WalArchivingFailing

  /** The phases deleteBackupData waits for. */
  predicate InProgress(p: Phase) {
    p.Pending? || p.Started? || p.Running? || p.Finalizing?
  }

  predicate Final(p: Phase) {
    p.Completed? || p.Failed?
  }

  datatype CnpgStatus = CnpgStatus(
    phase: Phase, backupID: string, destinationPath: string, serverName: string, endpointURL: string)

  const EMPTY_STATUS := CnpgStatus(New, "", "", "", "")

  /** storage is the ObjectStore in spec.pluginConfiguration, controller the controlling
      OpenEverest Backup, deleting the deletion timestamp. */
  datatype CnpgBackup = CnpgBackup(
    uid: Uid, cluster: string, storage: string, target: string, status: CnpgStatus,
    controller: Option<Uid>, finalizers: bool, deleting: bool)

  datatype DeletionPolicy = Delete | Retain

  datatype BackupState = StateUnset | StatePending | StateRunning | StateSucceeded | StateFailed

  /** An OpenEverest Backup. target is the decoded spec.parameters, None when malformed;
      ref is status.operatorBackupRef.name. */
  datatype Backup = Backup(
    uid: Uid, instance: string, storage: string, policy: DeletionPolicy, target: Option<string>,
    ref: Option<string>, state: BackupState, deleting: bool)

  datatype ConditionType = JobComplete | JobFailed | JobOther
  datatype JobCondition = JobCondition(kind: ConditionType, isTrue: bool)
  datatype Job = Job(owner: Option<Uid>, args: seq<string>, conditions: seq<JobCondition>)

  /** What Barman's option builder returns; it names no endpoint. */
  type ProviderOptions = s: seq<string> | ENDPOINT_OPTION !in s

  const ENDPOINT_OPTION := "--endpoint-url"

  /** credentials: both S3 key references are set. providerOptions: the options for this
      configuration, None when building them fails. */
  datatype ObjectStore = ObjectStore(
    destinationPath: string, endpointURL: string, credentials: bool, providerOptions: Option<ProviderOptions>)

  datatype BackupStorage = BackupStorage(s3: bool)

  datatype Plugin = Plugin(name: string, enabled: bool, parameters: map<string, string>)
  datatype Cluster = Cluster(plugins: seq<Plugin>)

  /** The namespace as the provider sees it. nextUid is the API server's uid counter. */
  datatype Api = Api(
    backups: map<string, Backup>, cnpg: map<string, CnpgBackup>, jobs: map<string, Job>,
    stores: map<string, ObjectStore>, storages: map<string, BackupStorage>,
    clusters: map<string, Cluster>, instances: map<string, Instance>, nextUid: Uid)

  // ---- The deletion Job ----

  /** A place for base backups: the service, the path in it and the server name under that. */
  datatype Place = Place(endpoint: string, path: string, server: string)

  /** One base backup in a bucket. */
  datatype Target = Target(backupID: string, place: Place)

  function ServerName(c: CnpgBackup): string {
    OrElse(c.status.serverName, c.cluster)
  }

  /** Where the base backup of c is looked for: as its status records, and from its ObjectStore
      and Cluster where it records nothing. */
  function TargetOf(c: CnpgBackup, store: ObjectStore): Target {
    Target(c.status.backupID,
           Place(OrElse(c.status.endpointURL, store.endpointURL),
                 OrElse(c.status.destinationPath, store.destinationPath),
                 ServerName(c)))
  }

  function EndpointOf(options: seq<string>): string {
    if |options| >= 2 && options[0] == ENDPOINT_OPTION then options[1] else ""
  }

  /** The base backup that barman-cloud-backup-delete addresses when run with args. */
  function DeleteTarget(args: seq<string>): Option<Target> {
    var n := |args|;
    if n >= 4 && args[n - 4] == "--backup-id" then
      Some(Target(args[n - 3], Place(EndpointOf(args[..n - 4]), args[n - 2], args[n - 1])))
    else None
  }

  datatype CleanupError =
    | ObjectStoreNotFound | StorageNotFound | NotS3 | IncompleteCredentials | NoBackupID
    | MissingLocation | ProviderOptionsFailed | JobNotOwned | DeletionJobFailed

  function EndpointOptions(t: Target): seq<string> {
    if t.place.endpoint == "" then [] else [ENDPOINT_OPTION, t.place.endpoint]
  }

  /** The Job barman-cloud-backup-delete runs in, before its owner is set. */
  function DeletionJob(c: CnpgBackup, store: ObjectStore): Result<Job, CleanupError> {
    var t := TargetOf(c, store);
    if !store.credentials then Err(IncompleteCredentials)
    else if t.backupID == "" then Err(NoBackupID)
    else if t.place.path == "" || t.place.server == "" then Err(MissingLocation)
    else if store.providerOptions.None? then Err(ProviderOptionsFailed)
    else Ok(Job(None,
                EndpointOptions(t) + store.providerOptions.value
                + ["--backup-id", t.backupID, t.place.path, t.place.server], []))
  }

  /** A Job that is built addresses exactly the base backup of the CNPG Backup it was built
      from, endpoint included. */
  lemma DeletionJobAddressesItsBackup(c: CnpgBackup, store: ObjectStore)
    ensures DeletionJob(c, store).Ok? ==>
              var job := DeletionJob(c, store).value;
              && DeleteTarget(job.args) == Some(TargetOf(c, store))
              && c.status.backupID != ""
              && EndpointOptions(TargetOf(c, store)) + store.providerOptions.value == job.args[..|job.args| - 4]
  {
    if DeletionJob(c, store).Ok? {
      var job := DeletionJob(c, store).value;
      var provider := store.providerOptions.value;
      var options := EndpointOptions(TargetOf(c, store)) + provider;
      assert job.args[..|options|] == options;
      if TargetOf(c, store).place.endpoint == "" && options != [] { assert options[0] in provider; }
    }
  }

  /** All that a Job needs: credentials, provider options, and an ID, a path and a server, each
      of them recorded or known from the ObjectStore or the Cluster. */
  predicate Buildable(c: CnpgBackup, store: ObjectStore) {
    && store.credentials && store.providerOptions.Some? && c.status.backupID != ""
    && (c.status.destinationPath != "" || store.destinationPath != "")
    && (c.status.serverName != "" || c.cluster != "")
  }

  /** A Job is built exactly when it can be, and an error is true of what it names. */
  lemma DeletionJobIsBuiltExactly(c: CnpgBackup, store: ObjectStore)
    ensures DeletionJob(c, store).Ok? <==> Buildable(c, store)
    ensures DeletionJob(c, store).Err? ==>
              match DeletionJob(c, store).error
              case IncompleteCredentials => !store.credentials
              case NoBackupID => c.status.backupID == ""
              case MissingLocation =>
                || (c.status.destinationPath == "" && store.destinationPath == "")
                || (c.status.serverName == "" && c.cluster == "")
              case ProviderOptionsFailed => store.providerOptions.None?
              case _ => false
  {
  }

  predicate HasCondition(job: Job, kind: ConditionType) {
    JobCondition(kind, true) in job.conditions
  }

  predicate Finished(job: Job) {
    HasCondition(job, JobComplete) || HasCondition(job, JobFailed)
  }

  // ---- CleanupBackup ----

  /** (true, nil), (false, nil) and (_, err) of the Go methods. */
  datatype Outcome = Done | Requeue | Failure(error: CleanupError)

  function DeletionJobOutcome(job: Job): Outcome {
    if HasCondition(job, JobFailed) then Failure(DeletionJobFailed)
    else if HasCondition(job, JobComplete) then Done
    else Requeue
  }

  function DeleteDataStep(a: Api, b: Backup, c: CnpgBackup, jobName: string): (Api, Outcome) {
    if InProgress(c.status.phase) then (a, Requeue)
    else if c.status.backupID == "" then (a, Done)
    else if b.storage !in a.stores then (a, Failure(ObjectStoreNotFound))
    else if b.storage !in a.storages then (a, Failure(StorageNotFound))
    else if !a.storages[b.storage].s3 then (a, Failure(NotS3))
    else if jobName !in a.jobs then
      match DeletionJob(c, a.stores[b.storage])
      case Err(error) => (a, Failure(error))
      case Ok(job) => (a.(jobs := a.jobs[jobName := job.(owner := Some(b.uid))]), Requeue)
    else if a.jobs[jobName].owner != Some(b.uid) then (a, Failure(JobNotOwned))
    else (a, DeletionJobOutcome(a.jobs[jobName]))
  }

  /** A Delete call of the API server: with finalizers the object is only marked. */
  function DeleteCnpg(a: Api, name: string): Api
    requires name in a.cnpg
  {
    var c := a.cnpg[name];
    if c.finalizers then a.(cnpg := a.cnpg[name := c.(deleting := true)])
    else a.(cnpg := a.cnpg - {name})
  }

  function CleanupStep(a: Api, name: string, b: Backup, jobName: string): (Api, Outcome) {
    if name !in a.cnpg then
      if b.policy.Retain? || jobName !in a.jobs then (a, Done)
      else (a, DeletionJobOutcome(a.jobs[jobName]))
    else
      var c := a.cnpg[name];
      var data := if b.policy.Retain? then (a, Done) else DeleteDataStep(a, b, c, jobName);
      if !data.1.Done? then data
      else if c.deleting then (data.0, Requeue)
      else (DeleteCnpg(data.0, name), Requeue)
  }

  // ---- SyncBackup ----

  const PLUGIN_NAME := "barman-cloud.cloudnative-pg.io"
  const OBJECT_STORE_PARAMETER := "barmanObjectName"

  /** Plugin parameters are a Go map: a missing key reads as "". */
  function Parameter(p: Plugin, key: string): string {
    if key in p.parameters then p.parameters[key] else ""
  }

  function ArchiveStore(plugins: seq<Plugin>): string {
    if plugins == [] then ""
    else if plugins[0].name == PLUGIN_NAME && plugins[0].enabled then Parameter(plugins[0], OBJECT_STORE_PARAMETER)
    else ArchiveStore(plugins[1..])
  }

  predicate Archiver(p: Plugin) { p.name == PLUGIN_NAME && p.enabled }

  /** The archive store is the parameter of the first enabled Barman plugin, if there is one. */
  lemma {:induction false} ArchiveStoreIsTheFirst(plugins: seq<Plugin>, k: nat)
    requires k <= |plugins| && forall j | 0 <= j < k :: !Archiver(plugins[j])
    ensures k == |plugins| ==> ArchiveStore(plugins) == ""
    ensures k < |plugins| && Archiver(plugins[k]) ==>
              ArchiveStore(plugins)
              == if OBJECT_STORE_PARAMETER in plugins[k].parameters then plugins[k].parameters[OBJECT_STORE_PARAMETER]
                 else ""
  {
    if k > 0 { ArchiveStoreIsTheFirst(plugins[1..], k - 1); }
  }

  predicate HasBackupStorage(i: Instance, storage: string) {
    i.backup.Some? && i.backup.value.enabled && exists s | s in i.backup.value.storages :: s.name == storage
  }

  datatype SyncResult = Status(state: BackupState, ref: Option<string>) | InvalidParameters | ControlledByAnother

  function StorageBlocker(i: Instance, cluster: Cluster, storage: string): Option<BackupState> {
    if !HasBackupStorage(i, storage) then Some(StateFailed)
    else if ArchiveStore(cluster.plugins) != storage then Some(StatePending)
    else None
  }

  /** Finalizing has no case of its own and is reported as pending. */
  function ReportedState(p: Phase): BackupState {
    match p
    case Completed => StateSucceeded
    case Running => StateRunning
    case Failed => StateFailed
    case WalArchivingFailing => StateFailed
    case _ => StatePending
  }

  function SyncStep(a: Api, name: string, b: Backup, i: Instance): (Api, SyncResult) {
    if i.name !in a.clusters then (a, Status(StatePending, None))
    else if name !in a.cnpg && b.ref.Some? then (a, Status(StateFailed, None))
    else
      var blocked := if name in a.cnpg then None else StorageBlocker(i, a.clusters[i.name], b.storage);
      if blocked.Some? then (a, Status(blocked.value, None))
      else if b.target.None? then (a, InvalidParameters)
      else if name !in a.cnpg then
        var c := CnpgBackup(a.nextUid, i.name, b.storage, b.target.value, EMPTY_STATUS, Some(b.uid), false, false);
        (a.(cnpg := a.cnpg[name := c], nextUid := a.nextUid + 1), Status(StatePending, Some(name)))
      else
        var c := a.cnpg[name];
        if c.controller.Some? && c.controller.value != b.uid then (a, ControlledByAnother)
        else (a.(cnpg := a.cnpg[name := c.(controller := Some(b.uid))]),
              Status(ReportedState(c.status.phase), Some(name)))
  }
}
