/** internal/cnpg/barman/restore.go: the recovery section of a Cluster restored from a backup. */
module Recovery {
  import opened Common
  import opened Backups
  import opened BackupProtocol
  import opened BackupInvariant
  import opened BackupSafety

  datatype DataSource =
    | FromBackup(backup: string)
    | PointInTime(storage: string, sourceInstance: Option<string>, date: Option<string>)

  datatype RecoveryTarget = Latest | TargetTime(time: string) | TargetBackup(backupID: string)

  /** The ObjectStore and server the origin is read from, and how far to recover. */
  datatype RecoveryConfig = RecoveryConfig(storage: string, serverName: string, target: RecoveryTarget)

  datatype RecoveryError =
    | WaitForBackup | WaitForSuccess | StorageRefMissing | WaitForCnpgBackup | WaitForCompletion | NoID | NoServerName

  function ResolveSourceBackup(a: Api, name: string): Result<(CnpgBackup, string), RecoveryError> {
    if name !in a.backups then Err(WaitForBackup)
    else
      var b := a.backups[name];
      if !b.state.StateSucceeded? then Err(WaitForSuccess)
      else if b.storage == "" then Err(StorageRefMissing)
      else
        var cnpgName := if b.ref.Some? then OrElse(b.ref.value, name) else name;
        if cnpgName !in a.cnpg then Err(WaitForCnpgBackup)
        else if !a.cnpg[cnpgName].status.phase.Completed? then Err(WaitForCompletion)
        else if a.cnpg[cnpgName].status.backupID == "" then Err(NoID)
        else Ok((a.cnpg[cnpgName], b.storage))
  }

  function BuildRecoveryConfig(a: Api, instance: string, ds: DataSource): Result<RecoveryConfig, RecoveryError> {
    match ds
    case PointInTime(storage, source, date) =>
      var server := if source.Some? then OrElse(source.value, instance) else instance;
      Ok(RecoveryConfig(storage, server, if date.Some? then TargetTime(date.value) else Latest))
    case FromBackup(name) =>
      match ResolveSourceBackup(a, name)
      case Err(error) => Err(error)
      case Ok((c, storage)) =>
        if ServerName(c) == "" then Err(NoServerName)
        else Ok(RecoveryConfig(storage, ServerName(c), TargetBackup(c.status.backupID)))
  }

  /** The base backup Barman restores for a config that names one. */
  function RestoredFrom(a: Api, config: RecoveryConfig): Target
    requires config.target.TargetBackup? && config.storage in a.stores
  {
    var store := a.stores[config.storage];
    Target(config.target.backupID, Place(store.endpointURL, store.destinationPath, config.serverName))
  }

  /** In every run, a config built from a Backup comes from the Completed CNPG Backup of the
      same name, and its ID, server and ObjectStore are those the deletion Job of that Backup
      would use. The restore reads the base backup where it was written exactly when the
      ObjectStore still has that endpoint and path and the server is the one written under; the
      deletion addresses it exactly when it is well addressed. The two agree exactly when, for
      endpoint and path each, nothing was recorded or the ObjectStore has what was. */
  lemma RestoreAndDeleteAgree(w0: World, run: seq<Event>, instance: string, name: string, jobName: string -> string)
    requires Initial(w0) && Valid(w0, run, jobName)
    requires BuildRecoveryConfig(After(w0, run, jobName).api, instance, FromBackup(name)).Ok?
    ensures
      var w := After(w0, run, jobName);
      var config := BuildRecoveryConfig(w.api, instance, FromBackup(name)).value;
      && name in w.api.backups && name in w.api.cnpg
      && var c := w.api.cnpg[name];
      && c.status.phase.Completed? && c.status.backupID != ""
      && config.storage == w.api.backups[name].storage
      && (config.storage in w.api.stores ==>
            var store := w.api.stores[config.storage];
            var restored := RestoredFrom(w.api, config);
            && (restored == Location(w, c) <==>
                  Place(store.endpointURL, store.destinationPath, ServerName(c)) == PlaceOf(w, c))
            && DeletionJob(c, store) != Err(NoBackupID)
            && (DeletionJob(c, store).Ok? ==>
                  var deleted := DeleteTarget(DeletionJob(c, store).value.args);
                  && deleted.Some? && deleted.value.backupID == restored.backupID
                  && deleted.value.place.server == restored.place.server
                  && (deleted.value == Location(w, c) <==> WellAddressed(w, name))
                  && (deleted.value == restored <==>
                        && c.status.endpointURL in {"", store.endpointURL}
                        && c.status.destinationPath in {"", store.destinationPath})))
  {
    InitialInv(w0);
    RunKeepsObjects(w0, run, jobName);
    var w := After(w0, run, jobName);
    assert BackupOk(w, name) && CnpgOk(w, name);
    if w.api.backups[name].storage in w.api.stores
        && DeletionJob(w.api.cnpg[name], w.api.stores[w.api.backups[name].storage]).Ok? {
      DeletionJobAddressesItsBackup(w.api.cnpg[name], w.api.stores[w.api.backups[name].storage]);
      NewJobAddresses(w, name);
    }
  }

  /** In every run, such a config is built exactly when the Backup succeeded on a named storage
      and the CNPG Backup of its name is Completed with an ID and a server. */
  lemma RecoveryNeedsACompletedBackup(w0: World, run: seq<Event>, instance: string, name: string,
                                      jobName: string -> string)
    requires Initial(w0) && Valid(w0, run, jobName)
    ensures
      var a := After(w0, run, jobName).api;
      BuildRecoveryConfig(a, instance, FromBackup(name)).Ok? <==>
        && name in a.backups && a.backups[name].state.StateSucceeded? && a.backups[name].storage != ""
        && name in a.cnpg && a.cnpg[name].status.phase.Completed? && a.cnpg[name].status.backupID != ""
        && (a.cnpg[name].status.serverName != "" || a.cnpg[name].cluster != "")
  {
    InitialInv(w0);
    RunKeepsObjects(w0, run, jobName);
    var w := After(w0, run, jobName);
    if name in w.api.backups { assert BackupOk(w, name); }
  }

  /** In every run, why none is built yet, or at all. A Backup whose success was stored never
      waits for the completion of its CNPG Backup. */
  lemma RecoveryFailsExactly(w0: World, run: seq<Event>, instance: string, name: string, jobName: string -> string)
    requires Initial(w0) && Valid(w0, run, jobName)
    ensures
      var a := After(w0, run, jobName).api;
      var r := BuildRecoveryConfig(a, instance, FromBackup(name));
      var stored := name in a.backups && a.backups[name].state.StateSucceeded?;
      var named := stored && a.backups[name].storage != "";
      && (r == Err(WaitForBackup) <==> name !in a.backups)
      && (r == Err(WaitForSuccess) <==> name in a.backups && !stored)
      && (r == Err(StorageRefMissing) <==> stored && !named)
      && (r == Err(WaitForCnpgBackup) <==> named && name !in a.cnpg)
      && r != Err(WaitForCompletion)
      && (r == Err(NoID) <==> named && name in a.cnpg && a.cnpg[name].status.backupID == "")
  {
    InitialInv(w0);
    RunKeepsObjects(w0, run, jobName);
    var w := After(w0, run, jobName);
    if name in w.api.backups { assert BackupOk(w, name); }
  }

  /** A point-in-time recovery needs no Backup. It reads the archive of the source Instance, or
      of the Instance itself when it names none: the place where the base backups of a Cluster
      of that name are looked for when they record no other. */
  lemma PointInTimeReadsTheSource(a: Api, instance: string, storage: string, source: Option<string>,
                                  date: Option<string>, c: CnpgBackup)
    requires c.cluster == (if source.Some? && source.value != "" then source.value else instance)
    requires c.status.serverName == "" && c.status.endpointURL == "" && c.status.destinationPath == ""
    ensures
      var r := BuildRecoveryConfig(a, instance, PointInTime(storage, source, date));
      && r.Ok? && r.value.storage == storage
      && (storage in a.stores ==>
            var store := a.stores[storage];
            Place(store.endpointURL, store.destinationPath, r.value.serverName) == TargetOf(c, store).place)
      && r.value.target == (if date.Some? then TargetTime(date.value) else Latest)
  {
  }
}
