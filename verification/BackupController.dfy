/** internal/provider/backup.go and backup_delete.go as methods on the object store: each call
    changes it in place exactly as the step functions of Backups say. */
module BackupController {
  import opened Common
  import opened Instances
  import opened Backups
  import opened Names

  method JobHas(job: Job, kind: ConditionType) returns (found: bool)
    ensures found <==> HasCondition(job, kind)
  {
    for i := 0 to |job.conditions|
      invariant JobCondition(kind, true) !in job.conditions[..i]
    {
      var condition := job.conditions[i];
      if condition.kind == kind && condition.isTrue {
        assert condition == JobCondition(kind, true);
        return true;
      }
    }
    assert job.conditions[..|job.conditions|] == job.conditions;
    return false;
  }

  method DeletionJobDone(job: Job) returns (outcome: Outcome)
    ensures outcome == DeletionJobOutcome(job)
  {
    var failed := JobHas(job, JobFailed);
    if failed {
      return Failure(DeletionJobFailed);
    }
    var complete := JobHas(job, JobComplete);
    outcome := if complete then Done else Requeue;
  }

  method ArchiveObjectStoreName(cluster: Cluster) returns (name: string)
    ensures name == ArchiveStore(cluster.plugins)
  {
    for i := 0 to |cluster.plugins|
      invariant ArchiveStore(cluster.plugins) == ArchiveStore(cluster.plugins[i..])
    {
      var plugin := cluster.plugins[i];
      if plugin.name == PLUGIN_NAME && plugin.enabled {
        return Parameter(plugin, OBJECT_STORE_PARAMETER);
      }
      assert cluster.plugins[i..][1..] == cluster.plugins[i + 1..];
    }
    return "";
  }

  method InstanceHasBackupStorage(i: Instance, storage: string) returns (found: bool)
    ensures found <==> HasBackupStorage(i, storage)
  {
    if i.backup.None? || !i.backup.value.enabled {
      return false;
    }
    var storages := i.backup.value.storages;
    for k := 0 to |storages|
      invariant forall j | 0 <= j < k :: storages[j].name != storage
    {
      if storages[k].name == storage {
        return true;
      }
    }
    return false;
  }

  method BackupStorageBlocker(i: Instance, cluster: Cluster, storage: string) returns (blocked: Option<BackupState>)
    ensures blocked == StorageBlocker(i, cluster, storage)
  {
    var configured := InstanceHasBackupStorage(i, storage);
    if !configured {
      return Some(StateFailed);
    }
    var archive := ArchiveObjectStoreName(cluster);
    blocked := if archive != storage then Some(StatePending) else None;
  }

  method BuildBackupDeletionJob(c: CnpgBackup, store: ObjectStore) returns (r: Result<Job, CleanupError>)
    ensures r == DeletionJob(c, store)
  {
    if !store.credentials {
      return Err(IncompleteCredentials);
    }
    if c.status.backupID == "" {
      return Err(NoBackupID);
    }
    var destination := c.status.destinationPath;
    if destination == "" {
      destination := store.destinationPath;
    }
    var serverName := c.status.serverName;
    if serverName == "" {
      serverName := c.cluster;
    }
    if destination == "" || serverName == "" {
      return Err(MissingLocation);
    }
    var endpointURL := c.status.endpointURL;
    if endpointURL == "" {
      endpointURL := store.endpointURL;
    }
    var args := [];
    if endpointURL != "" {
      args := args + [ENDPOINT_OPTION, endpointURL];
    }
    if store.providerOptions.None? {
      return Err(ProviderOptionsFailed);
    }
    args := args + store.providerOptions.value;
    assert args == EndpointOptions(TargetOf(c, store)) + store.providerOptions.value;
    args := args + ["--backup-id", c.status.backupID, destination, serverName];
    r := Ok(Job(None, args, []));
  }

  class ApiServer {
    var backups: map<string, Backup>
    var cnpg: map<string, CnpgBackup>
    var jobs: map<string, Job>
    var stores: map<string, ObjectStore>
    var storages: map<string, BackupStorage>
    var clusters: map<string, Cluster>
    var instances: map<string, Instance>
    var nextUid: Uid
    /** The first eight hex digits of the SHA-256 of a string. */
    const hash: string -> Digest

    constructor (a: Api, hash: string -> Digest)
      ensures Snapshot() == a && this.hash == hash
    {
      backups, cnpg, jobs, stores := a.backups, a.cnpg, a.jobs, a.stores;
      storages, clusters, instances, nextUid := a.storages, a.clusters, a.instances, a.nextUid;
      this.hash := hash;
    }

    ghost function Snapshot(): Api
      reads this
    {
      Api(backups, cnpg, jobs, stores, storages, clusters, instances, nextUid)
    }

    method DeleteBackupData(name: string, backup: Backup, cnpgBackup: CnpgBackup) returns (outcome: Outcome)
      modifies this`jobs
      ensures (Snapshot(), outcome)
              == DeleteDataStep(old(Snapshot()), backup, cnpgBackup, BackupDeletionJobName(hash, name))
    {
      match cnpgBackup.status.phase {
        case Pending | Started | Running | Finalizing => return Requeue;
        case _ =>
      }
      if cnpgBackup.status.backupID == "" {
        return Done;
      }
      if backup.storage !in stores {
        return Failure(ObjectStoreNotFound);
      }
      if backup.storage !in storages {
        return Failure(StorageNotFound);
      }
      if !storages[backup.storage].s3 {
        return Failure(NotS3);
      }
      var jobName := BackupDeletionJobName(hash, name);
      if jobName !in jobs {
        var built := BuildBackupDeletionJob(cnpgBackup, stores[backup.storage]);
        if built.Err? {
          return Failure(built.error);
        }
        jobs := jobs[jobName := built.value.(owner := Some(backup.uid))];
        return Requeue;
      }
      if jobs[jobName].owner != Some(backup.uid) {
        return Failure(JobNotOwned);
      }
      outcome := DeletionJobDone(jobs[jobName]);
    }

    /** client.Delete for a CNPG Backup. */
    method Delete(name: string)
      requires name in cnpg
      modifies this`cnpg
      ensures Snapshot() == DeleteCnpg(old(Snapshot()), name)
    {
      if cnpg[name].finalizers {
        cnpg := cnpg[name := cnpg[name].(deleting := true)];
      } else {
        cnpg := cnpg - {name};
      }
    }

    method CleanupBackup(name: string, backup: Backup) returns (outcome: Outcome)
      modifies this`cnpg, this`jobs
      ensures (Snapshot(), outcome) == CleanupStep(old(Snapshot()), name, backup, BackupDeletionJobName(hash, name))
    {
      if name !in cnpg {
        if backup.policy.Retain? {
          return Done;
        }
        var jobName := BackupDeletionJobName(hash, name);
        if jobName !in jobs {
          return Done;
        }
        outcome := DeletionJobDone(jobs[jobName]);
        return;
      }
      var cnpgBackup := cnpg[name];
      if !backup.policy.Retain? {
        outcome := DeleteBackupData(name, backup, cnpgBackup);
        if !outcome.Done? {
          return;
        }
      }
      if !cnpgBackup.deleting {
        Delete(name);
      }
      return Requeue;
    }

    method SyncBackup(name: string, backup: Backup, instance: Instance) returns (r: SyncResult)
      modifies this`cnpg, this`nextUid
      ensures (Snapshot(), r) == SyncStep(old(Snapshot()), name, backup, instance)
    {
      if instance.name !in clusters {
        return Status(StatePending, None);
      }
      if name !in cnpg {
        if backup.ref.Some? {
          return Status(StateFailed, None);
        }
        var blocked := BackupStorageBlocker(instance, clusters[instance.name], backup.storage);
        if blocked.Some? {
          return Status(blocked.value, None);
        }
      }
      if backup.target.None? {
        return InvalidParameters;
      }
      var cnpgBackup;
      if name in cnpg {
        cnpgBackup := cnpg[name];
        if cnpgBackup.controller.Some? && cnpgBackup.controller.value != backup.uid {
          return ControlledByAnother;
        }
        cnpgBackup := cnpgBackup.(controller := Some(backup.uid));
      } else {
        cnpgBackup := CnpgBackup(nextUid, instance.name, backup.storage, backup.target.value, EMPTY_STATUS,
                                 Some(backup.uid), false, false);
        nextUid := nextUid + 1;
      }
      cnpg := cnpg[name := cnpgBackup];
      var state;
      match cnpgBackup.status.phase {
        case Completed => state := StateSucceeded;
        case Running => state := StateRunning;
        case Started | Pending => state := StatePending;
        case Failed | WalArchivingFailing => state := StateFailed;
        case _ => state := StatePending;
      }
      r := Status(state, Some(name));
    }
  }
}
