/** What one event of BackupProtocol can change, object by object. */
module BackupFrames {
  import opened Common
  import opened Instances
  import opened Backups
  import opened BackupProtocol
  import opened BackupInvariant

  /** A Backup after an event: its deletion cannot be undone, its policy is fixed while it is
      deleted, and its recorded ref is kept. */
  predicate SameBackup(b: Backup, b': Backup) {
    && b'.uid == b.uid && (b.deleting ==> b'.deleting && b'.policy == b.policy)
    && (b.ref.Some? ==> b'.ref.Some?)
  }

  /** A CNPG Backup after an event: completed and failed are final, and so is the mark. */
  predicate SameCnpg(c: CnpgBackup, c': CnpgBackup) {
    c'.uid == c.uid && (Final(c.status.phase) ==> c'.status == c.status) && (c.deleting ==> c'.deleting)
  }

  // ---- The provider's calls on the API objects ----

  /** A sync call touches at most the CNPG Backup of that name, which it creates only when
      none was recorded. */
  lemma SyncStepFrame(a: Api, m: string, b: Backup, i: Instance)
    ensures
      var a' := SyncStep(a, m, b, i).0;
      && a' == a.(cnpg := a'.cnpg, nextUid := a'.nextUid)
      && (forall n | n != m :: (n in a'.cnpg <==> n in a.cnpg) && (n in a.cnpg ==> a'.cnpg[n] == a.cnpg[n]))
      && (m in a'.cnpg && m in a.cnpg ==> SameCnpg(a.cnpg[m], a'.cnpg[m]))
      && (m in a'.cnpg && m !in a.cnpg ==> b.ref.None? && a'.cnpg[m].uid == a.nextUid)
  {
    SyncStepCases(a, m, b, i);
  }

  lemma DeleteCnpgFrame(a: Api, m: string, n: string)
    requires m in a.cnpg
    ensures
      var a' := DeleteCnpg(a, m);
      && a' == a.(cnpg := a'.cnpg) && (n in a'.cnpg ==> n in a.cnpg && SameCnpg(a.cnpg[n], a'.cnpg[n]))
      && (n in a.cnpg && n != m ==> n in a'.cnpg && a'.cnpg[n] == a.cnpg[n])
  {
  }

  /** A cleanup call creates at most the one Job and takes away at most the one CNPG Backup. */
  lemma CleanupFrame(a: Api, m: string, b: Backup, jobName: string, n: string)
    ensures
      var a' := CleanupStep(a, m, b, jobName).0;
      && a' == a.(cnpg := a'.cnpg, jobs := a'.jobs)
      && (n in a'.cnpg ==> n in a.cnpg && SameCnpg(a.cnpg[n], a'.cnpg[n]))
      && (n in a.cnpg && n != m ==> n in a'.cnpg && a'.cnpg[n] == a.cnpg[n])
      && (a'.jobs == a.jobs ||
          (jobName !in a.jobs && jobName in a'.jobs && b.policy.Delete? && a'.jobs[jobName].owner == Some(b.uid)
           && a'.jobs == a.jobs[jobName := a'.jobs[jobName]]))
  {
    CleanupMoves(a, m, b, jobName);
    if MoveOf(a, m, b, jobName).DeleteIt? { DeleteCnpgFrame(a, m, n); }
  }

  // ---- One event ----

  /** The Backup n is what it was, or new. */
  predicate BackupFramed(w: World, w': World, n: string) {
    n in w'.api.backups ==>
      if n in w.api.backups then SameBackup(w.api.backups[n], w'.api.backups[n])
      else w'.api.backups[n].uid == w.api.nextUid
  }

  /** The CNPG Backup n is what it was, or new under a name whose Backup may start one. */
  predicate CnpgFramed(w: World, w': World, n: string) {
    n in w'.api.cnpg ==>
      if n in w.api.cnpg then SameCnpg(w.api.cnpg[n], w'.api.cnpg[n])
      else w'.api.cnpg[n].uid == w.api.nextUid
           && (n in w.api.backups ==> w.api.backups[n].ref.None? && !w.api.backups[n].deleting)
  }

  /** What an event does to the objects called n; uids stay on record. */
  predicate Framed(w: World, w': World, n: string) {
    && (n in w.api.backups ==> n in w'.api.backups)
    && BackupFramed(w, w', n) && CnpgFramed(w, w', n)
    && w.born.Keys <= w'.born.Keys && w.history.Keys <= w'.history.Keys
  }

  predicate ByStorage(e: Event) { e.Upload? || e.Expire? || e.JobRemovesData? || e.Configure? }
  predicate OnJobs(e: Event) { e.JobReports? || e.DeleteJob? || e.ForeignJob? }

  lemma UserFrame(w: World, e: Event, jobName: string -> string, n: string)
    requires Enabled(w, e) && ByUser(e) && e != RemoveBackup(n)
    ensures Framed(w, Next(w, e, jobName), n) && Next(w, e, jobName).api.jobs == w.api.jobs
  {
    UserChanges(w, e, jobName);
  }

  lemma StartFrame(w: World, e: Event, jobName: string -> string, n: string)
    requires Enabled(w, e) && (e.StartScheduled? || e.SetFinalizers?)
    ensures Framed(w, Next(w, e, jobName), n) && Next(w, e, jobName).api.jobs == w.api.jobs
  {
    OperatorChanges(w, e, jobName);
  }

  lemma AssignIDFrame(w: World, m: string, s: CnpgStatus, place: Place, n: string)
    requires AssignsID(w, m, s, place)
    ensures Framed(w, WithID(w, m, s, place), n)
  {
  }

  lemma PhaseFrame(w: World, m: string, s: CnpgStatus, n: string)
    requires PhaseChange(w, m, s)
    ensures Framed(w, WithCnpg(w, m, w.api.cnpg[m].(status := s)), n)
  {
  }

  lemma ProgressFrame(w: World, e: Event, jobName: string -> string, n: string)
    requires Enabled(w, e) && e.Progress?
    ensures Framed(w, Next(w, e, jobName), n) && Next(w, e, jobName).api.jobs == w.api.jobs
  {
    OperatorChanges(w, e, jobName);
    if AssignsID(w, e.name, e.status, e.place) {
      AssignIDFrame(w, e.name, e.status, e.place, n);
    } else {
      PhaseFrame(w, e.name, e.status, n);
    }
  }

  lemma RemovalFrame(w: World, e: Event, jobName: string -> string, n: string)
    requires Enabled(w, e) && Removes(e)
    ensures Framed(w, Next(w, e, jobName), n) && Next(w, e, jobName).api.jobs == w.api.jobs
  {
    if e.ForeignDelete? { DeleteCnpgFrame(w.api, e.name, n); }
  }

  lemma SyncBackupFrame(w: World, m: string, recorded: bool, n: string)
    requires Enabled(w, Sync(m, recorded))
    ensures
      var w' := AfterSync(w, m, recorded);
      (n in w.api.backups ==> n in w'.api.backups) && BackupFramed(w, w', n) && w'.api.jobs == w.api.jobs
  {
    SyncStepFrame(w.api, m, w.api.backups[m], w.api.instances[w.api.backups[m].instance]);
  }

  lemma SyncCnpgFrame(w: World, m: string, recorded: bool, n: string)
    requires Enabled(w, Sync(m, recorded))
    ensures CnpgFramed(w, AfterSync(w, m, recorded), n)
  {
    var b := w.api.backups[m];
    var i := w.api.instances[b.instance];
    SyncStepFrame(w.api, m, b, i);
    assert AfterSync(w, m, recorded).api.cnpg == SyncStep(w.api, m, b, i).0.cnpg;
  }

  lemma SyncFrame(w: World, m: string, recorded: bool, n: string)
    requires Enabled(w, Sync(m, recorded))
    ensures Framed(w, AfterSync(w, m, recorded), n) && AfterSync(w, m, recorded).api.jobs == w.api.jobs
  {
    SyncBackupFrame(w, m, recorded, n);
    SyncCnpgFrame(w, m, recorded, n);
  }

  lemma SettledKeeps(w: World, a: Api, u: Uid, done: bool)
    ensures
      var w' := Settled(w, a, u, done);
      w'.api == a && w'.born == w.born && w.history.Keys <= w'.history.Keys
  {
  }

  lemma CleanupApi(w: World, m: string, jobName: string -> string)
    requires Enabled(w, Cleanup(m))
    ensures
      var w' := AfterCleanup(w, m, jobName);
      && w'.api == CleanupStep(w.api, m, w.api.backups[m], jobName(m)).0
      && w'.born == w.born && w.history.Keys <= w'.history.Keys
  {
    var step := CleanupStep(w.api, m, w.api.backups[m], jobName(m));
    SettledKeeps(w, step.0, w.api.backups[m].uid, step.1.Done?);
  }

  lemma CleanupEventFrame(w: World, m: string, jobName: string -> string, n: string)
    requires Enabled(w, Cleanup(m))
    ensures Framed(w, AfterCleanup(w, m, jobName), n)
  {
    CleanupApi(w, m, jobName);
    CleanupFrame(w.api, m, w.api.backups[m], jobName(m), n);
  }

  lemma StorageFrame(w: World, e: Event, jobName: string -> string, n: string)
    requires Enabled(w, e) && ByStorage(e)
    ensures Framed(w, Next(w, e, jobName), n) && Next(w, e, jobName).api.jobs == w.api.jobs
  {
  }

  lemma JobEventFrame(w: World, e: Event, jobName: string -> string, n: string)
    requires Enabled(w, e) && OnJobs(e)
    ensures Framed(w, Next(w, e, jobName), n)
  {
    assert Next(w, e, jobName) == WithJobs(w, Next(w, e, jobName).api.jobs);
  }

  lemma EventFrame(w: World, e: Event, jobName: string -> string, n: string)
    requires Enabled(w, e) && e != RemoveBackup(n)
    ensures Framed(w, Next(w, e, jobName), n)
    ensures !OnJobs(e) && !e.Cleanup? ==> Next(w, e, jobName).api.jobs == w.api.jobs
  {
    if ByUser(e) {
      UserFrame(w, e, jobName, n);
    } else if e.StartScheduled? || e.SetFinalizers? {
      StartFrame(w, e, jobName, n);
    } else if e.Progress? {
      ProgressFrame(w, e, jobName, n);
    } else if Removes(e) {
      RemovalFrame(w, e, jobName, n);
    } else if e.Sync? {
      SyncFrame(w, e.name, e.recorded, n);
    } else if e.Cleanup? {
      CleanupEventFrame(w, e.name, jobName, n);
    } else if ByStorage(e) {
      StorageFrame(w, e, jobName, n);
    } else {
      JobEventFrame(w, e, jobName, n);
    }
  }

  /** The one event that takes away the Backup n takes nothing else. */
  lemma RemovalOfBackupFrame(w: World, n: string, jobName: string -> string)
    requires Enabled(w, RemoveBackup(n))
    ensures Next(w, RemoveBackup(n), jobName) == WithoutBackup(w, n)
  {
  }

  /** Nothing is ever taken off the records. */
  lemma RecordsGrow(w: World, e: Event, jobName: string -> string)
    requires Enabled(w, e)
    ensures w.born.Keys <= Next(w, e, jobName).born.Keys && w.history.Keys <= Next(w, e, jobName).history.Keys
  {
    if e.RemoveBackup? { RemovalOfBackupFrame(w, e.name, jobName); } else { EventFrame(w, e, jobName, ""); }
  }

  // ---- Jobs ----

  lemma CleanupJobFrame(w: World, m: string, jobName: string -> string, j: string)
    requires Enabled(w, Cleanup(m))
    ensures
      var jobs := AfterCleanup(w, m, jobName).api.jobs;
      && (j in w.api.jobs ==> j in jobs && jobs[j] == w.api.jobs[j])
      && (j in jobs && j !in w.api.jobs ==>
            w.api.backups[m].policy.Delete? && jobs[j].owner == Some(w.api.backups[m].uid))
  {
    CleanupFrame(w.api, m, w.api.backups[m], jobName(m), m);
    assert AfterCleanup(w, m, jobName).api == CleanupStep(w.api, m, w.api.backups[m], jobName(m)).0;
  }

  lemma ReportJobFrame(w: World, e: Event, jobName: string -> string, j: string)
    requires Enabled(w, e) && OnJobs(e)
    ensures
      var jobs := Next(w, e, jobName).api.jobs;
      && (j in w.api.jobs && e != DeleteJob(j) ==> j in jobs && (Finished(w.api.jobs[j]) ==> jobs[j] == w.api.jobs[j]))
      && (j in jobs && jobs[j].owner.Some? ==> j in w.api.jobs && jobs[j].owner == w.api.jobs[j].owner)
  {
  }

  /** Only its deletion takes a Job away, a finished one stays as it is, and owned Jobs come
      from cleanup calls alone. */
  lemma JobFrame(w: World, e: Event, jobName: string -> string, j: string)
    requires Enabled(w, e)
    ensures
      var jobs := Next(w, e, jobName).api.jobs;
      && (j in w.api.jobs && e != DeleteJob(j) ==> j in jobs && (Finished(w.api.jobs[j]) ==> jobs[j] == w.api.jobs[j]))
      && (j in jobs && jobs[j].owner.Some? ==>
            || (j in w.api.jobs && jobs[j].owner == w.api.jobs[j].owner)
            || (e.Cleanup? && w.api.backups[e.name].policy.Delete? && jobs[j].owner == Some(w.api.backups[e.name].uid)))
  {
    if e.Cleanup? {
      CleanupJobFrame(w, e.name, jobName, j);
    } else if OnJobs(e) {
      ReportJobFrame(w, e, jobName, j);
    } else if e.RemoveBackup? {
      RemovalOfBackupFrame(w, e.name, jobName);
    } else {
      EventFrame(w, e, jobName, j);
    }
  }
}
