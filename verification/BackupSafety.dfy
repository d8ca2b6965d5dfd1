/** What holds in every run of BackupProtocol, for any naming of Jobs: jobName may give every
    Backup the same Job name. */
module BackupSafety {
  import opened Common
  import opened Instances
  import opened Backups
  import opened BackupProtocol
  import opened BackupInvariant
  import opened BackupFrames

  lemma InitialInv(w: World)
    requires Initial(w)
    ensures Inv(w)
  {
  }

  lemma {:induction false} RunKeepsObjects(w: World, run: seq<Event>, jobName: string -> string)
    requires ObjectsOk(w) && Valid(w, run, jobName)
    ensures ObjectsOk(After(w, run, jobName))
    decreases |run|
  {
    if run != [] {
      NextKeepsObjects(w, run[0], jobName);
      RunKeepsObjects(Next(w, run[0], jobName), run[1..], jobName);
    }
  }

  lemma {:induction false} RunKeepsInv(w: World, run: seq<Event>, jobName: string -> string)
    requires Inv(w) && Valid(w, run, jobName) && OrderlyRun(w, run, jobName)
    ensures Inv(After(w, run, jobName))
    decreases |run|
  {
    if run != [] {
      NextKeepsInv(w, run[0], jobName);
      RunKeepsInv(Next(w, run[0], jobName), run[1..], jobName);
    }
  }

  // ---- CleanupBackup is safe ----

  /** In every orderly run, when CleanupBackup returns true for a Backup that is not Retain,
      none of its base backups is left in a bucket. */
  lemma CleanupDoneMeansDataGone(w0: World, run: seq<Event>, name: string, jobName: string -> string)
    requires Initial(w0) && Valid(w0, run, jobName) && OrderlyRun(w0, run, jobName)
    requires Enabled(After(w0, run, jobName), Cleanup(name))
    ensures
      var w := After(w0, run, jobName);
      var b := w.api.backups[name];
      b.policy.Delete? && CleanupOutcome(w, name, jobName).Done? ==>
        && name !in w.api.cnpg
        && forall t | t in w.bucket :: !DataOf(w, t, b.uid)
  {
    InitialInv(w0);
    RunKeepsInv(w0, run, jobName);
    var w := After(w0, run, jobName);
    var b := w.api.backups[name];
    if b.policy.Delete? && CleanupOutcome(w, name, jobName).Done? {
      CleanupMoves(w.api, name, b, jobName(name));
      forall t | t in w.bucket ensures !DataOf(w, t, b.uid) {
        assert BackupOk(w, name) && Addressable(w, t);
      }
    }
  }

  // ---- Both conditions of an orderly run are exact ----

  lemma {:induction false} OneMore(w: World, e: Event, run: seq<Event>, jobName: string -> string)
    requires Enabled(w, e) && Valid(Next(w, e, jobName), run, jobName)
    ensures Valid(w, [e] + run, jobName) && After(w, [e] + run, jobName) == After(Next(w, e, jobName), run, jobName)
  {
    assert ([e] + run)[0] == e && ([e] + run)[1..] == run;
  }

  /** The CNPG Backup n is done, has data and can be addressed; its Job name is free. */
  predicate Deletable(w: World, n: string, job: string) {
    && Enabled(w, Cleanup(n)) && w.api.backups[n].policy.Delete? && n in w.api.cnpg
    && w.api.cnpg[n].status.backupID != "" && !Writing(w.api.cnpg[n].status.phase)
    && job !in w.api.jobs
    && var storage := w.api.backups[n].storage;
    && storage in w.api.stores && storage in w.api.storages && w.api.storages[storage].s3
    && Buildable(w.api.cnpg[n], w.api.stores[storage])
  }

  const COMPLETE := [JobCondition(JobComplete, true)]

  /** The deletion of n without interference: the call that creates the Job, the Job, and what
      disposes of the CNPG Backup. */
  function Deletion(w: World, n: string, job: string): seq<Event>
    requires n in w.api.cnpg
  {
    [Cleanup(n)] + ([JobRemovesData(job)] + ([JobReports(job, COMPLETE)] + Disposal(w, n)))
  }

  function BuiltJob(w: World, n: string, job: string): Job
    requires Deletable(w, n, job)
  {
    DeletionJob(w.api.cnpg[n], w.api.stores[w.api.backups[n].storage]).value.(owner := Some(w.api.backups[n].uid))
  }

  lemma JobIsCreated(w: World, n: string, jobName: string -> string)
    requires Deletable(w, n, jobName(n))
    ensures Next(w, Cleanup(n), jobName) == WithJobs(w, w.api.jobs[jobName(n) := BuiltJob(w, n, jobName(n))])
    ensures DeleteTarget(BuiltJob(w, n, jobName(n)).args).Some?
  {
    DeletionJobAddressesItsBackup(w.api.cnpg[n], w.api.stores[w.api.backups[n].storage]);
  }

  /** The Job has run. */
  function JobRan(w: World, j: string, job: Job, t: Target): World {
    WithJobs(w, w.api.jobs[j := job.(conditions := COMPLETE)]).(bucket := w.bucket - {t})
  }

  lemma JobRuns(w: World, j: string, job: Job, jobName: string -> string)
    requires job.owner.Some? && job.conditions == [] && DeleteTarget(job.args).Some?
    ensures
      var w1 := WithJobs(w, w.api.jobs[j := job]);
      && Enabled(w1, JobRemovesData(j))
      && var w2 := Next(w1, JobRemovesData(j), jobName);
      && Enabled(w2, JobReports(j, COMPLETE))
      && Next(w2, JobReports(j, COMPLETE), jobName) == JobRan(w, j, job, DeleteTarget(job.args).value)
  {
    assert w.api.jobs[j := job][j := job.(conditions := COMPLETE)] == w.api.jobs[j := job.(conditions := COMPLETE)];
  }

  /** The Job of n has run, so the next call deletes the CNPG Backup. */
  predicate Emptied(w: World, n: string, job: string) {
    && Enabled(w, Cleanup(n)) && w.api.backups[n].policy.Delete? && n in w.api.cnpg
    && !Writing(w.api.cnpg[n].status.phase)
    && (var storage := w.api.backups[n].storage;
        storage in w.api.stores && storage in w.api.storages && w.api.storages[storage].s3)
    && job in w.api.jobs && w.api.jobs[job].owner == Some(w.api.backups[n].uid)
    && w.api.jobs[job].conditions == COMPLETE
  }

  lemma RecordIsDeleted(w: World, n: string, jobName: string -> string)
    requires Emptied(w, n, jobName(n))
    ensures
      var c := w.api.cnpg[n];
      Next(w, Cleanup(n), jobName)
      == if c.finalizers || c.deleting then WithCnpg(w, n, c.(deleting := true)) else WithoutCnpg(w, n)
  {
    var c := w.api.cnpg[n];
    CleanupMoves(w.api, n, w.api.backups[n], jobName(n));
    if c.deleting { assert w.api.cnpg[n := c.(deleting := true)] == w.api.cnpg; }
  }

  /** The call that deletes the CNPG Backup, and its disappearance if that is another step. */
  function Disposal(w: World, n: string): seq<Event>
    requires n in w.api.cnpg
  {
    [Cleanup(n)] + if w.api.cnpg[n].finalizers || w.api.cnpg[n].deleting then [Vanish(n)] else []
  }

  lemma RecordGoes(w: World, n: string, jobName: string -> string)
    requires Emptied(w, n, jobName(n))
    ensures Valid(w, Disposal(w, n), jobName) && After(w, Disposal(w, n), jobName) == WithoutCnpg(w, n)
  {
    var c := w.api.cnpg[n];
    RecordIsDeleted(w, n, jobName);
    if c.finalizers || c.deleting {
      MarkedVanishes(w, n, jobName);
      OneMore(w, Cleanup(n), [Vanish(n)], jobName);
    } else {
      OneMore(w, Cleanup(n), [], jobName);
    }
  }

  lemma MarkedVanishes(w: World, n: string, jobName: string -> string)
    requires n in w.api.cnpg
    ensures
      var marked := WithCnpg(w, n, w.api.cnpg[n].(deleting := true));
      Valid(marked, [Vanish(n)], jobName) && After(marked, [Vanish(n)], jobName) == WithoutCnpg(w, n)
  {
    var marked := WithCnpg(w, n, w.api.cnpg[n].(deleting := true));
    assert marked.api.cnpg - {n} == w.api.cnpg - {n};
    OneMore(marked, Vanish(n), [], jobName);
    assert [Vanish(n)] + [] == [Vanish(n)];
  }

  lemma DeletionRuns(w: World, n: string, jobName: string -> string)
    requires Deletable(w, n, jobName(n))
    ensures
      var job := BuiltJob(w, n, jobName(n));
      && Valid(w, Deletion(w, n, jobName(n)), jobName) && DeleteTarget(job.args).Some?
      && After(w, Deletion(w, n, jobName(n)), jobName)
         == WithoutCnpg(JobRan(w, jobName(n), job, DeleteTarget(job.args).value), n)
  {
    var j := jobName(n);
    var job := BuiltJob(w, n, j);
    JobIsCreated(w, n, jobName);
    JobRuns(w, j, job, jobName);
    var w1 := Next(w, Cleanup(n), jobName);
    var w2 := Next(w1, JobRemovesData(j), jobName);
    var w3 := JobRan(w, j, job, DeleteTarget(job.args).value);
    RecordGoes(w3, n, jobName);
    var rest := Disposal(w, n);
    OneMore(w2, JobReports(j, COMPLETE), rest, jobName);
    OneMore(w1, JobRemovesData(j), [JobReports(j, COMPLETE)] + rest, jobName);
    OneMore(w, Cleanup(n), [JobRemovesData(j)] + ([JobReports(j, COMPLETE)] + rest), jobName);
  }

  lemma CallAfterwardsIsDone(w: World, n: string, j: string, job: Job, t: Target, jobName: string -> string)
    requires n in w.api.backups && j == jobName(n)
    ensures CleanupOutcome(WithoutCnpg(JobRan(w, j, job, t), n), n, jobName).Done?
  {
  }

  /** An undisturbed deletion always ends with CleanupBackup returning true, and the base
      backup is then gone if and only if the Job was well addressed when it was created:
      endpoint, path and server were each recorded by the CNPG Backup, or were still those it
      was written to. */
  lemma DeletionIsExact(w: World, n: string, jobName: string -> string)
    requires ObjectsOk(w) && Deletable(w, n, jobName(n)) && Location(w, w.api.cnpg[n]) in w.bucket
    ensures
      var run := Deletion(w, n, jobName(n));
      var t := Location(w, w.api.cnpg[n]);
      && Valid(w, run, jobName)
      && var w' := After(w, run, jobName);
      && n in w'.api.backups && CleanupOutcome(w', n, jobName).Done?
      && DataOf(w', t, w.api.backups[n].uid)
      && (t !in w'.bucket <==> WellAddressed(w, n))
  {
    var job := BuiltJob(w, n, jobName(n));
    assert BackupOk(w, n) && CnpgOk(w, n);
    NewJobAddresses(w, n);
    DeletionRuns(w, n, jobName);
    CallAfterwardsIsDone(w, n, jobName(n), job, DeleteTarget(job.args).value, jobName);
  }

  /** The ObjectStore of the Backup n gets another endpoint and path. */
  function Repointed(w: World, n: string, endpoint: string, path: string): World
    requires n in w.api.backups && w.api.backups[n].storage in w.api.stores
  {
    var storage := w.api.backups[n].storage;
    var store := w.api.stores[storage].(endpointURL := endpoint, destinationPath := path);
    w.(api := w.api.(stores := w.api.stores[storage := store]))
  }

  lemma RepointingIsAnEdit(w: World, n: string, endpoint: string, path: string, jobName: string -> string)
    requires n in w.api.backups && w.api.backups[n].storage in w.api.stores
    ensures
      var stores := Repointed(w, n, endpoint, path).api.stores;
      var edit := Configure(stores, w.api.storages, w.api.clusters, w.api.instances);
      Enabled(w, edit) && Next(w, edit, jobName) == Repointed(w, n, endpoint, path)
  {
  }

  lemma RepointedIsDeletable(w: World, n: string, endpoint: string, path: string, job: string)
    requires Deletable(w, n, job) && OrElse(w.api.cnpg[n].status.destinationPath, path) != ""
    ensures
      var w1 := Repointed(w, n, endpoint, path);
      var status, place := w.api.cnpg[n].status, PlaceOf(w, w.api.cnpg[n]);
      && Deletable(w1, n, job)
      && (WellAddressed(w1, n) <==>
            && (status.endpointURL != "" || endpoint == place.endpoint)
            && (status.destinationPath != "" || path == place.path)
            && (status.serverName != "" || w.api.cnpg[n].cluster == place.server))
  {
  }

  /** An edit of the storage is enough: after it the deletion ends all the same, and leaves the
      data behind exactly when the endpoint, or the path, was changed and not recorded. */
  lemma StorageEditOrphansData(w: World, n: string, endpoint: string, path: string, jobName: string -> string)
    requires ObjectsOk(w) && Deletable(w, n, jobName(n)) && WellAddressed(w, n)
    requires OrElse(w.api.cnpg[n].status.destinationPath, path) != ""
    requires Location(w, w.api.cnpg[n]) in w.bucket
    ensures
      var w1 := Repointed(w, n, endpoint, path);
      var t := Location(w, w.api.cnpg[n]);
      var status := w.api.cnpg[n].status;
      && n in w1.api.cnpg && Valid(w1, Deletion(w1, n, jobName(n)), jobName)
      && var w2 := After(w1, Deletion(w1, n, jobName(n)), jobName);
      && n in w2.api.backups && CleanupOutcome(w2, n, jobName).Done?
      && DataOf(w2, t, w.api.backups[n].uid)
      && (t in w2.bucket <==>
            || (status.endpointURL == "" && endpoint != t.place.endpoint)
            || (status.destinationPath == "" && path != t.place.path))
  {
    var w1 := Repointed(w, n, endpoint, path);
    RepointedIsDeletable(w, n, endpoint, path, jobName(n));
    SameObjectsKeeps(w, w1);
    DeletionIsExact(w1, n, jobName);
  }

  // ---- A backup that resumes ----

  /** The status of the CNPG Backup n becomes s. */
  function InPhase(w: World, n: string, p: Phase): World
    requires n in w.api.cnpg
  {
    WithCnpg(w, n, w.api.cnpg[n].(status := w.api.cnpg[n].status.(phase := p)))
  }

  lemma PhaseStep(w: World, n: string, p: Phase, jobName: string -> string)
    requires n in w.api.cnpg && !Final(w.api.cnpg[n].status.phase)
    ensures
      var e := Progress(n, w.api.cnpg[n].status.(phase := p), NOWHERE);
      Enabled(w, e) && Next(w, e, jobName) == InPhase(w, n, p)
  {
  }

  /** The rest of a backup that was not in progress: it runs, writes and completes. */
  function Resumption(w: World, n: string): seq<Event>
    requires n in w.api.cnpg
  {
    var s := w.api.cnpg[n].status;
    [Progress(n, s.(phase := Running), NOWHERE)]
    + ([Upload(n)] + [Progress(n, s.(phase := Completed), NOWHERE)])
  }

  /** The upload and the end of a running backup. */
  lemma CompletionRuns(w: World, n: string, jobName: string -> string)
    requires n in w.api.cnpg && w.api.cnpg[n].status.phase.Running? && w.api.cnpg[n].status.backupID != ""
    ensures
      var rest := [Upload(n)] + [Progress(n, w.api.cnpg[n].status.(phase := Completed), NOWHERE)];
      && Valid(w, rest, jobName)
      && After(w, rest, jobName) == InPhase(w, n, Completed).(bucket := w.bucket + {Location(w, w.api.cnpg[n])})
  {
    var end := Progress(n, w.api.cnpg[n].status.(phase := Completed), NOWHERE);
    var w1 := w.(bucket := w.bucket + {Location(w, w.api.cnpg[n])});
    assert Enabled(w, Upload(n)) && Next(w, Upload(n), jobName) == w1;
    PhaseStep(w1, n, Completed, jobName);
    OneMore(w1, end, [], jobName);
    assert [end] + [] == [end];
    OneMore(w, Upload(n), [end], jobName);
  }

  lemma PhaseTwice(w: World, n: string, p: Phase, q: Phase)
    requires n in w.api.cnpg
    ensures
      var w1 := InPhase(w, n, p);
      && InPhase(w1, n, q) == InPhase(w, n, q) && w1.bucket == w.bucket
      && w1.api.cnpg[n].status == w.api.cnpg[n].status.(phase := p)
      && Location(w1, w1.api.cnpg[n]) == Location(w, w.api.cnpg[n])
  {
    var c := w.api.cnpg[n];
    var d := c.(status := c.status.(phase := q));
    assert w.api.cnpg[n := c.(status := c.status.(phase := p))][n := d] == w.api.cnpg[n := d];
  }

  lemma ResumptionRuns(w: World, n: string, jobName: string -> string)
    requires n in w.api.cnpg && !Final(w.api.cnpg[n].status.phase) && w.api.cnpg[n].status.backupID != ""
    ensures
      && Valid(w, Resumption(w, n), jobName)
      && After(w, Resumption(w, n), jobName)
         == InPhase(w, n, Completed).(bucket := w.bucket + {Location(w, w.api.cnpg[n])})
  {
    var s := w.api.cnpg[n].status;
    PhaseTwice(w, n, Running, Completed);
    PhaseStep(w, n, Running, jobName);
    CompletionRuns(InPhase(w, n, Running), n, jobName);
    OneMore(w, Progress(n, s.(phase := Running), NOWHERE),
            [Upload(n)] + [Progress(n, s.(phase := Completed), NOWHERE)], jobName);
  }

  /** Why the Job must wait for a final phase: deleteBackupData does not count the phases New
      and WalArchivingFailing as in progress. Should a backup with an ID be in one of them and
      resume after its Job has run, the next calls return true and its data is left, however
      well the Job was addressed. */
  lemma ResumedBackupOrphansData(w: World, n: string, j: string, jobName: string -> string)
    requires ObjectsOk(w) && j == jobName(n) && Deletable(w, n, j) && AtRest(w, n)
    ensures
      var job := BuiltJob(w, n, j);
      && DeleteTarget(job.args).Some?
      && var w1 := JobRan(w, j, job, DeleteTarget(job.args).value);
      && Valid(w1, Resumption(w1, n), jobName)
      && var w2 := After(w1, Resumption(w1, n), jobName);
      && n in w2.api.cnpg && Valid(w2, Disposal(w2, n), jobName)
      && var w3 := After(w2, Disposal(w2, n), jobName);
      && n in w3.api.backups && CleanupOutcome(w3, n, jobName).Done?
      && Location(w, w.api.cnpg[n]) in w3.bucket
      && DataOf(w3, Location(w, w.api.cnpg[n]), w.api.backups[n].uid)
  {
    var job := BuiltJob(w, n, j);
    assert BackupOk(w, n) && CnpgOk(w, n);
    JobIsCreated(w, n, jobName);
    var w1 := JobRan(w, j, job, DeleteTarget(job.args).value);
    ResumptionRuns(w1, n, jobName);
    var w2 := After(w1, Resumption(w1, n), jobName);
    RecordGoes(w2, n, jobName);
    GoneIsDone(w2, n, j, jobName);
  }

  lemma GoneIsDone(w: World, n: string, j: string, jobName: string -> string)
    requires n in w.api.backups && j == jobName(n) && j in w.api.jobs && w.api.jobs[j].conditions == COMPLETE
    ensures CleanupOutcome(WithoutCnpg(w, n), n, jobName).Done?
  {
  }

  /** When somebody else deletes a CNPG Backup and it goes, the next call returns true unless
      it looks at an unfinished or failed Job. Under Delete it leaves data exactly when the
      base backup was in the bucket and there is no Job, or a complete Job of another owner. */
  lemma StrayDeletionOrphansData(w: World, name: string, jobName: string -> string)
    requires Inv(w) && Enabled(w, Cleanup(name)) && name in w.api.cnpg
    ensures
      var b, c := w.api.backups[name], w.api.cnpg[name];
      var job := jobName(name);
      var w' := WithoutCnpg(w, name);
      && (!c.finalizers ==> Next(w, ForeignDelete(name), jobName) == w')
      && (CleanupOutcome(w', name, jobName).Done? <==>
            b.policy.Retain? || job !in w.api.jobs
            || (HasCondition(w.api.jobs[job], JobComplete) && !HasCondition(w.api.jobs[job], JobFailed)))
      && (b.policy.Delete? ==>
            (CleanupOutcome(w', name, jobName).Done? && (exists t | t in w'.bucket :: DataOf(w', t, b.uid)) <==>
             && c.status.backupID != "" && Location(w, c) in w.bucket
             && (job !in w.api.jobs
                 || (w.api.jobs[job].owner != Some(b.uid)
                     && HasCondition(w.api.jobs[job], JobComplete) && !HasCondition(w.api.jobs[job], JobFailed)))))
  {
    var b, c := w.api.backups[name], w.api.cnpg[name];
    var job := jobName(name);
    var w' := WithoutCnpg(w, name);
    assert BackupOk(w, name) && CnpgOk(w, name);
    if b.policy.Delete? {
      OnlyDataIsHere(w, name);
      assert c.status.backupID != "" && Location(w, c) in w.bucket ==> DataOf(w', Location(w, c), b.uid);
      if job in w.api.jobs && w.api.jobs[job].owner == Some(b.uid) && HasCondition(w.api.jobs[job], JobComplete) {
        OwnJobIsDone(w, name, job);
      }
    }
  }

  /** As long as a Backup to delete has its CNPG Backup, that wrote all its data. */
  lemma OnlyDataIsHere(w: World, n: string)
    requires Inv(w) && n in w.api.backups && n in w.api.cnpg && Guarded(w, n)
    ensures forall t | t in w.bucket && DataOf(w, t, w.api.backups[n].uid) ::
              w.api.cnpg[n].status.backupID != "" && t == Location(w, w.api.cnpg[n])
  {
    assert BackupOk(w, n);
    forall t | t in w.bucket && DataOf(w, t, w.api.backups[n].uid)
      ensures w.api.cnpg[n].status.backupID != "" && t == Location(w, w.api.cnpg[n])
    {
      assert Addressable(w, t) && MadeOk(w, t);
    }
  }

  lemma OwnJobIsDone(w: World, n: string, j: string)
    requires Inv(w) && n in w.api.backups && n in w.api.cnpg && j in w.api.jobs
    requires w.api.jobs[j].owner == Some(w.api.backups[n].uid) && HasCondition(w.api.jobs[j], JobComplete)
    ensures w.api.cnpg[n].status.backupID != "" && Location(w, w.api.cnpg[n]) !in w.bucket
  {
    assert BackupOk(w, n) && JobOk(w, j) && EffectOk(w, j);
    assert MadeOk(w, DeleteTarget(w.api.jobs[j].args).value);
  }

  // ---- Jobs ----

  lemma NewJobOf(a: Api, name: string, b: Backup, jobName: string, j: string)
    requires var jobs := CleanupStep(a, name, b, jobName).0.jobs; j in jobs && (j in a.jobs ==> jobs[j] != a.jobs[j])
    ensures
      && j == jobName && j !in a.jobs && name in a.cnpg && b.policy.Delete? && b.storage in a.stores
      && var built := DeletionJob(a.cnpg[name], a.stores[b.storage]);
      built.Ok? && CleanupStep(a, name, b, jobName).0.jobs[j] == built.value.(owner := Some(b.uid))
  {
    CleanupMoves(a, name, b, jobName);
    match MoveOf(a, name, b, jobName)
    case NoMove => assert false;
    case NewJob(job) =>
    case DeleteIt => DeleteCnpgFrame(a, name, name);
  }

  /** Every Job the provider creates belongs to the Backup being cleaned up, is only created
      for a policy other than Retain, and addresses the base backup of the CNPG Backup of the
      same name if and only if it is well addressed. */
  lemma CreatedJobTargetsItsBackup(w: World, name: string, jobName: string -> string, j: string)
    requires name in w.api.backups && (name in w.api.cnpg ==> CnpgOk(w, name)) && Enabled(w, Cleanup(name))
    requires var jobs := Next(w, Cleanup(name), jobName).api.jobs;
             j in jobs && (j in w.api.jobs ==> jobs[j] != w.api.jobs[j])
    ensures
      var job := Next(w, Cleanup(name), jobName).api.jobs[j];
      && j == jobName(name) && j !in w.api.jobs && name in w.api.cnpg
      && w.api.backups[name].policy.Delete?
      && job.owner == Some(w.api.backups[name].uid)
      && (DeleteTarget(job.args) == Some(Location(w, w.api.cnpg[name])) <==> WellAddressed(w, name))
  {
    var b := w.api.backups[name];
    assert Next(w, Cleanup(name), jobName).api == CleanupStep(w.api, name, b, jobName(name)).0;
    NewJobOf(w.api, name, b, jobName(name), j);
    NewJobAddresses(w, name);
  }

  /** In every orderly run a Job only ever removes data of the Backup that owns it, and a
      Backup that still exists when its Job removes data is being deleted under the Delete
      policy. Data of any other Backup, and data the operator never wrote, stays. */
  lemma JobRemovesOnlyOwnData(w0: World, run: seq<Event>, j: string, jobName: string -> string)
    requires Initial(w0) && Valid(w0, run, jobName) && OrderlyRun(w0, run, jobName)
    requires Enabled(After(w0, run, jobName), JobRemovesData(j))
    ensures
      var w := After(w0, run, jobName);
      var u := w.api.jobs[j].owner.value;
      && (forall t | t in w.bucket && t !in Next(w, JobRemovesData(j), jobName).bucket :: DataOf(w, t, u))
      && (forall n | Holds(w, n, u) :: w.api.backups[n].deleting && w.api.backups[n].policy.Delete?)
  {
    InitialInv(w0);
    RunKeepsInv(w0, run, jobName);
    var w := After(w0, run, jobName);
    assert JobOk(w, j) && EffectOk(w, j);
    forall n | Holds(w, n, w.api.jobs[j].owner.value)
      ensures w.api.backups[n].deleting && w.api.backups[n].policy.Delete?
    {
      assert BackupOk(w, n);
    }
  }

  // ---- Retain ----

  predicate Expires(w: World, e: Event, t: Target)
    requires Enabled(w, e)
  {
    e.Expire? && Location(w, w.api.cnpg[e.name]) == t
  }

  predicate NeverExpires(w: World, run: seq<Event>, t: Target, jobName: string -> string)
    requires Valid(w, run, jobName)
    decreases |run|
  {
    run == [] || (!Expires(w, run[0], t) && NeverExpires(Next(w, run[0], jobName), run[1..], t, jobName))
  }

  /** u was, or still is, a Backup whose deletion began under Retain, and no Job acts for it. */
  predicate Retained(w: World, u: Uid) {
    && u in w.history
    && (forall n | n in w.api.backups && w.api.backups[n].uid == u ::
          w.api.backups[n].deleting && w.api.backups[n].policy.Retain?)
    && (forall j | j in w.api.jobs :: w.api.jobs[j].owner != Some(u))
  }

  lemma RetainedAtDeletion(w: World, n: string)
    requires ObjectsOk(w) && n in w.api.backups && w.api.backups[n].deleting && w.api.backups[n].policy.Retain?
    ensures Retained(w, w.api.backups[n].uid)
  {
  }

  lemma NextKeepsRetained(w: World, e: Event, u: Uid, jobName: string -> string)
    requires UidsOk(w) && Enabled(w, e) && Retained(w, u)
    ensures Retained(Next(w, e, jobName), u)
  {
    var w' := Next(w, e, jobName);
    RecordsGrow(w, e, jobName);
    forall n | n in w'.api.backups && w'.api.backups[n].uid == u
      ensures w'.api.backups[n].deleting && w'.api.backups[n].policy.Retain?
    {
      if e != RemoveBackup(n) { EventFrame(w, e, jobName, n); }
    }
    forall j | j in w'.api.jobs ensures w'.api.jobs[j].owner != Some(u) {
      if w'.api.jobs[j].owner.Some? { JobFrame(w, e, jobName, j); }
    }
  }

  lemma SyncKeepsDataOf(w: World, m: string, recorded: bool, t: Target, u: Uid)
    requires UidsOk(w) && Enabled(w, Sync(m, recorded)) && DataOf(w, t, u)
    ensures DataOf(AfterSync(w, m, recorded), t, u)
  {
    SyncStepCases(w.api, m, w.api.backups[m], w.api.instances[w.api.backups[m].instance]);
  }

  lemma NextKeepsDataOf(w: World, e: Event, t: Target, u: Uid, jobName: string -> string)
    requires UidsOk(w) && Enabled(w, e) && DataOf(w, t, u)
    requires e.CreateBackup? && e.name in w.api.cnpg ==> CnpgOk(w, e.name)
    ensures DataOf(Next(w, e, jobName), t, u)
  {
    if e.Sync? {
      SyncKeepsDataOf(w, e.name, e.recorded, t, u);
    } else if e.CreateBackup? {
      UserChanges(w, e, jobName);
    } else if !e.Progress? {
      assert Next(w, e, jobName).made == w.made && Next(w, e, jobName).parent == w.parent;
    }
  }

  lemma BucketStays(w: World, e: Event, jobName: string -> string)
    requires Enabled(w, e) && !e.Expire? && !e.JobRemovesData?
    ensures w.bucket <= Next(w, e, jobName).bucket
  {
  }

  lemma NextKeepsRetainedData(w: World, e: Event, u: Uid, t: Target, jobName: string -> string)
    requires Inv(w) && Enabled(w, e) && Retained(w, u)
    requires t in w.bucket && DataOf(w, t, u) && !Expires(w, e, t)
    ensures var w' := Next(w, e, jobName); t in w'.bucket && DataOf(w', t, u)
  {
    if e.CreateBackup? && e.name in w.api.cnpg { assert CnpgOk(w, e.name); }
    NextKeepsDataOf(w, e, t, u, jobName);
    if e.JobRemovesData? {
      assert EffectOk(w, e.job);
    } else if !e.Expire? {
      BucketStays(w, e, jobName);
    }
  }

  /** Once a Backup is being deleted under Retain, no Job is ever created for it, in any run. */
  lemma {:induction false} RetainCreatesNoJob(w: World, run: seq<Event>, u: Uid, jobName: string -> string)
    requires ObjectsOk(w) && Valid(w, run, jobName) && Retained(w, u)
    ensures Retained(After(w, run, jobName), u)
    decreases |run|
  {
    if run != [] {
      NextKeepsObjects(w, run[0], jobName);
      NextKeepsRetained(w, run[0], u, jobName);
      RetainCreatesNoJob(Next(w, run[0], jobName), run[1..], u, jobName);
    }
  }

  /** In every orderly run its base backups stay in the bucket, also after the Backup is gone
      and its name reused, until Barman retention expires them. */
  lemma {:induction false} RetainKeepsData(w: World, run: seq<Event>, u: Uid, t: Target, jobName: string -> string)
    requires Inv(w) && Valid(w, run, jobName) && OrderlyRun(w, run, jobName) && Retained(w, u)
    requires t in w.bucket && DataOf(w, t, u) && NeverExpires(w, run, t, jobName)
    ensures var w' := After(w, run, jobName); Retained(w', u) && t in w'.bucket && DataOf(w', t, u)
    decreases |run|
  {
    if run != [] {
      NextKeepsInv(w, run[0], jobName);
      NextKeepsRetained(w, run[0], u, jobName);
      NextKeepsRetainedData(w, run[0], u, t, jobName);
      RetainKeepsData(Next(w, run[0], jobName), run[1..], u, t, jobName);
    }
  }

  // ---- SyncBackup ----

  predicate Creates(a: Api, a': Api, name: string) {
    name !in a.cnpg && name in a'.cnpg
  }

  lemma SyncCreatesWhen(a: Api, name: string, b: Backup, i: Instance)
    ensures Creates(a, SyncStep(a, name, b, i).0, name) <==>
            && name !in a.cnpg && b.ref.None? && i.name in a.clusters
            && i.backup.Some? && i.backup.value.enabled
              && (exists st | st in i.backup.value.storages :: st.name == b.storage)
            && ArchiveStore(a.clusters[i.name].plugins) == b.storage
            && b.target.Some?
  {
  }

  /** SyncBackup creates a CNPG Backup exactly when none exists or was recorded, the storage
      is configured on the Instance, the Cluster archives to it, and the parameters decode;
      the new object names that storage and that Cluster and is controlled by the Backup. */
  lemma SyncCreatesExactlyWhenArchived(a: Api, name: string, b: Backup, i: Instance)
    ensures
      var a' := SyncStep(a, name, b, i).0;
      && (Creates(a, a', name) <==>
            && name !in a.cnpg && b.ref.None? && i.name in a.clusters
            && i.backup.Some? && i.backup.value.enabled
              && (exists st | st in i.backup.value.storages :: st.name == b.storage)
            && ArchiveStore(a.clusters[i.name].plugins) == b.storage
            && b.target.Some?)
      && (Creates(a, a', name) ==>
            var c := a'.cnpg[name];
            c.storage == b.storage && c.cluster == i.name && c.controller == Some(b.uid) && c.target == b.target.value
            && c.status == EMPTY_STATUS && !c.deleting)
      && (forall n | n != name :: (n in a'.cnpg <==> n in a.cnpg) && (n in a.cnpg ==> a'.cnpg[n] == a.cnpg[n]))
      && a' == a.(cnpg := a'.cnpg, nextUid := a'.nextUid)
  {
    SyncCreatesWhen(a, name, b, i);
    SyncStepCases(a, name, b, i);
  }

  /** At most one CNPG Backup is created per Backup, plus one for each creating call whose
      status was never stored. */
  lemma AtMostOneCreation(w0: World, run: seq<Event>, n: string, jobName: string -> string)
    requires Initial(w0) && Valid(w0, run, jobName)
    requires n in After(w0, run, jobName).api.backups
    ensures
      var w := After(w0, run, jobName);
      var u := w.api.backups[n].uid;
      u in w.history && w.history[u].created <= 1 + w.history[u].unrecorded
  {
    InitialInv(w0);
    RunKeepsObjects(w0, run, jobName);
    assert BackupOk(After(w0, run, jobName), n);
  }

  /** The CNPG Backup recorded for the Backup u, called n, is gone. */
  predicate Lost(w: World, n: string, u: Uid) {
    u in w.history && (Holds(w, n, u) ==> w.api.backups[n].ref.Some? && n !in w.api.cnpg)
  }

  lemma NextKeepsLost(w: World, e: Event, n: string, u: Uid, jobName: string -> string)
    requires UidsOk(w) && Enabled(w, e) && Lost(w, n, u)
    ensures Lost(Next(w, e, jobName), n, u)
  {
    if e == RemoveBackup(n) { RemovalOfBackupFrame(w, n, jobName); } else { EventFrame(w, e, jobName, n); }
  }

  /** Once a recorded CNPG Backup is gone, no later call recreates it: as long as the Backup
      exists, SyncBackup changes nothing and reports Failed, or Pending while its Cluster is
      missing. */
  lemma {:induction false} LostBackupStaysLost(w: World, run: seq<Event>, n: string, u: Uid, jobName: string -> string)
    requires ObjectsOk(w) && Valid(w, run, jobName) && Lost(w, n, u)
    ensures
      var w' := After(w, run, jobName);
      Holds(w', n, u) ==>
        && n !in w'.api.cnpg
        && forall i: Instance ::
             SyncStep(w'.api, n, w'.api.backups[n], i)
             == (w'.api, Status(if i.name in w'.api.clusters then StateFailed else StatePending, None))
    decreases |run|
  {
    if run != [] {
      NextKeepsObjects(w, run[0], jobName);
      NextKeepsLost(w, run[0], n, u, jobName);
      LostBackupStaysLost(Next(w, run[0], jobName), run[1..], n, u, jobName);
    }
  }
}
