/** CleanupBackup gets there: each call that does something brings the end closer, every
    other call has a stated reason, and with a cooperating environment it returns true. */
module BackupProgress {
  import opened Common
  import opened Backups
  import opened BackupProtocol
  import opened BackupInvariant
  import opened BackupFrames
  import opened BackupSafety

  /** What is left to do for the Backup name: create the Job, mark the CNPG Backup, lose it. */
  function Remaining(a: Api, name: string, job: string): nat {
    if name !in a.cnpg then 0
    else 1 + (if a.cnpg[name].deleting then 0 else 1) + (if job in a.jobs then 0 else 1)
  }

  predicate Acts(a: Api, name: string, b: Backup, job: string) {
    CleanupStep(a, name, b, job).0 != a
  }

  /** A call that changes anything brings Remaining down and asks to be called again. */
  lemma ActingCallProgresses(a: Api, name: string, b: Backup, job: string)
    requires Acts(a, name, b, job)
    ensures Remaining(CleanupStep(a, name, b, job).0, name, job) < Remaining(a, name, job)
    ensures CleanupStep(a, name, b, job).1.Requeue?
  {
    CleanupMoves(a, name, b, job);
    if MoveOf(a, name, b, job).DeleteIt? { DeletionProgresses(a, name, job); }
  }

  lemma DeletionProgresses(a: Api, name: string, job: string)
    requires name in a.cnpg && !a.cnpg[name].deleting
    ensures Remaining(DeleteCnpg(a, name), name, job) < Remaining(a, name, job)
  {
  }

  /** Why a call that changes nothing asks to be called again: it waits for the operator to
      finish the backup, for the Job, or for a marked CNPG Backup to disappear. */
  predicate Waits(a: Api, name: string, b: Backup, job: string) {
    var jobRuns := job in a.jobs && !HasCondition(a.jobs[job], JobFailed) && !HasCondition(a.jobs[job], JobComplete);
    if name !in a.cnpg then b.policy.Delete? && jobRuns
    else
      var c := a.cnpg[name];
      if b.policy.Retain? then c.deleting
      else if Writing(c.status.phase) then true
      else if c.status.backupID == "" then c.deleting
      else b.storage in a.stores && b.storage in a.storages && a.storages[b.storage].s3
           && job in a.jobs && a.jobs[job].owner == Some(b.uid)
           && !HasCondition(a.jobs[job], JobFailed) && (HasCondition(a.jobs[job], JobComplete) ==> c.deleting)
  }

  /** The storage of b can be read, and it is S3. */
  predicate Readable(a: Api, b: Backup) {
    b.storage in a.stores && b.storage in a.storages && a.storages[b.storage].s3
  }

  /** Data has to go before the CNPG Backup can. */
  predicate HasData(c: CnpgBackup, b: Backup) {
    b.policy.Delete? && !Writing(c.status.phase) && c.status.backupID != ""
  }

  /** When a call creates the Job. */
  predicate Builds(a: Api, name: string, b: Backup, job: string) {
    && name in a.cnpg && HasData(a.cnpg[name], b) && Readable(a, b)
    && job !in a.jobs && Buildable(a.cnpg[name], a.stores[b.storage])
  }

  /** When a call deletes the CNPG Backup: there is no data to delete, or its own Job has. */
  predicate Deletes(a: Api, name: string, b: Backup, job: string) {
    && name in a.cnpg && !a.cnpg[name].deleting
    && (b.policy.Retain? || !Writing(a.cnpg[name].status.phase))
    && (HasData(a.cnpg[name], b) ==>
          && Readable(a, b) && job in a.jobs && a.jobs[job].owner == Some(b.uid)
          && HasCondition(a.jobs[job], JobComplete) && !HasCondition(a.jobs[job], JobFailed))
  }

  /** When a call fails: the Job failed, or, while there is data, the storage cannot be read,
      the Job cannot be built, or its name is taken by another's. */
  predicate Fails(a: Api, name: string, b: Backup, job: string) {
    if name !in a.cnpg then b.policy.Delete? && job in a.jobs && HasCondition(a.jobs[job], JobFailed)
    else
      && HasData(a.cnpg[name], b)
      && (!Readable(a, b)
          || if job in a.jobs then a.jobs[job].owner != Some(b.uid) || HasCondition(a.jobs[job], JobFailed)
             else !Buildable(a.cnpg[name], a.stores[b.storage]))
  }

  /** The error is true. */
  predicate Explains(a: Api, name: string, b: Backup, job: string, error: CleanupError) {
    match error
    case ObjectStoreNotFound => b.storage !in a.stores
    case StorageNotFound => b.storage !in a.storages
    case NotS3 => b.storage in a.storages && !a.storages[b.storage].s3
    case JobNotOwned => job in a.jobs && a.jobs[job].owner != Some(b.uid)
    case DeletionJobFailed => job in a.jobs && HasCondition(a.jobs[job], JobFailed)
    case _ =>
      && name in a.cnpg && b.storage in a.stores && job !in a.jobs
      && DeletionJob(a.cnpg[name], a.stores[b.storage]) == Err(error)
  }

  /** What a call does, and when it fails, in terms of the objects it finds. */
  lemma CallsMoveExactly(a: Api, name: string, b: Backup, job: string)
    ensures MoveOf(a, name, b, job).NewJob? <==> Builds(a, name, b, job)
    ensures MoveOf(a, name, b, job).DeleteIt? <==> Deletes(a, name, b, job)
    ensures CleanupStep(a, name, b, job).1.Failure? <==> Fails(a, name, b, job)
  {
    if name in a.cnpg && b.storage in a.stores { DeletionJobIsBuiltExactly(a.cnpg[name], a.stores[b.storage]); }
  }

  lemma FailuresAreExplained(a: Api, name: string, b: Backup, job: string)
    ensures
      var outcome := CleanupStep(a, name, b, job).1;
      outcome.Failure? ==> Explains(a, name, b, job, outcome.error)
  {
  }

  /** Every call acts, waits, returns true or fails; it returns true exactly when the CNPG
      Backup is gone and no Job under the Backup's Job name, whoever owns it, is unfinished or
      failed (a Retain Backup does not look at the Job). */
  lemma EveryCallIsAccountedFor(a: Api, name: string, b: Backup, job: string)
    ensures
      var outcome := CleanupStep(a, name, b, job).1;
      && (outcome.Requeue? <==> Acts(a, name, b, job) || Waits(a, name, b, job))
      && !(Acts(a, name, b, job) && Waits(a, name, b, job))
      && (outcome.Failure? <==> Fails(a, name, b, job))
      && (Acts(a, name, b, job) <==> Builds(a, name, b, job) || Deletes(a, name, b, job))
      && (outcome.Done? <==>
            && name !in a.cnpg
            && (b.policy.Delete? && job in a.jobs ==>
                  HasCondition(a.jobs[job], JobComplete) && !HasCondition(a.jobs[job], JobFailed)))
  {
    CallsMoveExactly(a, name, b, job);
    CleanupMoves(a, name, b, job);
    MovesChange(a, name, b, job);
    CallWaits(a, name, b, job);
  }

  lemma MovesChange(a: Api, name: string, b: Backup, job: string)
    ensures Acts(a, name, b, job) <==> !MoveOf(a, name, b, job).NoMove?
  {
    CleanupMoves(a, name, b, job);
    if MoveOf(a, name, b, job).NewJob? { assert job in CleanupStep(a, name, b, job).0.jobs; }
    if MoveOf(a, name, b, job).DeleteIt? { DeletionChanges(a, name); }
  }

  lemma DeletionChanges(a: Api, name: string)
    requires name in a.cnpg && !a.cnpg[name].deleting
    ensures DeleteCnpg(a, name) != a
  {
    if a.cnpg[name].finalizers { assert DeleteCnpg(a, name).cnpg[name].deleting; }
  }

  lemma CallWaits(a: Api, name: string, b: Backup, job: string)
    ensures CleanupStep(a, name, b, job).1.Requeue? && MoveOf(a, name, b, job).NoMove? <==> Waits(a, name, b, job)
  {
  }

  /** The absent path does not look at the owner: a failed Job of another Backup that shares
      the Job name blocks the cleanup of this one, although it has no data left. */
  lemma ForeignFailedJobBlocks(a: Api, name: string, b: Backup, job: string, other: Job)
    requires name !in a.cnpg && b.policy.Delete?
    requires other.owner != Some(b.uid) && HasCondition(other, JobFailed)
    ensures CleanupStep(a.(jobs := a.jobs[job := other]), name, b, job).1 == Failure(DeletionJobFailed)
    ensures job !in a.jobs ==> CleanupStep(a, name, b, job).1.Done?
  {
  }

  // ---- Bounded work over a run ----

  /** The cleanup calls for name in the run that change something. */
  function ActingCalls(w: World, run: seq<Event>, name: string, jobName: string -> string): nat
    requires Valid(w, run, jobName)
    decreases |run|
  {
    if run == [] then 0
    else
      (if run[0] == Cleanup(name) && Acts(w.api, name, w.api.backups[name], jobName(name)) then 1 else 0)
      + ActingCalls(Next(w, run[0], jobName), run[1..], name, jobName)
  }

  /** How often somebody deletes the Job of name. */
  function JobDeletions(run: seq<Event>, name: string, jobName: string -> string): nat {
    if run == [] then 0
    else (if run[0] == DeleteJob(jobName(name)) then 1 else 0) + JobDeletions(run[1..], name, jobName)
  }

  predicate BeingDeleted(w: World, name: string) {
    name in w.api.backups && w.api.backups[name].deleting
  }

  /** No event but the deletion of its Job adds work. */
  lemma EventAddsNoWork(w: World, e: Event, name: string, jobName: string -> string)
    requires Enabled(w, e) && BeingDeleted(w, name) && e != RemoveBackup(name)
    ensures
      var w' := Next(w, e, jobName);
      && BeingDeleted(w', name)
      && Remaining(w'.api, name, jobName(name))
         <= Remaining(w.api, name, jobName(name)) + (if e == DeleteJob(jobName(name)) then 1 else 0)
  {
    EventFrame(w, e, jobName, name);
    JobFrame(w, e, jobName, jobName(name));
  }

  /** While a Backup is being deleted, at most as many cleanup calls do something as steps
      remain, at most three, plus one for each time a user deletes the Job. */
  lemma {:induction false} WorkIsBounded(w: World, run: seq<Event>, name: string, jobName: string -> string)
    requires Valid(w, run, jobName) && BeingDeleted(w, name) && RemoveBackup(name) !in run
    ensures
      ActingCalls(w, run, name, jobName) + Remaining(After(w, run, jobName).api, name, jobName(name))
      <= Remaining(w.api, name, jobName(name)) + JobDeletions(run, name, jobName)
    decreases |run|
  {
    if run != [] {
      EventAddsNoWork(w, run[0], name, jobName);
      if run[0] == Cleanup(name) && Acts(w.api, name, w.api.backups[name], jobName(name)) {
        ActingCallProgresses(w.api, name, w.api.backups[name], jobName(name));
      }
      WorkIsBounded(Next(w, run[0], jobName), run[1..], name, jobName);
    }
  }

  // ---- Cooperation ----

  /** Nothing stands in the way of the deletion: the storage can be read, a Job can be built,
      and the Job name is not taken by a failed Job or, while it is needed, by another's. */
  predicate Unobstructed(w: World, name: string, job: string) {
    && BeingDeleted(w, name) && w.api.backups[name].policy.Delete?
    && var b := w.api.backups[name];
    && b.storage in w.api.stores && b.storage in w.api.storages && w.api.storages[b.storage].s3
    && (job in w.api.jobs ==> !HasCondition(w.api.jobs[job], JobFailed))
    && (name in w.api.cnpg && w.api.cnpg[name].status.backupID != "" ==>
          && Buildable(w.api.cnpg[name], w.api.stores[b.storage])
          && (job in w.api.jobs ==> w.api.jobs[job].owner == Some(b.uid)))
  }

  predicate JobPending(w: World, job: string) {
    job in w.api.jobs && !HasCondition(w.api.jobs[job], JobComplete)
  }

  function FinishJob(w: World, job: string): seq<Event>
    requires job in w.api.jobs
  {
    (if w.api.jobs[job].owner.Some? then [JobRemovesData(job)] else [])
    + [JobReports(job, COMPLETE)]
  }

  /** What a cooperating environment does next for name: end the backup, finish the Job, or
      let a marked CNPG Backup disappear once its data is dealt with. */
  function Help(w: World, name: string, job: string): seq<Event> {
    if name !in w.api.cnpg then (if JobPending(w, job) then FinishJob(w, job) else [])
    else
      var c := w.api.cnpg[name];
      if Writing(c.status.phase) then [Progress(name, c.status.(phase := Failed), NOWHERE)]
      else if c.status.backupID != "" && JobPending(w, job) then FinishJob(w, job)
      else if c.deleting && (c.status.backupID == "" || job in w.api.jobs) then [Vanish(name)]
      else []
  }

  function Rank(w: World, name: string, job: string): nat {
    2 * Remaining(w.api, name, job) + (if JobPending(w, job) then 1 else 0)
    + if name in w.api.cnpg && Writing(w.api.cnpg[name].status.phase) then 1 else 0
  }

  /** A Job in whatever unfinished state reports success. */
  lemma ReportWorks(w: World, job: string, jobName: string -> string)
    requires job in w.api.jobs && !Finished(w.api.jobs[job])
    requires w.api.jobs[job].owner.Some? ==>
               DeleteTarget(w.api.jobs[job].args).Some? && DeleteTarget(w.api.jobs[job].args).value !in w.bucket
    ensures
      var run := [JobReports(job, COMPLETE)];
      && Valid(w, run, jobName)
      && After(w, run, jobName).api
         == w.api.(jobs := w.api.jobs[job := w.api.jobs[job].(conditions := COMPLETE)])
  {
    OneMore(w, JobReports(job, COMPLETE), [], jobName);
    assert [JobReports(job, COMPLETE)] + [] == [JobReports(job, COMPLETE)];
  }

  /** It has removed its data first if it is one of the provider's. */
  lemma FinishJobWorks(w: World, job: string, jobName: string -> string)
    requires job in w.api.jobs && JobOk(w, job) && !Finished(w.api.jobs[job])
    ensures
      && Valid(w, FinishJob(w, job), jobName)
      && After(w, FinishJob(w, job), jobName).api
         == w.api.(jobs := w.api.jobs[job := w.api.jobs[job].(conditions := COMPLETE)])
  {
    if w.api.jobs[job].owner.Some? {
      var w' := w.(bucket := w.bucket - {DeleteTarget(w.api.jobs[job].args).value});
      assert Next(w, JobRemovesData(job), jobName) == w';
      ReportWorks(w', job, jobName);
      OneMore(w, JobRemovesData(job), [JobReports(job, COMPLETE)], jobName);
    } else {
      ReportWorks(w, job, jobName);
      assert FinishJob(w, job) == [JobReports(job, COMPLETE)];
    }
  }

  lemma EndOfBackupHelps(w: World, name: string, jobName: string -> string)
    requires Unobstructed(w, name, jobName(name)) && name in w.api.cnpg && Writing(w.api.cnpg[name].status.phase)
    ensures Helps(w, name, jobName)
  {
    var s := w.api.cnpg[name].status.(phase := Failed);
    EndIsUnobstructed(w, name, s, jobName(name));
    assert Next(w, Progress(name, s, NOWHERE), jobName) == WithCnpg(w, name, w.api.cnpg[name].(status := s));
    OneMore(w, Progress(name, s, NOWHERE), [], jobName);
    assert [Progress(name, s, NOWHERE)] + [] == Help(w, name, jobName(name));
  }

  lemma EndIsUnobstructed(w: World, name: string, s: CnpgStatus, job: string)
    requires Unobstructed(w, name, job) && name in w.api.cnpg && Writing(w.api.cnpg[name].status.phase)
    requires s == w.api.cnpg[name].status.(phase := Failed)
    ensures
      var w' := WithCnpg(w, name, w.api.cnpg[name].(status := s));
      Unobstructed(w', name, job) && Rank(w', name, job) < Rank(w, name, job)
  {
  }

  /** The help is possible, keeps the way free, and is only empty when the next call returns
      true or acts. */
  predicate Helps(w: World, name: string, jobName: string -> string) {
    var run := Help(w, name, jobName(name));
    && BeingDeleted(w, name)
    && Valid(w, run, jobName)
    && var w' := After(w, run, jobName);
    && Unobstructed(w', name, jobName(name))
    && if run != [] then Rank(w', name, jobName(name)) < Rank(w, name, jobName(name))
       else CleanupOutcome(w, name, jobName).Done? || Acts(w.api, name, w.api.backups[name], jobName(name))
  }

  lemma FinishedJobHelps(w: World, name: string, jobName: string -> string)
    requires Unobstructed(w, name, jobName(name)) && JobPending(w, jobName(name)) && JobOk(w, jobName(name))
    requires Help(w, name, jobName(name)) == FinishJob(w, jobName(name))
    ensures Helps(w, name, jobName)
  {
    FinishJobWorks(w, jobName(name), jobName);
  }

  lemma VanishingHelps(w: World, name: string, jobName: string -> string)
    requires Unobstructed(w, name, jobName(name)) && name in w.api.cnpg
    requires Help(w, name, jobName(name)) == [Vanish(name)]
    ensures Helps(w, name, jobName)
  {
    var w' := WithoutCnpg(w, name);
    assert Next(w, Vanish(name), jobName) == w';
    OneMore(w, Vanish(name), [], jobName);
    assert [Vanish(name)] + [] == [Vanish(name)];
    assert Remaining(w'.api, name, jobName(name)) == 0;
  }

  lemma HelpWorks(w: World, name: string, jobName: string -> string)
    requires ObjectsOk(w) && Unobstructed(w, name, jobName(name))
    ensures Helps(w, name, jobName)
  {
    var job := jobName(name);
    var run := Help(w, name, job);
    assert BackupOk(w, name);
    if job in w.api.jobs { assert JobOk(w, job); }
    if name in w.api.cnpg && Writing(w.api.cnpg[name].status.phase) {
      assert CnpgOk(w, name);
      EndOfBackupHelps(w, name, jobName);
    } else if run == [] {
      EveryCallIsAccountedFor(w.api, name, w.api.backups[name], job);
    } else if JobPending(w, job) && run == FinishJob(w, job) {
      FinishedJobHelps(w, name, jobName);
    } else {
      VanishingHelps(w, name, jobName);
    }
  }

  /** One round: the environment helps, then the runtime calls CleanupBackup. */
  function Helped(w: World, name: string, jobName: string -> string): World
    requires ObjectsOk(w) && Unobstructed(w, name, jobName(name))
  {
    HelpWorks(w, name, jobName);
    After(w, Help(w, name, jobName(name)), jobName)
  }

  lemma RoundProgresses(w: World, name: string, jobName: string -> string)
    requires ObjectsOk(w) && Unobstructed(w, name, jobName(name))
    ensures
      var w1 := Helped(w, name, jobName);
      && ObjectsOk(w1) && Unobstructed(w1, name, jobName(name))
      && (CleanupOutcome(w1, name, jobName).Done? ||
          var w2 := Next(w1, Cleanup(name), jobName);
          ObjectsOk(w2) && Unobstructed(w2, name, jobName(name))
            && Rank(w2, name, jobName(name)) < Rank(w, name, jobName(name)))
  {
    var job := jobName(name);
    HelpWorks(w, name, jobName);
    RunKeepsObjects(w, Help(w, name, job), jobName);
    var w1 := Helped(w, name, jobName);
    NextKeepsObjects(w1, Cleanup(name), jobName);
    CallKeepsUnobstructed(w1, name, jobName);
    CallLowersRank(w1, name, jobName);
  }

  lemma CallLowersRank(w: World, name: string, jobName: string -> string)
    requires Unobstructed(w, name, jobName(name))
    ensures
      var w' := Next(w, Cleanup(name), jobName);
      if Acts(w.api, name, w.api.backups[name], jobName(name))
      then Rank(w', name, jobName(name)) < Rank(w, name, jobName(name))
      else Rank(w', name, jobName(name)) == Rank(w, name, jobName(name))
  {
    CleanupApi(w, name, jobName);
    StepLowersRank(w, name, w.api.backups[name], jobName(name));
  }

  lemma StepLowersRank(w: World, name: string, b: Backup, job: string)
    ensures
      var w' := w.(api := CleanupStep(w.api, name, b, job).0);
      if Acts(w.api, name, b, job) then Rank(w', name, job) < Rank(w, name, job)
      else Rank(w', name, job) == Rank(w, name, job)
  {
    CallKeepsPhase(w.api, name, b, job);
    if Acts(w.api, name, b, job) { ActingCallProgresses(w.api, name, b, job); }
  }

  /** A call at most marks or removes the CNPG Backup, and a Job it creates has just begun. */
  lemma CallKeepsPhase(a: Api, name: string, b: Backup, job: string)
    ensures
      var a' := CleanupStep(a, name, b, job).0;
      && (name in a'.cnpg ==> name in a.cnpg && a'.cnpg[name] == a.cnpg[name].(deleting := a'.cnpg[name].deleting))
      && (job in a'.jobs ==> (job in a.jobs && a'.jobs[job] == a.jobs[job])
                             || (a'.jobs[job].owner == Some(b.uid) && a'.jobs[job].conditions == []))
      && (job in a.jobs ==> job in a'.jobs)
  {
    CleanupMoves(a, name, b, job);
  }

  lemma CallKeepsUnobstructed(w: World, name: string, jobName: string -> string)
    requires Unobstructed(w, name, jobName(name))
    ensures Unobstructed(Next(w, Cleanup(name), jobName), name, jobName(name))
  {
    var b := w.api.backups[name];
    CleanupApi(w, name, jobName);
    CleanupFrame(w.api, name, b, jobName(name), name);
    CallKeepsPhase(w.api, name, b, jobName(name));
  }

  /** CleanupBackup returns true within the given number of rounds. */
  predicate Finishes(w: World, name: string, jobName: string -> string, rounds: nat)
    requires ObjectsOk(w) && Unobstructed(w, name, jobName(name))
    decreases rounds
  {
    rounds > 0 &&
    (RoundProgresses(w, name, jobName);
     var w1 := Helped(w, name, jobName);
     CleanupOutcome(w1, name, jobName).Done? ||
     Finishes(Next(w1, Cleanup(name), jobName), name, jobName, rounds - 1))
  }

  /** With a cooperating environment and nothing in the way, CleanupBackup returns true after
      Rank + 1 rounds; Rank is at most seven. */
  lemma {:induction false} CooperationFinishes(w: World, name: string, jobName: string -> string)
    requires ObjectsOk(w) && Unobstructed(w, name, jobName(name))
    ensures Finishes(w, name, jobName, Rank(w, name, jobName(name)) + 1)
    ensures Rank(w, name, jobName(name)) <= 7
    decreases Rank(w, name, jobName(name))
  {
    RoundProgresses(w, name, jobName);
    var w1 := Helped(w, name, jobName);
    if !CleanupOutcome(w1, name, jobName).Done? {
      var w2 := Next(w1, Cleanup(name), jobName);
      CooperationFinishes(w2, name, jobName);
      FinishesLater(w2, name, jobName, Rank(w2, name, jobName(name)) + 1, Rank(w, name, jobName(name)));
    }
  }

  lemma {:induction false} FinishesLater(w: World, name: string, jobName: string -> string, rounds: nat, more: nat)
    requires ObjectsOk(w) && Unobstructed(w, name, jobName(name)) && rounds <= more
        && Finishes(w, name, jobName, rounds)
    ensures Finishes(w, name, jobName, more)
    decreases rounds
  {
    RoundProgresses(w, name, jobName);
    var w1 := Helped(w, name, jobName);
    if !CleanupOutcome(w1, name, jobName).Done? {
      FinishesLater(Next(w1, Cleanup(name), jobName), name, jobName, rounds - 1, more - 1);
    }
  }
}
