/** When a deletion can still end: the one thing that no actor but the one deleting the Job can
    get out of the way is a failed Job under the Backup's Job name. */
module BackupEnding {
  import opened Backups
  import opened BackupProtocol
  import opened BackupInvariant
  import opened BackupFrames
  import opened BackupSafety
  import opened BackupProgress

  predicate HasFailed(w: World, job: string) {
    job in w.api.jobs && HasCondition(w.api.jobs[job], JobFailed)
  }

  // ---- A failed Job blocks for good ----

  /** However long one waits, whatever is configured, and whoever deletes what else: until the
      failed Job is deleted, no call returns true. */
  lemma {:induction false} FailedJobBlocksForGood(w: World, run: seq<Event>, name: string, jobName: string -> string)
    requires Valid(w, run, jobName) && BeingDeleted(w, name) && w.api.backups[name].policy.Delete?
    requires HasFailed(w, jobName(name)) && DeleteJob(jobName(name)) !in run && RemoveBackup(name) !in run
    ensures
      var w' := After(w, run, jobName);
      name in w'.api.backups && HasFailed(w', jobName(name)) && !CleanupOutcome(w', name, jobName).Done?
    decreases |run|
  {
    if run == [] {
      EveryCallIsAccountedFor(w.api, name, w.api.backups[name], jobName(name));
    } else {
      EventFrame(w, run[0], jobName, name);
      JobFrame(w, run[0], jobName, jobName(name));
      FailedJobBlocksForGood(Next(w, run[0], jobName), run[1..], name, jobName);
    }
  }

  // ---- Nothing else does ----

  /** No configuration is changed, no Job deleted, no Backup taken away. */
  predicate HandsOff(run: seq<Event>) {
    forall e | e in run :: !e.Configure? && !e.DeleteJob? && !e.RemoveBackup?
  }

  /** The run leads from w to w', in order and without intervention. */
  predicate Leads(w: World, run: seq<Event>, w': World, jobName: string -> string) {
    Valid(w, run, jobName) && After(w, run, jobName) == w' && OrderlyRun(w, run, jobName) && HandsOff(run)
  }

  lemma LeadsNowhere(w: World, jobName: string -> string)
    ensures Leads(w, [], w, jobName)
  {
  }

  lemma LeadsOn(w: World, e: Event, run: seq<Event>, w': World, jobName: string -> string)
    requires Enabled(w, e) && Orderly(w, e, jobName) && !e.Configure? && !e.DeleteJob? && !e.RemoveBackup?
    requires Leads(Next(w, e, jobName), run, w', jobName)
    ensures Leads(w, [e] + run, w', jobName)
  {
    assert ([e] + run)[0] == e && ([e] + run)[1..] == run;
  }

  lemma {:induction false} LeadsThrough(w: World, r1: seq<Event>, w1: World, r2: seq<Event>, w2: World,
                                        jobName: string -> string)
    requires Leads(w, r1, w1, jobName) && Leads(w1, r2, w2, jobName)
    ensures Leads(w, r1 + r2, w2, jobName)
    decreases |r1|
  {
    if r1 == [] {
      assert r1 + r2 == r2;
    } else {
      assert r1[0] in r1;
      var next := Next(w, r1[0], jobName);
      assert Leads(next, r1[1..], w1, jobName);
      LeadsThrough(next, r1[1..], w1, r2, w2, jobName);
      LeadsOn(w, r1[0], r1[1..] + r2, w2, jobName);
      assert [r1[0]] + (r1[1..] + r2) == r1 + r2;
    }
  }

  predicate SameOthers(w: World, w': World) {
    w'.api.backups == w.api.backups && w'.api.jobs == w.api.jobs
  }

  /** The backup n has ended: it fails, if nothing else. */
  lemma EndsSomehow(w: World, n: string, jobName: string -> string) returns (run: seq<Event>, w': World)
    requires n in w.api.cnpg
    ensures Leads(w, run, w', jobName)
    ensures n in w'.api.cnpg && Final(w'.api.cnpg[n].status.phase) && SameOthers(w, w')
  {
    LeadsNowhere(w, jobName);
    run, w' := [], w;
    if !Final(w.api.cnpg[n].status.phase) {
      var e := Progress(n, w.api.cnpg[n].status.(phase := Failed), NOWHERE);
      PhaseStep(w, n, Failed, jobName);
      w' := InPhase(w, n, Failed);
      LeadsNowhere(w', jobName);
      LeadsOn(w, e, [], w', jobName);
      run := [e] + [];
    }
  }

  /** Barman retention expires its data. */
  lemma DataExpires(w: World, n: string, jobName: string -> string) returns (run: seq<Event>, w': World)
    requires n in w.api.cnpg && Final(w.api.cnpg[n].status.phase)
    ensures Leads(w, run, w', jobName) && SameOthers(w, w') && n in w'.api.cnpg && Drained(w', w'.api.cnpg[n])
  {
    LeadsNowhere(w, jobName);
    run, w' := [], w;
    if w.api.cnpg[n].status.backupID != "" {
      w' := w.(bucket := w.bucket - {Location(w, w.api.cnpg[n])});
      assert Next(w, Expire(n), jobName) == w';
      LeadsNowhere(w', jobName);
      LeadsOn(w, Expire(n), [], w', jobName);
      run := [Expire(n)] + [];
    }
  }

  /** Then it deletes the CNPG Backup, which goes once its finalizers are done. */
  lemma IsDeleted(w: World, n: string, jobName: string -> string) returns (run: seq<Event>, w': World)
    requires n in w.api.cnpg && Drained(w, w.api.cnpg[n])
    ensures Leads(w, run, w', jobName) && SameOthers(w, w') && n !in w'.api.cnpg
  {
    w' := WithoutCnpg(w, n);
    LeadsNowhere(w', jobName);
    run := [ForeignDelete(n)] + [];
    if w.api.cnpg[n].finalizers {
      var marked := WithCnpg(w, n, w.api.cnpg[n].(deleting := true));
      assert Next(w, ForeignDelete(n), jobName) == marked;
      assert marked.api.cnpg - {n} == w.api.cnpg - {n};
      assert Next(marked, Vanish(n), jobName) == w';
      LeadsOn(marked, Vanish(n), [], w', jobName);
      LeadsOn(w, ForeignDelete(n), [Vanish(n)] + [], w', jobName);
      run := [ForeignDelete(n)] + ([Vanish(n)] + []);
    } else {
      LeadsOn(w, ForeignDelete(n), [], w', jobName);
    }
  }

  lemma Goes(w: World, n: string, jobName: string -> string) returns (run: seq<Event>, w': World)
    ensures Leads(w, run, w', jobName) && SameOthers(w, w') && n !in w'.api.cnpg
  {
    if n in w.api.cnpg {
      var r1, w1 := EndsSomehow(w, n, jobName);
      var r2, w2 := DataExpires(w1, n, jobName);
      LeadsThrough(w, r1, w1, r2, w2, jobName);
      var r3, w3 := IsDeleted(w2, n, jobName);
      LeadsThrough(w, r1 + r2, w2, r3, w3, jobName);
      run, w' := r1 + r2 + r3, w3;
    } else {
      LeadsNowhere(w, jobName);
      run, w' := [], w;
    }
  }

  /** An unfinished Job completes. */
  lemma JobCompletes(w: World, job: string, jobName: string -> string) returns (run: seq<Event>, w': World)
    requires job in w.api.jobs && JobOk(w, job) && !Finished(w.api.jobs[job])
    ensures Leads(w, run, w', jobName)
    ensures w'.api == w.api.(jobs := w.api.jobs[job := w.api.jobs[job].(conditions := COMPLETE)])
  {
    FinishJobWorks(w, job, jobName);
    run, w' := FinishJob(w, job), After(w, FinishJob(w, job), jobName);
    OrderlyHelp(w, job, jobName);
  }

  lemma OrderlyHelp(w: World, job: string, jobName: string -> string)
    requires job in w.api.jobs && Valid(w, FinishJob(w, job), jobName)
    ensures OrderlyRun(w, FinishJob(w, job), jobName)
  {
    var run := FinishJob(w, job);
    assert run[0].JobRemovesData? || run[0].JobReports?;
    var w1 := Next(w, run[0], jobName);
    assert |run| == 2 ==> run[1..][0].JobReports? && run[1..][1..] == [];
    assert |run| == 1 ==> run[1..] == [];
  }

  /** From every state of every run: the Backup's deletion can still end, without any change
      of the configuration and without anybody deleting a Job, if and only if its policy is
      Retain or there is no failed Job under its Job name. If it can, it can in order. */
  lemma EndIsReachableExactly(w: World, name: string, jobName: string -> string)
    requires ObjectsOk(w) && BeingDeleted(w, name)
    ensures
      (exists run ::
         && Valid(w, run, jobName) && HandsOff(run)
         && name in After(w, run, jobName).api.backups
         && CleanupOutcome(After(w, run, jobName), name, jobName).Done?)
      <==> w.api.backups[name].policy.Retain? || !HasFailed(w, jobName(name))
  {
    if w.api.backups[name].policy.Retain? || !HasFailed(w, jobName(name)) {
      var run, w' := EndIsReached(w, name, jobName);
    } else if run :| Valid(w, run, jobName) && HandsOff(run)
                     && name in After(w, run, jobName).api.backups
                     && CleanupOutcome(After(w, run, jobName), name, jobName).Done? {
      FailedJobBlocksForGood(w, run, name, jobName);
    }
  }

  lemma EndIsReached(w: World, name: string, jobName: string -> string) returns (run: seq<Event>, w': World)
    requires ObjectsOk(w) && BeingDeleted(w, name)
    requires w.api.backups[name].policy.Retain? || !HasFailed(w, jobName(name))
    ensures Leads(w, run, w', jobName) && name in w'.api.backups && CleanupOutcome(w', name, jobName).Done?
  {
    var job := jobName(name);
    run, w' := Goes(w, name, jobName);
    if w.api.backups[name].policy.Delete? && job in w.api.jobs && !Finished(w.api.jobs[job]) {
      RunKeepsObjects(w, run, jobName);
      assert JobOk(w', job);
      var r2, w2 := JobCompletes(w', job, jobName);
      LeadsThrough(w, run, w', r2, w2, jobName);
      run, w' := run + r2, w2;
    }
    EveryCallIsAccountedFor(w'.api, name, w'.api.backups[name], job);
  }
}
