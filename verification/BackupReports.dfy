/** What SyncBackup reports over a run: when a later report takes back an earlier one. */
module BackupReports {
  import opened Common
  import opened Instances
  import opened Backups
  import opened BackupProtocol
  import opened BackupInvariant
  import opened BackupFrames
  import opened BackupSafety

  /** What a call for the Backup n reports. */
  function Report(w: World, n: string, i: Instance): SyncResult
    requires n in w.api.backups
  {
    SyncStep(w.api, n, w.api.backups[n], i).1
  }

  /** The storage of the Backup n is one of the Instance, whose backups are on. */
  predicate Configured(w: World, n: string, i: Instance)
    requires n in w.api.backups
  {
    && i.backup.Some? && i.backup.value.enabled
    && exists st | st in i.backup.value.storages :: st.name == w.api.backups[n].storage
  }

  /** In every state of every run, exactly what is reported, by phase: Succeeded for Completed,
      Running for Running, Failed for Failed and WalArchivingFailing; Failed also when a recorded
      CNPG Backup is gone or the storage is not configured. Without the Cluster it is Pending,
      and an error only says that the parameters do not decode where they are needed. */
  lemma ReportsExactly(w: World, n: string, i: Instance)
    requires ObjectsOk(w) && n in w.api.backups
    ensures
      var r := Report(w, n, i);
      var b := w.api.backups[n];
      var cluster, present := i.name in w.api.clusters, n in w.api.cnpg;
      var phase := if present then w.api.cnpg[n].status.phase else New;
      var mayStart := cluster && !present && b.ref.None? && Configured(w, n, i);
      && (r.Status? && r.state == StateSucceeded <==> cluster && present && b.target.Some? && phase == Completed)
      && (r.Status? && r.state == StateRunning <==> cluster && present && b.target.Some? && phase == Running)
      && (r.Status? && r.state == StateFailed <==>
            && cluster
            && if present then b.target.Some? && phase in {Failed, WalArchivingFailing}
               else b.ref.Some? || !Configured(w, n, i))
      && (r.InvalidParameters? <==>
            && b.target.None?
            && ((cluster && present)
                || (mayStart && ArchiveStore(w.api.clusters[i.name].plugins) == b.storage)))
      && !r.ControlledByAnother?
      && (r.Status? && r.ref.Some? ==> r.ref == Some(n))
      && (r.Status? && r.ref.Some? <==>
            && cluster && b.target.Some?
            && (present || (mayStart && ArchiveStore(w.api.clusters[i.name].plugins) == b.storage)))
      && (r.Status? ==> r.state in {StatePending, StateRunning, StateSucceeded, StateFailed})
  {
    assert BackupOk(w, n);
    assert HasBackupStorage(i, w.api.backups[n].storage) <==> Configured(w, n, i);
  }

  /** And over a run: what a stored success means. */
  lemma StoredSuccessIsTrue(w0: World, run: seq<Event>, n: string, jobName: string -> string)
    requires Initial(w0) && Valid(w0, run, jobName)
    ensures
      var a := After(w0, run, jobName).api;
      n in a.backups && a.backups[n].state.StateSucceeded? ==>
        a.backups[n].ref == Some(n) && (n in a.cnpg ==> a.cnpg[n].status.phase.Completed?)
  {
    InitialInv(w0);
    RunKeepsObjects(w0, run, jobName);
    var w := After(w0, run, jobName);
    if n in w.api.backups { assert BackupOk(w, n); }
  }

  function Stage(s: BackupState): nat {
    match s
    case StateUnset => 0
    case StatePending => 0
    case StateRunning => 1
    case _ => 2
  }

  /** s' takes back s: it ranks below, or s was an end and s' is another. */
  predicate Regresses(s: BackupState, s': BackupState) {
    Stage(s') < Stage(s) || (Stage(s) == 2 && s' != s)
  }

  lemma PhasesRegress(p: Phase, q: Phase)
    requires Final(p) ==> q == p
    ensures Regresses(ReportedState(p), ReportedState(q)) <==>
            || (p.Running? && ReportedState(q).StatePending?)
            || (p.WalArchivingFailing? && !ReportedState(q).StateFailed?)
  {
  }

  /** The CNPG Backup u, called n, has ended with the status s. */
  predicate Ended(w: World, n: string, u: Uid, s: CnpgStatus) {
    u in w.born && Final(s.phase) && (CnpgIs(w, n, u) ==> w.api.cnpg[n].status == s)
  }

  lemma NextKeepsEnded(w: World, e: Event, n: string, u: Uid, s: CnpgStatus, jobName: string -> string)
    requires UidsOk(w) && Enabled(w, e) && Ended(w, n, u, s)
    ensures Ended(Next(w, e, jobName), n, u, s)
  {
    if e == RemoveBackup(n) { RemovalOfBackupFrame(w, n, jobName); } else { EventFrame(w, e, jobName, n); }
  }

  lemma {:induction false} RunKeepsEnded(w: World, run: seq<Event>, n: string, u: Uid, s: CnpgStatus,
                                         jobName: string -> string)
    requires ObjectsOk(w) && Valid(w, run, jobName) && Ended(w, n, u, s)
    ensures Ended(After(w, run, jobName), n, u, s)
    decreases |run|
  {
    if run != [] {
      NextKeepsObjects(w, run[0], jobName);
      NextKeepsEnded(w, run[0], n, u, s, jobName);
      RunKeepsEnded(Next(w, run[0], jobName), run[1..], n, u, s, jobName);
    }
  }

  /** What a status reported about a present CNPG Backup says. */
  lemma ReportOfPresent(w: World, n: string, i: Instance)
    requires n in w.api.backups && n in w.api.cnpg && Report(w, n, i).Status?
    ensures Report(w, n, i).state
            == if i.name in w.api.clusters then ReportedState(w.api.cnpg[n].status.phase) else StatePending
  {
  }

  /** Reported states are not monotone. Of two calls in one run that find the same CNPG Backup
      and report a status, the later takes back the earlier exactly when the Cluster is missing
      by then, or the backup was running and is in a phase reported as pending, or failed to
      archive and is in a phase not reported as failed. */
  lemma ReportsRegressExactly(w: World, run: seq<Event>, n: string, u: Uid, i: Instance, i': Instance,
                              jobName: string -> string)
    requires ObjectsOk(w) && Valid(w, run, jobName)
    requires n in w.api.backups && CnpgIs(w, n, u) && Report(w, n, i).Status?
    requires var w' := After(w, run, jobName);
             n in w'.api.backups && CnpgIs(w', n, u) && Report(w', n, i').Status?
    ensures
      var w' := After(w, run, jobName);
      var p, q := w.api.cnpg[n].status.phase, w'.api.cnpg[n].status.phase;
      Regresses(Report(w, n, i).state, Report(w', n, i').state) <==>
        && i.name in w.api.clusters
        && if i'.name !in w'.api.clusters then !ReportedState(p).StatePending?
           else || (p.Running? && ReportedState(q).StatePending?)
                || (p.WalArchivingFailing? && !ReportedState(q).StateFailed?)
  {
    var w' := After(w, run, jobName);
    var p, q := w.api.cnpg[n].status.phase, w'.api.cnpg[n].status.phase;
    assert CnpgOk(w, n);
    if Final(p) { RunKeepsEnded(w, run, n, u, w.api.cnpg[n].status, jobName); }
    ReportOfPresent(w, n, i);
    ReportOfPresent(w', n, i');
    PhasesRegress(p, q);
  }

  /** The Backup u, called n, recorded the CNPG Backup v, or one that is gone. */
  predicate OnlyHas(w: World, n: string, u: Uid, v: Uid) {
    && u in w.history
    && (Holds(w, n, u) ==>
          w.api.backups[n].ref.Some? && (n in w.api.cnpg ==> w.api.cnpg[n].uid == v))
  }

  lemma NextKeepsOnlyHas(w: World, e: Event, n: string, u: Uid, v: Uid, jobName: string -> string)
    requires UidsOk(w) && Enabled(w, e) && OnlyHas(w, n, u, v)
    ensures OnlyHas(Next(w, e, jobName), n, u, v)
  {
    if e == RemoveBackup(n) { RemovalOfBackupFrame(w, n, jobName); } else { EventFrame(w, e, jobName, n); }
  }

  lemma {:induction false} RunKeepsOnlyHas(w: World, run: seq<Event>, n: string, u: Uid, v: Uid,
                                           jobName: string -> string)
    requires ObjectsOk(w) && Valid(w, run, jobName) && OnlyHas(w, n, u, v)
    ensures OnlyHas(After(w, run, jobName), n, u, v)
    decreases |run|
  {
    if run != [] {
      NextKeepsObjects(w, run[0], jobName);
      NextKeepsOnlyHas(w, run[0], n, u, v, jobName);
      RunKeepsOnlyHas(Next(w, run[0], jobName), run[1..], n, u, v, jobName);
    }
  }

  lemma {:induction false} RunKeepsLost(w: World, run: seq<Event>, n: string, u: Uid, jobName: string -> string)
    requires ObjectsOk(w) && Valid(w, run, jobName) && Lost(w, n, u)
    ensures Lost(After(w, run, jobName), n, u)
    decreases |run|
  {
    if run != [] {
      NextKeepsObjects(w, run[0], jobName);
      NextKeepsLost(w, run[0], n, u, jobName);
      RunKeepsLost(Next(w, run[0], jobName), run[1..], n, u, jobName);
    }
  }

  /** Once recorded, a CNPG Backup of the same name found later is the same one. */
  lemma RecordedStaysTheSame(w: World, run: seq<Event>, n: string, jobName: string -> string)
    requires ObjectsOk(w) && Valid(w, run, jobName) && n in w.api.backups && w.api.backups[n].ref.Some?
    requires Holds(After(w, run, jobName), n, w.api.backups[n].uid)
    ensures
      var w' := After(w, run, jobName);
      n in w'.api.cnpg ==> n in w.api.cnpg && w'.api.cnpg[n].uid == w.api.cnpg[n].uid
  {
    var u := w.api.backups[n].uid;
    assert BackupOk(w, n);
    if n in w.api.cnpg {
      RunKeepsOnlyHas(w, run, n, u, w.api.cnpg[n].uid, jobName);
    } else {
      RunKeepsLost(w, run, n, u, jobName);
    }
  }

  /** What a status reported without a CNPG Backup says. */
  lemma ReportOfAbsent(w: World, n: string, i: Instance)
    requires n in w.api.backups && n !in w.api.cnpg && Report(w, n, i).Status?
    ensures
      var b := w.api.backups[n];
      Report(w, n, i).state
      == if i.name !in w.api.clusters then StatePending
         else if b.ref.Some? || !HasBackupStorage(i, b.storage) then StateFailed
         else StatePending
  {
  }

  /** A report s about the Backup n is taken back by a call that finds w': its Cluster is
      missing; or the same CNPG Backup is running no more or archives again; or another one is
      there and ranks below; or there is none, which fails a success, and which restarts any
      backup that was never recorded and has its storage. */
  predicate TakenBack(w: World, n: string, s: BackupState, w': World, i': Instance)
    requires n in w'.api.backups
  {
    var b' := w'.api.backups[n];
    !s.StatePending? &&
    if i'.name !in w'.api.clusters then true
    else if n in w'.api.cnpg then
      var q := w'.api.cnpg[n].status.phase;
      if CnpgIs(w, n, w'.api.cnpg[n].uid) then
        var p := w.api.cnpg[n].status.phase;
        || (p.Running? && ReportedState(q).StatePending?)
        || (p.WalArchivingFailing? && !ReportedState(q).StateFailed?)
      else Regresses(s, ReportedState(q))
    else s.StateSucceeded? || (b'.ref.None? && HasBackupStorage(i', b'.storage))
  }

  lemma TakenBackByAbsence(w: World, n: string, s: BackupState, w': World, i': Instance)
    requires n in w'.api.backups && n !in w'.api.cnpg && Report(w', n, i').Status? && !s.StateUnset?
    ensures Regresses(s, Report(w', n, i').state) <==> TakenBack(w, n, s, w', i')
  {
    ReportOfAbsent(w', n, i');
  }

  lemma TakenBackByPresence(w: World, n: string, s: BackupState, w': World, i': Instance)
    requires n in w'.api.backups && n in w'.api.cnpg && Report(w', n, i').Status? && !s.StateUnset?
    requires CnpgIs(w, n, w'.api.cnpg[n].uid) ==>
               var p, q := w.api.cnpg[n].status.phase, w'.api.cnpg[n].status.phase;
               s in {StatePending, ReportedState(p)} && (Final(p) ==> q == p)
    ensures Regresses(s, Report(w', n, i').state) <==> TakenBack(w, n, s, w', i')
  {
    ReportOfPresent(w', n, i');
    if CnpgIs(w, n, w'.api.cnpg[n].uid) {
      PhasesRegress(w.api.cnpg[n].status.phase, w'.api.cnpg[n].status.phase);
    }
  }

  lemma ReportIsSet(w: World, n: string, i: Instance)
    requires n in w.api.backups && Report(w, n, i).Status?
    ensures !Report(w, n, i).state.StateUnset?
    ensures n in w.api.cnpg ==> Report(w, n, i).state in {StatePending, ReportedState(w.api.cnpg[n].status.phase)}
  {
    if n in w.api.cnpg { ReportOfPresent(w, n, i); } else { ReportOfAbsent(w, n, i); }
  }

  /** Any two calls for one Backup in one run, whatever CNPG Backup they find, if any: the later
      report takes back the earlier exactly in those cases, and the case of another CNPG Backup
      is only there as long as none was recorded. */
  lemma BackupReportsRegressExactly(w: World, run: seq<Event>, n: string, i: Instance, i': Instance,
                                    jobName: string -> string)
    requires ObjectsOk(w) && Valid(w, run, jobName)
    requires n in w.api.backups && Report(w, n, i).Status?
    requires var w' := After(w, run, jobName);
             Holds(w', n, w.api.backups[n].uid) && Report(w', n, i').Status?
    ensures
      var w' := After(w, run, jobName);
      var s := Report(w, n, i).state;
      && (Regresses(s, Report(w', n, i').state) <==> TakenBack(w, n, s, w', i'))
      && (w.api.backups[n].ref.Some? && n in w'.api.cnpg ==> CnpgIs(w, n, w'.api.cnpg[n].uid))
  {
    var w' := After(w, run, jobName);
    ReportIsSet(w, n, i);
    if w.api.backups[n].ref.Some? { RecordedStaysTheSame(w, run, n, jobName); }
    if n !in w'.api.cnpg {
      TakenBackByAbsence(w, n, Report(w, n, i).state, w', i');
    } else {
      if CnpgIs(w, n, w'.api.cnpg[n].uid) && Final(w.api.cnpg[n].status.phase) {
        assert CnpgOk(w, n);
        RunKeepsEnded(w, run, n, w'.api.cnpg[n].uid, w.api.cnpg[n].status, jobName);
      }
      TakenBackByPresence(w, n, Report(w, n, i).state, w', i');
    }
  }

  /** Each of the three takes a single step. A running backup becomes finalizing. */
  lemma RunningRegresses(w: World, n: string, i: Instance, jobName: string -> string)
    requires n in w.api.backups && n in w.api.cnpg && i.name in w.api.clusters
    requires w.api.cnpg[n].status.phase.Running? && Report(w, n, i).Status?
    ensures
      var e := Progress(n, w.api.cnpg[n].status.(phase := Finalizing), NOWHERE);
      && Report(w, n, i).state == StateRunning
      && Enabled(w, e) && Report(Next(w, e, jobName), n, i) == Status(StatePending, Some(n))
  {
    PhaseReport(w, n, i, w.api.cnpg[n].status.(phase := Finalizing), jobName);
  }

  /** One that failed to archive runs. */
  lemma ArchivingRegresses(w: World, n: string, i: Instance, jobName: string -> string)
    requires n in w.api.backups && n in w.api.cnpg && i.name in w.api.clusters
    requires w.api.cnpg[n].status.phase.WalArchivingFailing? && Report(w, n, i).Status?
    ensures
      var e := Progress(n, w.api.cnpg[n].status.(phase := Running), NOWHERE);
      && Report(w, n, i).state == StateFailed
      && Enabled(w, e) && Report(Next(w, e, jobName), n, i) == Status(StateRunning, Some(n))
  {
    PhaseReport(w, n, i, w.api.cnpg[n].status.(phase := Running), jobName);
  }

  /** The Cluster goes, which turns even Succeeded into Pending. */
  lemma MissingClusterRegresses(w: World, n: string, i: Instance, jobName: string -> string)
    requires n in w.api.backups
    ensures
      var e := Configure(w.api.stores, w.api.storages, w.api.clusters - {i.name}, w.api.instances);
      Enabled(w, e) && n in Next(w, e, jobName).api.backups
        && Report(Next(w, e, jobName), n, i) == Status(StatePending, None)
  {
  }

  lemma PhaseReport(w: World, n: string, i: Instance, s: CnpgStatus, jobName: string -> string)
    requires n in w.api.backups && n in w.api.cnpg && Report(w, n, i).Status? && i.name in w.api.clusters
    requires PhaseChange(w, n, s) && Enabled(w, Progress(n, s, NOWHERE))
    ensures
      var w' := Next(w, Progress(n, s, NOWHERE), jobName);
      n in w'.api.backups && Report(w', n, i) == Status(ReportedState(s.phase), Some(n))
  {
    assert Next(w, Progress(n, s, NOWHERE), jobName) == WithCnpg(w, n, w.api.cnpg[n].(status := s));
  }

  // ---- Success ----

  /** The Backup u, called n, recorded a CNPG Backup that is completed or gone. */
  predicate Succeeded(w: World, n: string, u: Uid) {
    && u in w.history
    && (Holds(w, n, u) ==>
          && w.api.backups[n].ref.Some?
          && (n in w.api.cnpg ==> w.api.cnpg[n].status.phase.Completed?))
  }

  lemma NextKeepsSucceeded(w: World, e: Event, n: string, u: Uid, jobName: string -> string)
    requires UidsOk(w) && Enabled(w, e) && Succeeded(w, n, u)
    ensures Succeeded(Next(w, e, jobName), n, u)
  {
    if e == RemoveBackup(n) { RemovalOfBackupFrame(w, n, jobName); } else { EventFrame(w, e, jobName, n); }
  }

  lemma {:induction false} RunKeepsSucceeded(w: World, run: seq<Event>, n: string, u: Uid, jobName: string -> string)
    requires ObjectsOk(w) && Valid(w, run, jobName) && Succeeded(w, n, u)
    ensures ObjectsOk(After(w, run, jobName)) && Succeeded(After(w, run, jobName), n, u)
    decreases |run|
  {
    if run != [] {
      NextKeepsObjects(w, run[0], jobName);
      NextKeepsSucceeded(w, run[0], n, u, jobName);
      RunKeepsSucceeded(Next(w, run[0], jobName), run[1..], n, u, jobName);
    }
  }

  /** Once Succeeded was reported and stored, a later call for the same Backup reports it
      again if and only if the Cluster and the CNPG Backup still exist and the parameters, as
      edited by then, decode. */
  lemma SuccessIsReportedWhileItLasts(w: World, run: seq<Event>, n: string, i: Instance, i': Instance,
                                      jobName: string -> string)
    requires ObjectsOk(w) && Valid(w, run, jobName)
    requires n in w.api.backups && Report(w, n, i) == Status(StateSucceeded, Some(n)) && w.api.backups[n].ref.Some?
    requires Holds(After(w, run, jobName), n, w.api.backups[n].uid)
    ensures
      var w' := After(w, run, jobName);
      Report(w', n, i') == Status(StateSucceeded, Some(n)) <==>
        i'.name in w'.api.clusters && n in w'.api.cnpg && w'.api.backups[n].target.Some?
  {
    assert BackupOk(w, n);
    RunKeepsSucceeded(w, run, n, w.api.backups[n].uid, jobName);
    assert BackupOk(After(w, run, jobName), n);
  }
}
