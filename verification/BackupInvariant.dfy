/** Every event of BackupProtocol keeps ObjectsOk, and every orderly event keeps Inv. */
module BackupInvariant {
  import opened Common
  import opened Instances
  import opened Backups
  import opened BackupProtocol

  // ---- Changing one CNPG Backup ----

  function WithCnpg(w: World, n: string, c: CnpgBackup): World {
    w.(api := w.api.(cnpg := w.api.cnpg[n := c]))
  }

  /** c is the CNPG Backup n with another controller, other finalizers or another mark. */
  predicate Touched(w: World, n: string, c: CnpgBackup) {
    && n in w.api.cnpg
    && c == w.api.cnpg[n].(controller := c.controller, finalizers := c.finalizers, deleting := c.deleting)
    && (c.controller == w.api.cnpg[n].controller
        || (n in w.api.backups && c.controller == Some(w.api.backups[n].uid)))
  }

  lemma TouchKeepsBackup(w: World, n: string, c: CnpgBackup, m: string)
    requires Touched(w, n, c) && m in w.api.backups && BackupOk(w, m)
    ensures BackupOk(WithCnpg(w, n, c), m)
  {
  }

  lemma TouchKeepsCnpg(w: World, n: string, c: CnpgBackup, m: string)
    requires Touched(w, n, c) && m in w.api.cnpg && CnpgOk(w, m)
    ensures CnpgOk(WithCnpg(w, n, c), m)
  {
  }

  lemma TouchKeepsObjects(w: World, n: string, c: CnpgBackup)
    requires ObjectsOk(w) && Touched(w, n, c)
    ensures ObjectsOk(WithCnpg(w, n, c))
  {
    var w' := WithCnpg(w, n, c);
    forall m | m in w'.api.backups ensures BackupOk(w', m) { TouchKeepsBackup(w, n, c, m); }
    forall m | m in w'.api.cnpg ensures CnpgOk(w', m) { TouchKeepsCnpg(w, n, c, m); }
    forall j | j in w'.api.jobs ensures JobOk(w', j) { assert JobOk(w, j); }
  }

  lemma TouchKeepsMark(w: World, n: string, c: CnpgBackup, m: string)
    requires Touched(w, n, c) && m in w.api.cnpg && MarkOk(w, m)
    requires c.deleting && !w.api.cnpg[n].deleting && Guarded(w, n) ==> Drained(w, c)
    ensures MarkOk(WithCnpg(w, n, c), m)
  {
  }

  lemma TouchKeepsData(w: World, n: string, c: CnpgBackup, t: Target)
    requires Touched(w, n, c) && (t in w.made ==> MadeOk(w, t)) && (t in w.bucket ==> Addressable(w, t))
    ensures var w' := WithCnpg(w, n, c); (t in w'.made ==> MadeOk(w', t)) && (t in w'.bucket ==> Addressable(w', t))
  {
  }

  lemma TouchKeeps(w: World, n: string, c: CnpgBackup)
    requires Inv(w) && Touched(w, n, c)
    requires c.deleting && !w.api.cnpg[n].deleting && Guarded(w, n) ==> Drained(w, c)
    ensures Inv(WithCnpg(w, n, c))
  {
    TouchKeepsObjects(w, n, c);
    var w' := WithCnpg(w, n, c);
    forall t | t in w'.made ensures MadeOk(w', t) { TouchKeepsData(w, n, c, t); }
    forall m | m in w'.api.cnpg ensures MarkOk(w', m) { TouchKeepsMark(w, n, c, m); }
    forall t | t in w'.bucket ensures Addressable(w', t) { TouchKeepsData(w, n, c, t); }
    forall j | j in w'.api.jobs ensures EffectOk(w', j) { assert EffectOk(w, j); }
  }

  function WithoutCnpg(w: World, n: string): World {
    w.(api := w.api.(cnpg := w.api.cnpg - {n}))
  }

  lemma RemoveCnpgKeepsObjects(w: World, n: string)
    requires ObjectsOk(w) && n in w.api.cnpg
    ensures ObjectsOk(WithoutCnpg(w, n))
  {
    var w' := WithoutCnpg(w, n);
    forall m | m in w'.api.backups ensures BackupOk(w', m) { assert BackupOk(w, m); }
    forall m | m in w'.api.cnpg ensures CnpgOk(w', m) { assert CnpgOk(w, m); }
    forall j | j in w'.api.jobs ensures JobOk(w', j) { assert JobOk(w, j); }
  }

  lemma RemoveCnpgKeepsAddressable(w: World, n: string, t: Target)
    requires n in w.api.cnpg && Addressable(w, t) && (t in w.made ==> MadeOk(w, t))
    requires Guarded(w, n) && n in w.api.backups ==> Drained(w, w.api.cnpg[n])
    requires t in w.bucket && CnpgOk(w, n)
    ensures Addressable(WithoutCnpg(w, n), t)
  {
  }

  lemma RemoveCnpgKeepsEffect(w: World, n: string, j: string)
    requires j in w.api.jobs && EffectOk(w, j)
    ensures EffectOk(WithoutCnpg(w, n), j)
  {
  }

  lemma RemoveCnpgKeeps(w: World, n: string)
    requires Inv(w) && n in w.api.cnpg
    requires Guarded(w, n) && n in w.api.backups ==> Drained(w, w.api.cnpg[n])
    ensures Inv(WithoutCnpg(w, n))
  {
    RemoveCnpgKeepsObjects(w, n);
    var w' := WithoutCnpg(w, n);
    assert CnpgOk(w, n);
    forall t | t in w'.made ensures MadeOk(w', t) { assert MadeOk(w, t); }
    forall m | m in w'.api.cnpg ensures MarkOk(w', m) { assert MarkOk(w, m); }
    forall t | t in w'.bucket ensures Addressable(w', t) { RemoveCnpgKeepsAddressable(w, n, t); }
    forall j | j in w'.api.jobs ensures EffectOk(w', j) { RemoveCnpgKeepsEffect(w, n, j); }
  }

  lemma DeleteCnpgKeepsObjects(w: World, n: string)
    requires ObjectsOk(w) && n in w.api.cnpg
    ensures ObjectsOk(w.(api := DeleteCnpg(w.api, n)))
  {
    var c := w.api.cnpg[n];
    if c.finalizers {
      TouchKeepsObjects(w, n, c.(deleting := true));
      assert w.(api := DeleteCnpg(w.api, n)) == WithCnpg(w, n, c.(deleting := true));
    } else {
      RemoveCnpgKeepsObjects(w, n);
    }
  }

  lemma DeleteCnpgKeeps(w: World, n: string)
    requires Inv(w) && n in w.api.cnpg
    requires Releasable(w, n)
    ensures Inv(w.(api := DeleteCnpg(w.api, n)))
  {
    var c := w.api.cnpg[n];
    if c.finalizers {
      TouchKeeps(w, n, c.(deleting := true));
      assert w.(api := DeleteCnpg(w.api, n)) == WithCnpg(w, n, c.(deleting := true));
    } else {
      RemoveCnpgKeeps(w, n);
    }
  }

  /** The Backup n gets a new CNPG Backup. */
  function NewCnpg(w: World, n: string, cluster: string, recorded: bool): World
    requires n in w.api.backups && n !in w.api.cnpg && w.api.backups[n].target.Some?
             && w.api.backups[n].uid in w.history
  {
    var b := w.api.backups[n];
    var c := CnpgBackup(w.api.nextUid, cluster, b.storage, b.target.value, EMPTY_STATUS, Some(b.uid), false, false);
    var h := w.history[b.uid];
    var b' := if recorded then b.(ref := Some(n), state := StatePending) else b;
    w.(api := w.api.(cnpg := w.api.cnpg[n := c], backups := w.api.backups[n := b'], nextUid := w.api.nextUid + 1),
       history := w.history[b.uid := h.(created := h.created + 1,
                                        unrecorded := h.unrecorded + if recorded then 0 else 1)],
       born := w.born[c.uid := n], parent := w.parent[c.uid := b.uid])
  }

  predicate Creatable(w: World, n: string) {
    && n in w.api.backups && n !in w.api.cnpg && w.api.backups[n].target.Some?
    && w.api.backups[n].uid in w.history
    && w.api.backups[n].ref.None? && !w.api.backups[n].deleting
  }

  lemma NewCnpgKeepsBackup(w: World, n: string, cluster: string, recorded: bool, m: string)
    requires UidsOk(w) && Creatable(w, n) && m in w.api.backups && BackupOk(w, m) && BackupOk(w, n)
    ensures BackupOk(NewCnpg(w, n, cluster, recorded), m)
  {
  }

  lemma NewCnpgKeepsCnpg(w: World, n: string, cluster: string, recorded: bool, m: string)
    requires UidsOk(w) && Creatable(w, n) && BackupOk(w, n) && (m in w.api.cnpg ==> CnpgOk(w, m))
    ensures m in NewCnpg(w, n, cluster, recorded).api.cnpg ==> CnpgOk(NewCnpg(w, n, cluster, recorded), m)
  {
  }

  lemma NewCnpgKeepsJobs(w: World, n: string, cluster: string, recorded: bool)
    requires UidsOk(w) && Creatable(w, n) && BackupOk(w, n) && JobsOk(w)
    ensures JobsOk(NewCnpg(w, n, cluster, recorded))
  {
    forall j | j in w.api.jobs ensures JobOk(NewCnpg(w, n, cluster, recorded), j) { assert JobOk(w, j); }
  }

  lemma NewCnpgKeepsObjects(w: World, n: string, cluster: string, recorded: bool)
    requires ObjectsOk(w) && Creatable(w, n)
    ensures ObjectsOk(NewCnpg(w, n, cluster, recorded))
  {
    var w' := NewCnpg(w, n, cluster, recorded);
    assert BackupOk(w, n);
    NewCnpgKeepsJobs(w, n, cluster, recorded);
    forall m | m in w'.api.backups ensures BackupOk(w', m) { NewCnpgKeepsBackup(w, n, cluster, recorded, m); }
    forall m | m in w'.api.cnpg ensures CnpgOk(w', m) { NewCnpgKeepsCnpg(w, n, cluster, recorded, m); }
  }

  lemma NewCnpgKeepsEffect(w: World, n: string, cluster: string, recorded: bool, j: string)
    requires UidsOk(w) && Creatable(w, n) && BackupOk(w, n) && j in w.api.jobs && JobOk(w, j) && EffectOk(w, j)
    ensures EffectOk(NewCnpg(w, n, cluster, recorded), j)
  {
  }

  lemma NewCnpgKeepsData(w: World, n: string, cluster: string, recorded: bool, t: Target)
    requires UidsOk(w) && Creatable(w, n) && BackupOk(w, n)
    requires (t in w.made ==> MadeOk(w, t)) && (t in w.bucket ==> Addressable(w, t))
    ensures
      var w' := NewCnpg(w, n, cluster, recorded);
      (t in w'.made ==> MadeOk(w', t)) && (t in w'.bucket ==> Addressable(w', t))
  {
  }

  lemma NewCnpgKeeps(w: World, n: string, cluster: string, recorded: bool)
    requires Inv(w) && Creatable(w, n)
    ensures Inv(NewCnpg(w, n, cluster, recorded))
  {
    NewCnpgKeepsObjects(w, n, cluster, recorded);
    var w' := NewCnpg(w, n, cluster, recorded);
    assert BackupOk(w, n);
    forall t | t in w'.made ensures MadeOk(w', t) { NewCnpgKeepsData(w, n, cluster, recorded, t); }
    forall t | t in w'.bucket ensures Addressable(w', t) { NewCnpgKeepsData(w, n, cluster, recorded, t); }
    forall m | m in w'.api.cnpg ensures MarkOk(w', m) { if m != n { assert MarkOk(w, m); } }
    forall j | j in w'.api.jobs ensures EffectOk(w', j) { NewCnpgKeepsEffect(w, n, cluster, recorded, j); }
  }

  // ---- Changing one Backup ----

  function WithBackup(w: World, n: string, b: Backup): World {
    w.(api := w.api.(backups := w.api.backups[n := b]))
  }

  /** b is the Backup n after an edit, a deletion request or a stored status. */
  predicate Edited(w: World, n: string, b: Backup) {
    && n in w.api.backups
    && var old' := w.api.backups[n];
    && b == old'.(policy := b.policy, target := b.target, deleting := b.deleting, ref := b.ref, state := b.state)
    && (old'.deleting ==> b.deleting && b.policy == old'.policy)
    && (b.ref == old'.ref || b.ref == Some(n))
    && (b.state == old'.state
        || (b.state.StateSucceeded? ==>
              b.ref.Some? && n in w.api.cnpg && w.api.cnpg[n].status.phase.Completed?))
  }

  lemma EditKeepsObjects(w: World, n: string, b: Backup)
    requires ObjectsOk(w) && Edited(w, n, b)
    ensures ObjectsOk(WithBackup(w, n, b))
  {
    var w' := WithBackup(w, n, b);
    forall m | m in w'.api.backups ensures BackupOk(w', m) { assert BackupOk(w, m); }
    forall m | m in w'.api.cnpg ensures CnpgOk(w', m) { assert CnpgOk(w, m); }
    forall j | j in w'.api.jobs ensures JobOk(w', j) { assert JobOk(w, j); }
  }

  lemma EditKeeps(w: World, n: string, b: Backup)
    requires Inv(w) && Edited(w, n, b)
    ensures Inv(WithBackup(w, n, b))
  {
    EditKeepsObjects(w, n, b);
    var w' := WithBackup(w, n, b);
    forall t | t in w'.made ensures MadeOk(w', t) { assert MadeOk(w, t); }
    forall m | m in w'.api.cnpg ensures MarkOk(w', m) { assert MarkOk(w, m); }
    forall t | t in w'.bucket ensures Addressable(w', t) { assert Addressable(w, t); }
    forall j | j in w'.api.jobs ensures EffectOk(w', j) { assert EffectOk(w, j); }
  }

  function Cleaned(w: World, n: string): World
    requires n in w.api.backups && w.api.backups[n].uid in w.history
  {
    var u := w.api.backups[n].uid;
    w.(history := w.history[u := w.history[u].(cleaned := true)])
  }

  lemma CleanedKeepsObjects(w: World, n: string)
    requires ObjectsOk(w) && n in w.api.backups && n !in w.api.cnpg && w.api.backups[n].deleting
    requires w.api.backups[n].uid in w.history
    ensures ObjectsOk(Cleaned(w, n))
  {
    var w' := Cleaned(w, n);
    assert BackupOk(w, n);
    forall m | m in w'.api.backups ensures BackupOk(w', m) { assert BackupOk(w, m); }
    forall m | m in w'.api.cnpg ensures CnpgOk(w', m) { assert CnpgOk(w, m); }
    forall j | j in w'.api.jobs ensures JobOk(w', j) { assert JobOk(w, j); }
  }

  lemma CleanedKeeps(w: World, n: string)
    requires Inv(w) && n in w.api.backups && n !in w.api.cnpg && w.api.backups[n].deleting
    requires w.api.backups[n].uid in w.history
    ensures Inv(Cleaned(w, n))
  {
    CleanedKeepsObjects(w, n);
    SameDataKeeps(w, Cleaned(w, n));
  }

  /** The invariant of the data looks at neither the history nor the configuration. */
  lemma SameDataKeeps(w: World, w': World)
    requires AllMadeOk(w) && MarksOk(w) && AllAddressable(w) && EffectsOk(w)
    requires w'.api.backups == w.api.backups && w'.api.cnpg == w.api.cnpg && w'.api.jobs == w.api.jobs
    requires w'.made == w.made && w'.born == w.born && w'.parent == w.parent && w'.written == w.written
    requires w'.bucket <= w.bucket
    ensures AllMadeOk(w') && MarksOk(w') && AllAddressable(w') && EffectsOk(w')
  {
    forall t | t in w'.made ensures MadeOk(w', t) { assert MadeOk(w, t); }
    forall m | m in w'.api.cnpg ensures MarkOk(w', m) { assert MarkOk(w, m); }
    forall t | t in w'.bucket ensures Addressable(w', t) { assert Addressable(w, t); }
    forall j | j in w'.api.jobs ensures EffectOk(w', j) { assert EffectOk(w, j); }
  }

  lemma SameObjectsKeeps(w: World, w': World)
    requires ObjectsOk(w)
    requires w'.api.backups == w.api.backups && w'.api.cnpg == w.api.cnpg && w'.api.jobs == w.api.jobs
    requires w'.api.nextUid == w.api.nextUid && w'.history == w.history
    requires w'.made == w.made && w'.born == w.born && w'.parent == w.parent && w'.written == w.written
    ensures ObjectsOk(w')
  {
    forall m | m in w'.api.backups ensures BackupOk(w', m) { assert BackupOk(w, m); }
    forall m | m in w'.api.cnpg ensures CnpgOk(w', m) { assert CnpgOk(w, m); }
    forall j | j in w'.api.jobs ensures JobOk(w', j) { assert JobOk(w, j); }
  }

  // ---- Jobs ----

  function WithJobs(w: World, jobs: map<string, Job>): World {
    w.(api := w.api.(jobs := jobs))
  }

  /** A Job may appear, change or go as long as the new one is in order. */
  lemma JobsKeepObjects(w: World, jobs: map<string, Job>)
    requires ObjectsOk(w)
    requires forall j | j in jobs && jobs[j].owner.Some? ::
               (j in w.api.jobs && jobs[j] == w.api.jobs[j]) || OwnerOk(w, jobs[j], jobs[j].owner.value)
    ensures ObjectsOk(WithJobs(w, jobs))
  {
    var w' := WithJobs(w, jobs);
    forall m | m in w'.api.backups ensures BackupOk(w', m) { assert BackupOk(w, m); }
    forall m | m in w'.api.cnpg ensures CnpgOk(w', m) { assert CnpgOk(w, m); }
    forall j | j in w'.api.jobs ensures JobOk(w', j) { if j in w.api.jobs { assert JobOk(w, j); } }
  }

  lemma JobsKeep(w: World, jobs: map<string, Job>)
    requires Inv(w) && ObjectsOk(WithJobs(w, jobs)) && EffectsOk(WithJobs(w, jobs))
    ensures Inv(WithJobs(w, jobs))
  {
    var w' := WithJobs(w, jobs);
    forall t | t in w'.made ensures MadeOk(w', t) { assert MadeOk(w, t); }
    forall m | m in w'.api.cnpg ensures MarkOk(w', m) { assert MarkOk(w, m); }
    forall t | t in w'.bucket ensures Addressable(w', t) { assert Addressable(w, t); }
  }

  lemma ReportKeepsObjects(w: World, e: Event, jobName: string -> string)
    requires ObjectsOk(w) && Enabled(w, e) && (e.JobReports? || e.DeleteJob? || e.ForeignJob?)
    ensures ObjectsOk(Next(w, e, jobName))
  {
    if e.JobReports? { assert JobOk(w, e.job); }
    assert Next(w, e, jobName) == WithJobs(w, Next(w, e, jobName).api.jobs);
    JobsKeepObjects(w, Next(w, e, jobName).api.jobs);
  }

  function Reported(w: World, j: string, conditions: seq<JobCondition>): World
    requires j in w.api.jobs
  {
    WithJobs(w, w.api.jobs[j := w.api.jobs[j].(conditions := conditions)])
  }

  lemma ReportKeepsEffect(w: World, j: string, conditions: seq<JobCondition>, k: string)
    requires Enabled(w, JobReports(j, conditions)) && k in w.api.jobs && EffectOk(w, k)
    ensures EffectOk(Reported(w, j, conditions), k)
  {
  }

  lemma ReportKeeps(w: World, e: Event, jobName: string -> string)
    requires Inv(w) && Enabled(w, e) && (e.JobReports? || e.DeleteJob? || e.ForeignJob?)
    ensures Inv(Next(w, e, jobName))
  {
    ReportKeepsObjects(w, e, jobName);
    var w' := Next(w, e, jobName);
    assert w' == WithJobs(w, w'.api.jobs);
    forall j | j in w'.api.jobs ensures EffectOk(w', j) {
      if j in w.api.jobs {
        assert EffectOk(w, j);
        if e.JobReports? { ReportKeepsEffect(w, e.job, e.conditions, j); }
      }
    }
    JobsKeep(w, w'.api.jobs);
  }

  // ---- The provider's calls ----

  /** A call of SyncBackup creates the CNPG Backup, or at most takes control of the existing
      one. */
  lemma SyncStepCases(a: Api, n: string, b: Backup, i: Instance)
    ensures
      var step := SyncStep(a, n, b, i);
      if n !in a.cnpg && n in step.0.cnpg then
        && b.target.Some? && b.ref.None? && step.1 == Status(StatePending, Some(n))
        && var c := CnpgBackup(a.nextUid, i.name, b.storage, b.target.value, EMPTY_STATUS, Some(b.uid), false, false);
        step.0 == a.(cnpg := a.cnpg[n := c], nextUid := a.nextUid + 1)
      else
        && (step.0 == a || (n in a.cnpg && step.0 == a.(cnpg := a.cnpg[n := a.cnpg[n].(controller := Some(b.uid))])))
        && (step.1.Status? && step.1.ref.Some? ==> step.1.ref == Some(n))
  {
  }

  /** The Backup after the runtime stored, or failed to store, what the call reported. */
  function Stored(b: Backup, r: SyncResult, recorded: bool): Backup {
    if recorded && r.Status? then b.(ref := if r.ref.Some? then r.ref else b.ref, state := r.state) else b
  }

  lemma SyncWithoutCreating(w: World, n: string, recorded: bool)
    requires Enabled(w, Sync(n, recorded))
    requires !(n !in w.api.cnpg
        && n in SyncStep(w.api, n, w.api.backups[n], w.api.instances[w.api.backups[n].instance]).0.cnpg)
    ensures
      var b := w.api.backups[n];
      var step := SyncStep(w.api, n, b, w.api.instances[b.instance]);
      AfterSync(w, n, recorded) == WithBackup(w.(api := step.0), n, Stored(b, step.1, recorded))
  {
    var b := w.api.backups[n];
    SyncStepCases(w.api, n, b, w.api.instances[b.instance]);
    assert w.api.backups[n := b] == w.api.backups;
  }

  lemma SyncCreating(w: World, n: string, recorded: bool)
    requires Enabled(w, Sync(n, recorded)) && w.api.backups[n].uid in w.history
    requires n !in w.api.cnpg
        && n in SyncStep(w.api, n, w.api.backups[n], w.api.instances[w.api.backups[n].instance]).0.cnpg
    ensures Creatable(w, n)
    ensures AfterSync(w, n, recorded) == NewCnpg(w, n, w.api.instances[w.api.backups[n].instance].name, recorded)
  {
    var b := w.api.backups[n];
    SyncStepCases(w.api, n, b, w.api.instances[b.instance]);
  }

  /** What a call that creates nothing leaves in the store. */
  predicate SyncedApi(w: World, n: string, a: Api) {
    && n in w.api.backups
    && (a == w.api
        || (n in w.api.cnpg
            && a == w.api.(cnpg := w.api.cnpg[n := w.api.cnpg[n].(controller := Some(w.api.backups[n].uid))])))
  }

  lemma SyncedKeepsObjects(w: World, n: string, a: Api, b: Backup)
    requires ObjectsOk(w) && SyncedApi(w, n, a) && Edited(w, n, b)
    ensures ObjectsOk(WithBackup(w.(api := a), n, b))
  {
    if a != w.api { TouchKeepsObjects(w, n, w.api.cnpg[n].(controller := Some(w.api.backups[n].uid))); }
    EditKeepsObjects(w.(api := a), n, b);
  }

  lemma SyncedKeeps(w: World, n: string, a: Api, b: Backup)
    requires Inv(w) && SyncedApi(w, n, a) && Edited(w, n, b)
    ensures Inv(WithBackup(w.(api := a), n, b))
  {
    if a != w.api { TouchKeeps(w, n, w.api.cnpg[n].(controller := Some(w.api.backups[n].uid))); }
    EditKeeps(w.(api := a), n, b);
  }

  /** A call is one of the two. */
  lemma SyncEffect(w: World, n: string, recorded: bool) returns (a: Api, b: Backup)
    requires Enabled(w, Sync(n, recorded)) && w.api.backups[n].uid in w.history
    ensures
      || (Creatable(w, n)
          && AfterSync(w, n, recorded) == NewCnpg(w, n, w.api.instances[w.api.backups[n].instance].name, recorded))
      || (SyncedApi(w, n, a) && Edited(w, n, b) && AfterSync(w, n, recorded) == WithBackup(w.(api := a), n, b))
  {
    var i := w.api.instances[w.api.backups[n].instance];
    SyncStepCases(w.api, n, w.api.backups[n], i);
    var step := SyncStep(w.api, n, w.api.backups[n], i);
    a, b := step.0, Stored(w.api.backups[n], step.1, recorded);
    if n !in w.api.cnpg && n in step.0.cnpg {
      SyncCreating(w, n, recorded);
    } else {
      SyncWithoutCreating(w, n, recorded);
    }
  }

  lemma SyncKeepsObjects(w: World, n: string, recorded: bool)
    requires ObjectsOk(w) && Enabled(w, Sync(n, recorded))
    ensures ObjectsOk(AfterSync(w, n, recorded))
  {
    assert BackupOk(w, n);
    var a, b := SyncEffect(w, n, recorded);
    if Creatable(w, n) { NewCnpgKeepsObjects(w, n, w.api.instances[w.api.backups[n].instance].name, recorded); }
    if SyncedApi(w, n, a) && Edited(w, n, b) { SyncedKeepsObjects(w, n, a, b); }
  }

  lemma SyncKeeps(w: World, n: string, recorded: bool)
    requires Inv(w) && Enabled(w, Sync(n, recorded))
    ensures Inv(AfterSync(w, n, recorded))
  {
    assert BackupOk(w, n);
    var a, b := SyncEffect(w, n, recorded);
    if Creatable(w, n) { NewCnpgKeeps(w, n, w.api.instances[w.api.backups[n].instance].name, recorded); }
    if SyncedApi(w, n, a) && Edited(w, n, b) { SyncedKeeps(w, n, a, b); }
  }

  /** The three things a cleanup call can do. */
  datatype CleanupMove = NoMove | NewJob(job: Job) | DeleteIt

  function MoveOf(a: Api, n: string, b: Backup, jobName: string): CleanupMove {
    if n !in a.cnpg then NoMove
    else
      var data := DeleteDataStep(a, b, a.cnpg[n], jobName);
      if b.policy.Delete? && !data.1.Done? then
        if jobName in data.0.jobs && jobName !in a.jobs then NewJob(data.0.jobs[jobName]) else NoMove
      else if a.cnpg[n].deleting then NoMove
      else DeleteIt
  }

  /** What the outcome of the call says about the move, and the state after it. */
  lemma CleanupMoves(a: Api, n: string, b: Backup, jobName: string)
    ensures
      var move := MoveOf(a, n, b, jobName);
      var step := CleanupStep(a, n, b, jobName);
      && (step.1.Done? ==> n !in a.cnpg && move.NoMove?)
      && (move.NoMove? ==> step.0 == a)
      && (move.NewJob? ==>
            && step.0 == a.(jobs := a.jobs[jobName := move.job]) && step.1.Requeue?
            && jobName !in a.jobs && n in a.cnpg && b.policy.Delete? && b.storage in a.stores
            && !Writing(a.cnpg[n].status.phase)
            && var built := DeletionJob(a.cnpg[n], a.stores[b.storage]);
            built.Ok? && move.job == built.value.(owner := Some(b.uid)) && move.job.conditions == [])
      && (move.DeleteIt? ==>
            && n in a.cnpg && step.0 == DeleteCnpg(a, n) && step.1.Requeue?
            && (b.policy.Delete? ==> DeleteDataStep(a, b, a.cnpg[n], jobName).1.Done?))
  {
  }

  /** The step that carries safety: when DeleteDataStep reports done, the base backup is gone. */
  lemma DoneMeansDrained(w: World, n: string, jobName: string)
    requires Inv(w) && n in w.api.backups && n in w.api.cnpg
    requires w.api.backups[n].deleting && w.api.backups[n].policy.Delete?
    requires DeleteDataStep(w.api, w.api.backups[n], w.api.cnpg[n], jobName).1.Done?
    ensures Drained(w, w.api.cnpg[n])
  {
    var b, c := w.api.backups[n], w.api.cnpg[n];
    assert BackupOk(w, n) && CnpgOk(w, n);
    if c.status.backupID != "" {
      assert JobOk(w, jobName) && EffectOk(w, jobName);
      assert MadeOk(w, DeleteTarget(w.api.jobs[jobName].args).value);
    }
  }

  lemma NewJobIsOwned(w: World, n: string, job: Job)
    requires ObjectsOk(w) && n in w.api.backups && n in w.api.cnpg
    requires w.api.backups[n].deleting && w.api.backups[n].policy.Delete?
    requires w.api.backups[n].storage in w.api.stores
    requires var built := DeletionJob(w.api.cnpg[n], w.api.stores[w.api.backups[n].storage]);
             built.Ok? && job == built.value.(owner := Some(w.api.backups[n].uid))
    ensures OwnerOk(w, job, w.api.backups[n].uid)
  {
    assert BackupOk(w, n);
    DeletionJobAddressesItsBackup(w.api.cnpg[n], w.api.stores[w.api.backups[n].storage]);
  }

  /** A Job built for the Backup n addresses its data exactly when it is well addressed. */
  lemma NewJobAddresses(w: World, n: string)
    requires n in w.api.backups && n in w.api.cnpg && CnpgOk(w, n) && w.api.backups[n].storage in w.api.stores
    requires Buildable(w.api.cnpg[n], w.api.stores[w.api.backups[n].storage])
    ensures
      DeletionJob(w.api.cnpg[n], w.api.stores[w.api.backups[n].storage]).Ok? &&
      var job := DeletionJob(w.api.cnpg[n], w.api.stores[w.api.backups[n].storage]).value;
      && DeleteTarget(job.args).Some?
      && (DeleteTarget(job.args).value == Location(w, w.api.cnpg[n]) <==> WellAddressed(w, n))
  {
    DeletionJobAddressesItsBackup(w.api.cnpg[n], w.api.stores[w.api.backups[n].storage]);
  }

  lemma NewJobIsOk(w: World, n: string, t: Target)
    requires n in w.api.backups && n in w.api.cnpg && BackupOk(w, n) && CnpgOk(w, n)
    requires w.api.cnpg[n].status.backupID != "" && Final(w.api.cnpg[n].status.phase)
    requires t == Location(w, w.api.cnpg[n])
    ensures TargetOk(w, t, w.api.backups[n].uid)
  {
  }

  lemma CleanupKeepsObjects(w: World, n: string, jobName: string -> string)
    requires ObjectsOk(w) && Enabled(w, Cleanup(n))
    ensures ObjectsOk(AfterCleanup(w, n, jobName))
  {
    var b := w.api.backups[n];
    assert BackupOk(w, n);
    CleanupMoves(w.api, n, b, jobName(n));
    match MoveOf(w.api, n, b, jobName(n))
    case NoMove => if CleanupOutcome(w, n, jobName).Done? { CleanedKeepsObjects(w, n); }
    case NewJob(job) =>
      NewJobIsOwned(w, n, job);
      JobsKeepObjects(w, w.api.jobs[jobName(n) := job]);
    case DeleteIt => DeleteCnpgKeepsObjects(w, n);
  }

  lemma NewJobKeeps(w: World, n: string, j: string, job: Job)
    requires Inv(w) && n in w.api.backups && n in w.api.cnpg && w.api.backups[n].storage in w.api.stores
    requires !Writing(w.api.cnpg[n].status.phase) && !AtRest(w, n) && WellAddressed(w, n)
    requires var built := DeletionJob(w.api.cnpg[n], w.api.stores[w.api.backups[n].storage]);
             built.Ok? && job == built.value.(owner := Some(w.api.backups[n].uid)) && job.conditions == []
    requires ObjectsOk(WithJobs(w, w.api.jobs[j := job]))
    ensures Inv(WithJobs(w, w.api.jobs[j := job]))
  {
    var w' := WithJobs(w, w.api.jobs[j := job]);
    assert BackupOk(w, n) && CnpgOk(w, n);
    DeletionJobAddressesItsBackup(w.api.cnpg[n], w.api.stores[w.api.backups[n].storage]);
    NewJobAddresses(w, n);
    NewJobIsOk(w, n, Location(w, w.api.cnpg[n]));
    forall k | k in w'.api.jobs ensures EffectOk(w', k) { if k != j { assert EffectOk(w, k); } }
    JobsKeep(w, w'.api.jobs);
  }

  lemma CleanupKeeps(w: World, n: string, jobName: string -> string)
    requires Inv(w) && Enabled(w, Cleanup(n)) && Orderly(w, Cleanup(n), jobName)
    ensures Inv(AfterCleanup(w, n, jobName))
  {
    var b := w.api.backups[n];
    CleanupKeepsObjects(w, n, jobName);
    assert BackupOk(w, n);
    CleanupMoves(w.api, n, b, jobName(n));
    match MoveOf(w.api, n, b, jobName(n))
    case NoMove => if CleanupOutcome(w, n, jobName).Done? { CleanedKeeps(w, n); }
    case NewJob(job) => NewJobKeeps(w, n, jobName(n), job);
    case DeleteIt =>
      if b.policy.Delete? { DoneMeansDrained(w, n, jobName(n)); }
      DeleteCnpgKeeps(w, n);
  }

  // ---- Objects that come and go ----

  function WithNewBackup(w: World, n: string, b: Backup): World {
    w.(api := w.api.(backups := w.api.backups[n := b], nextUid := w.api.nextUid + 1),
       born := w.born[b.uid := n],
       parent := if n in w.api.cnpg then w.parent[w.api.cnpg[n].uid := b.uid] else w.parent,
       history := w.history[b.uid := History(0, 0, false)])
  }

  predicate FreshBackup(w: World, n: string, b: Backup) {
    n !in w.api.backups && b.uid == w.api.nextUid && b.ref.None? && !b.deleting && b.state.StateUnset?
  }

  lemma NewBackupKeepsBackup(w: World, n: string, b: Backup, m: string)
    requires UidsOk(w) && FreshBackup(w, n, b) && (m in w.api.backups ==> BackupOk(w, m))
    requires (n in w.api.cnpg ==> CnpgOk(w, n)) && (m in w.api.cnpg ==> CnpgOk(w, m))
    ensures m in WithNewBackup(w, n, b).api.backups ==> BackupOk(WithNewBackup(w, n, b), m)
  {
  }

  lemma NewBackupKeepsCnpg(w: World, n: string, b: Backup, m: string)
    requires UidsOk(w) && FreshBackup(w, n, b) && m in w.api.cnpg && CnpgOk(w, m)
    requires n in w.api.cnpg ==> CnpgOk(w, n)
    ensures CnpgOk(WithNewBackup(w, n, b), m)
  {
  }

  lemma NewBackupKeepsJob(w: World, n: string, b: Backup, j: string)
    requires UidsOk(w) && FreshBackup(w, n, b) && j in w.api.jobs && JobOk(w, j)
    ensures JobOk(WithNewBackup(w, n, b), j)
  {
  }

  lemma NewBackupKeepsUids(w: World, n: string, b: Backup)
    requires UidsOk(w) && FreshBackup(w, n, b) && (n in w.api.cnpg ==> CnpgOk(w, n))
    ensures UidsOk(WithNewBackup(w, n, b))
  {
  }

  lemma NewBackupKeepsObjects(w: World, n: string, b: Backup)
    requires ObjectsOk(w) && FreshBackup(w, n, b)
    ensures ObjectsOk(WithNewBackup(w, n, b))
  {
    var w' := WithNewBackup(w, n, b);
    if n in w.api.cnpg { assert CnpgOk(w, n); }
    NewBackupKeepsUids(w, n, b);
    forall m | m in w'.api.backups ensures BackupOk(w', m) { NewBackupKeepsBackup(w, n, b, m); }
    forall m | m in w'.api.cnpg ensures CnpgOk(w', m) { NewBackupKeepsCnpg(w, n, b, m); }
    forall j | j in w'.api.jobs ensures JobOk(w', j) { NewBackupKeepsJob(w, n, b, j); }
  }

  lemma NewBackupKeepsData(w: World, n: string, b: Backup, t: Target)
    requires UidsOk(w) && FreshBackup(w, n, b) && (n in w.api.cnpg ==> CnpgOk(w, n))
    requires (t in w.made ==> MadeOk(w, t)) && (t in w.bucket ==> Addressable(w, t))
    ensures
      var w' := WithNewBackup(w, n, b);
      (t in w'.made ==> MadeOk(w', t)) && (t in w'.bucket ==> Addressable(w', t))
  {
    if t in w.made && w.made[t] in w.parent { assert w.parent[w.made[t]] in w.parent.Values; }
  }

  lemma NewBackupKeepsEffect(w: World, n: string, b: Backup, j: string)
    requires UidsOk(w) && FreshBackup(w, n, b) && (n in w.api.cnpg ==> CnpgOk(w, n))
    requires j in w.api.jobs && JobOk(w, j) && EffectOk(w, j)
    ensures EffectOk(WithNewBackup(w, n, b), j)
  {
  }

  lemma NewBackupKeepsMark(w: World, n: string, b: Backup, m: string)
    requires FreshBackup(w, n, b) && m in w.api.cnpg && MarkOk(w, m)
    ensures MarkOk(WithNewBackup(w, n, b), m)
  {
  }

  lemma NewBackupKeeps(w: World, n: string, b: Backup)
    requires Inv(w) && FreshBackup(w, n, b)
    ensures Inv(WithNewBackup(w, n, b))
  {
    NewBackupKeepsObjects(w, n, b);
    var w' := WithNewBackup(w, n, b);
    if n in w.api.cnpg { assert CnpgOk(w, n); }
    forall t | t in w'.made ensures MadeOk(w', t) { NewBackupKeepsData(w, n, b, t); }
    forall m | m in w'.api.cnpg ensures MarkOk(w', m) { NewBackupKeepsMark(w, n, b, m); }
    forall t | t in w'.bucket ensures Addressable(w', t) { NewBackupKeepsData(w, n, b, t); }
    forall j | j in w'.api.jobs ensures EffectOk(w', j) { NewBackupKeepsEffect(w, n, b, j); }
  }

  function WithoutBackup(w: World, n: string): World {
    w.(api := w.api.(backups := w.api.backups - {n}))
  }

  lemma RemoveBackupKeepsObjects(w: World, n: string)
    requires ObjectsOk(w) && n !in w.api.cnpg
    ensures ObjectsOk(WithoutBackup(w, n))
  {
    var w' := WithoutBackup(w, n);
    forall m | m in w'.api.backups ensures BackupOk(w', m) { assert BackupOk(w, m); }
    forall m | m in w'.api.cnpg ensures CnpgOk(w', m) { assert CnpgOk(w, m); }
    forall j | j in w'.api.jobs ensures JobOk(w', j) { assert JobOk(w, j); }
  }

  lemma RemoveBackupKeepsData(w: World, n: string, t: Target)
    requires n !in w.api.cnpg && (t in w.made ==> MadeOk(w, t)) && (t in w.bucket ==> Addressable(w, t))
    ensures var w' := WithoutBackup(w, n); (t in w'.made ==> MadeOk(w', t)) && (t in w'.bucket ==> Addressable(w', t))
  {
  }

  lemma RemoveBackupKeeps(w: World, n: string)
    requires Inv(w) && n !in w.api.cnpg
    ensures Inv(WithoutBackup(w, n))
  {
    RemoveBackupKeepsObjects(w, n);
    var w' := WithoutBackup(w, n);
    forall t | t in w'.made ensures MadeOk(w', t) { RemoveBackupKeepsData(w, n, t); }
    forall m | m in w'.api.cnpg ensures MarkOk(w', m) { assert MarkOk(w, m); }
    forall t | t in w'.bucket ensures Addressable(w', t) { RemoveBackupKeepsData(w, n, t); }
    forall j | j in w'.api.jobs ensures EffectOk(w', j) { assert EffectOk(w, j); }
  }

  function WithScheduled(w: World, n: string, c: CnpgBackup): World {
    w.(api := w.api.(cnpg := w.api.cnpg[n := c], nextUid := w.api.nextUid + 1), born := w.born[c.uid := n])
  }

  /** A scheduled CNPG Backup that nothing controls yet, under an unused name. */
  predicate FreshCnpg(w: World, n: string, c: CnpgBackup) {
    && n !in w.api.cnpg && n !in w.api.backups
    && c.uid == w.api.nextUid && c.status == EMPTY_STATUS && c.controller.None? && !c.deleting
  }

  lemma ScheduledKeepsCnpg(w: World, n: string, c: CnpgBackup, m: string)
    requires UidsOk(w) && FreshCnpg(w, n, c) && (m in w.api.cnpg ==> CnpgOk(w, m))
    ensures m in WithScheduled(w, n, c).api.cnpg ==> CnpgOk(WithScheduled(w, n, c), m)
  {
  }

  lemma ScheduledKeepsObjects(w: World, n: string, c: CnpgBackup)
    requires ObjectsOk(w) && FreshCnpg(w, n, c)
    ensures ObjectsOk(WithScheduled(w, n, c))
  {
    var w' := WithScheduled(w, n, c);
    forall m | m in w'.api.backups ensures BackupOk(w', m) { assert BackupOk(w, m); }
    forall m | m in w'.api.cnpg ensures CnpgOk(w', m) { ScheduledKeepsCnpg(w, n, c, m); }
    forall j | j in w'.api.jobs ensures JobOk(w', j) { assert JobOk(w, j); }
  }

  lemma ScheduledKeepsData(w: World, n: string, c: CnpgBackup, t: Target)
    requires UidsOk(w) && FreshCnpg(w, n, c)
    requires (t in w.made ==> MadeOk(w, t)) && (t in w.bucket ==> Addressable(w, t))
    ensures
      var w' := WithScheduled(w, n, c);
      (t in w'.made ==> MadeOk(w', t)) && (t in w'.bucket ==> Addressable(w', t))
  {
  }

  lemma ScheduledKeepsEffect(w: World, n: string, c: CnpgBackup, j: string)
    requires UidsOk(w) && FreshCnpg(w, n, c) && j in w.api.jobs && JobOk(w, j) && EffectOk(w, j)
    ensures EffectOk(WithScheduled(w, n, c), j)
  {
  }

  lemma ScheduledKeeps(w: World, n: string, c: CnpgBackup)
    requires Inv(w) && FreshCnpg(w, n, c)
    ensures Inv(WithScheduled(w, n, c))
  {
    ScheduledKeepsObjects(w, n, c);
    var w' := WithScheduled(w, n, c);
    forall t | t in w'.made ensures MadeOk(w', t) { ScheduledKeepsData(w, n, c, t); }
    forall m | m in w'.api.cnpg ensures MarkOk(w', m) { if m in w.api.cnpg { assert MarkOk(w, m); } }
    forall t | t in w'.bucket ensures Addressable(w', t) { ScheduledKeepsData(w, n, c, t); }
    forall j | j in w'.api.jobs ensures EffectOk(w', j) { ScheduledKeepsEffect(w, n, c, j); }
  }

  // ---- The operator ----

  /** The status changes and no ID is assigned. */
  predicate PhaseChange(w: World, n: string, s: CnpgStatus) {
    && n in w.api.cnpg && !Final(w.api.cnpg[n].status.phase)
    && var was := w.api.cnpg[n].status;
    && s.backupID == was.backupID && (was.backupID != "" ==> SameAddress(was, s))
  }

  lemma PhaseKeepsCnpg(w: World, n: string, s: CnpgStatus, m: string)
    requires PhaseChange(w, n, s) && m in w.api.cnpg && CnpgOk(w, m)
    ensures CnpgOk(WithCnpg(w, n, w.api.cnpg[n].(status := s)), m)
  {
  }

  lemma PhaseKeepsObjects(w: World, n: string, s: CnpgStatus)
    requires ObjectsOk(w) && PhaseChange(w, n, s)
    ensures ObjectsOk(WithCnpg(w, n, w.api.cnpg[n].(status := s)))
  {
    var w' := WithCnpg(w, n, w.api.cnpg[n].(status := s));
    forall m | m in w'.api.backups ensures BackupOk(w', m) { assert BackupOk(w, m); }
    forall m | m in w'.api.cnpg ensures CnpgOk(w', m) { PhaseKeepsCnpg(w, n, s, m); }
    forall j | j in w'.api.jobs ensures JobOk(w', j) { assert JobOk(w, j); }
  }

  lemma PhaseKeepsEffect(w: World, n: string, s: CnpgStatus, j: string)
    requires PhaseChange(w, n, s) && j in w.api.jobs && EffectOk(w, j)
    ensures EffectOk(WithCnpg(w, n, w.api.cnpg[n].(status := s)), j)
  {
  }

  lemma PhaseKeepsMade(w: World, n: string, s: CnpgStatus, t: Target)
    requires PhaseChange(w, n, s) && t in w.made && MadeOk(w, t)
    ensures MadeOk(WithCnpg(w, n, w.api.cnpg[n].(status := s)), t)
  {
  }

  lemma PhaseKeeps(w: World, n: string, s: CnpgStatus)
    requires Inv(w) && PhaseChange(w, n, s)
    ensures Inv(WithCnpg(w, n, w.api.cnpg[n].(status := s)))
  {
    PhaseKeepsObjects(w, n, s);
    var w' := WithCnpg(w, n, w.api.cnpg[n].(status := s));
    forall t | t in w'.made ensures MadeOk(w', t) { PhaseKeepsMade(w, n, s, t); }
    forall m | m in w'.api.cnpg ensures MarkOk(w', m) { assert MarkOk(w, m); }
    forall t | t in w'.bucket ensures Addressable(w', t) { assert Addressable(w, t); }
    forall j | j in w'.api.jobs ensures EffectOk(w', j) { PhaseKeepsEffect(w, n, s, j); }
  }

  predicate AssignsID(w: World, n: string, s: CnpgStatus, place: Place) {
    && n in w.api.cnpg && LegalProgress(w, w.api.cnpg[n], s, place)
    && w.api.cnpg[n].status.backupID == "" && s.backupID != ""
  }

  function WithID(w: World, n: string, s: CnpgStatus, place: Place): World
    requires n in w.api.cnpg
  {
    var c := w.api.cnpg[n].(status := s);
    var t := Target(s.backupID, place);
    WithCnpg(w, n, c).(bucket := w.bucket + {t}, written := w.written[c.uid := place], made := w.made[t := c.uid])
  }

  /** Two objects never share a uid. */
  lemma OneNamePerUid(w: World, n: string, m: string)
    requires n in w.api.cnpg && m in w.api.cnpg && CnpgOk(w, n) && CnpgOk(w, m)
    requires w.api.cnpg[n].uid == w.api.cnpg[m].uid
    ensures n == m
  {
  }

  lemma AssignIDKeepsCnpg(w: World, n: string, s: CnpgStatus, place: Place, m: string)
    requires AssignsID(w, n, s, place) && m in w.api.cnpg && CnpgOk(w, m) && CnpgOk(w, n)
    ensures CnpgOk(WithID(w, n, s, place), m)
  {
    if m != n && w.api.cnpg[n].uid == w.api.cnpg[m].uid { OneNamePerUid(w, n, m); }
  }

  lemma AssignIDKeepsBackup(w: World, n: string, s: CnpgStatus, place: Place, m: string)
    requires AssignsID(w, n, s, place) && m in w.api.backups && BackupOk(w, m)
    ensures BackupOk(WithID(w, n, s, place), m)
  {
  }

  lemma AssignIDKeepsObjects(w: World, n: string, s: CnpgStatus, place: Place)
    requires ObjectsOk(w) && AssignsID(w, n, s, place)
    ensures ObjectsOk(WithID(w, n, s, place))
  {
    var w' := WithID(w, n, s, place);
    forall m | m in w'.api.backups ensures BackupOk(w', m) { AssignIDKeepsBackup(w, n, s, place, m); }
    forall m | m in w'.api.cnpg ensures CnpgOk(w', m) { AssignIDKeepsCnpg(w, n, s, place, m); }
    forall j | j in w'.api.jobs ensures JobOk(w', j) { assert JobOk(w, j); }
  }

  lemma AssignIDKeepsMade(w: World, n: string, s: CnpgStatus, place: Place, t: Target)
    requires AssignsID(w, n, s, place) && CnpgOk(w, n) && (t in w.made ==> MadeOk(w, t))
    ensures t in WithID(w, n, s, place).made ==> MadeOk(WithID(w, n, s, place), t)
  {
  }

  lemma AssignIDKeepsMark(w: World, n: string, s: CnpgStatus, place: Place, m: string)
    requires AssignsID(w, n, s, place) && CnpgOk(w, n) && m in w.api.cnpg && CnpgOk(w, m) && MarkOk(w, m)
    ensures MarkOk(WithID(w, n, s, place), m)
  {
    if m != n && w.api.cnpg[n].uid == w.api.cnpg[m].uid { OneNamePerUid(w, n, m); }
  }

  lemma AssignIDKeepsAddressable(w: World, n: string, s: CnpgStatus, place: Place, t: Target)
    requires AssignsID(w, n, s, place) && CnpgOk(w, n) && (t in w.bucket ==> Addressable(w, t))
    requires n in w.api.backups ==> BackupOk(w, n)
    ensures t in WithID(w, n, s, place).bucket ==> Addressable(WithID(w, n, s, place), t)
  {
  }

  lemma AssignIDKeepsTarget(w: World, n: string, s: CnpgStatus, place: Place, t: Target, u: Uid)
    requires AssignsID(w, n, s, place) && CnpgOk(w, n) && TargetOk(w, t, u) && MadeOk(w, t)
    ensures var w' := WithID(w, n, s, place); TargetOk(w', t, u) && (t in w'.bucket ==> t in w.bucket)
  {
  }

  lemma AssignIDKeepsEffect(w: World, n: string, s: CnpgStatus, place: Place, j: string)
    requires AssignsID(w, n, s, place) && CnpgOk(w, n) && j in w.api.jobs && EffectOk(w, j)
    requires w.api.jobs[j].owner.Some? && DeleteTarget(w.api.jobs[j].args).Some? ==>
               var t := DeleteTarget(w.api.jobs[j].args).value; t in w.made && MadeOk(w, t)
    ensures EffectOk(WithID(w, n, s, place), j)
  {
    var job := w.api.jobs[j];
    if job.owner.Some? && DeleteTarget(job.args).Some? {
      AssignIDKeepsTarget(w, n, s, place, DeleteTarget(job.args).value, job.owner.value);
    }
  }

  lemma AssignIDKeeps(w: World, n: string, s: CnpgStatus, place: Place)
    requires Inv(w) && AssignsID(w, n, s, place)
    ensures Inv(WithID(w, n, s, place))
  {
    AssignIDKeepsObjects(w, n, s, place);
    var w' := WithID(w, n, s, place);
    assert CnpgOk(w, n);
    if n in w.api.backups { assert BackupOk(w, n); }
    forall t | t in w'.made ensures MadeOk(w', t) { AssignIDKeepsMade(w, n, s, place, t); }
    forall m | m in w'.api.cnpg ensures MarkOk(w', m) { AssignIDKeepsMark(w, n, s, place, m); }
    forall t | t in w'.bucket ensures Addressable(w', t) { AssignIDKeepsAddressable(w, n, s, place, t); }
    forall j | j in w'.api.jobs ensures EffectOk(w', j) {
      assert EffectOk(w, j);
      AssignIDKeepsEffect(w, n, s, place, j);
    }
  }

  predicate Uploading(w: World, n: string) {
    n in w.api.cnpg && w.api.cnpg[n].status.backupID != "" && Writing(w.api.cnpg[n].status.phase)
  }

  function WithUpload(w: World, n: string): World
    requires n in w.api.cnpg
  {
    w.(bucket := w.bucket + {Location(w, w.api.cnpg[n])})
  }

  lemma UploadKeepsMark(w: World, n: string, m: string)
    requires Uploading(w, n) && CnpgOk(w, n) && m in w.api.cnpg && CnpgOk(w, m) && MarkOk(w, m)
    ensures MarkOk(WithUpload(w, n), m)
  {
    if m != n && w.api.cnpg[n].uid == w.api.cnpg[m].uid { OneNamePerUid(w, n, m); }
  }

  lemma UploadKeepsData(w: World, n: string, t: Target)
    requires Uploading(w, n) && CnpgOk(w, n) && (n in w.api.backups ==> BackupOk(w, n))
    requires t in w.made && MadeOk(w, t) && (t in w.bucket ==> Addressable(w, t))
    ensures
      var w' := WithUpload(w, n);
      MadeOk(w', t) && (t in w'.bucket ==> Addressable(w', t))
  {
  }

  lemma UploadKeepsEffect(w: World, n: string, j: string)
    requires Uploading(w, n) && CnpgOk(w, n) && j in w.api.jobs && EffectOk(w, j)
    ensures EffectOk(WithUpload(w, n), j)
  {
  }

  lemma UploadKeeps(w: World, n: string)
    requires Inv(w) && Uploading(w, n)
    ensures Inv(WithUpload(w, n))
  {
    var w' := WithUpload(w, n);
    SameObjectsKeeps(w, w');
    assert CnpgOk(w, n);
    if n in w.api.backups { assert BackupOk(w, n); }
    forall t | t in w'.made ensures MadeOk(w', t) { UploadKeepsData(w, n, t); }
    forall m | m in w'.api.cnpg ensures MarkOk(w', m) { UploadKeepsMark(w, n, m); }
    forall t | t in w'.bucket ensures Addressable(w', t) { if t in w.made { UploadKeepsData(w, n, t); } }
    forall j | j in w'.api.jobs ensures EffectOk(w', j) { UploadKeepsEffect(w, n, j); }
  }

  // ---- All events ----

  predicate ByUser(e: Event) { e.CreateBackup? || e.EditBackup? || e.RequestDeletion? || e.RemoveBackup? }
  predicate ByOperator(e: Event) { e.StartScheduled? || e.SetFinalizers? || e.Progress? }
  predicate Removes(e: Event) { e.ForeignDelete? || e.Vanish? }

  /** What the events of users and of the operator do, as the changes above. */
  lemma UserChanges(w: World, e: Event, jobName: string -> string)
    requires Enabled(w, e) && ByUser(e)
    ensures
      var w' := Next(w, e, jobName);
      var n := e.name;
      || (n in w'.api.backups && w' == WithNewBackup(w, n, w'.api.backups[n]) && FreshBackup(w, n, w'.api.backups[n]))
      || (n in w'.api.backups && w' == WithBackup(w, n, w'.api.backups[n]) && Edited(w, n, w'.api.backups[n]))
      || (n in w.api.backups && w' == WithoutBackup(w, n)
          && w.api.backups[n].uid in w.history && w.history[w.api.backups[n].uid].cleaned)
  {
  }

  lemma OperatorChanges(w: World, e: Event, jobName: string -> string)
    requires Enabled(w, e) && ByOperator(e)
    ensures
      var w' := Next(w, e, jobName);
      var n := e.name;
      match e
      case StartScheduled(_, _, _, _) =>
        n in w'.api.cnpg && w' == WithScheduled(w, n, w'.api.cnpg[n]) && FreshCnpg(w, n, w'.api.cnpg[n])
      case Progress(_, s, place) =>
        if AssignsID(w, n, s, place) then w' == WithID(w, n, s, place)
        else PhaseChange(w, n, s) && w' == WithCnpg(w, n, w.api.cnpg[n].(status := s))
      case _ => n in w'.api.cnpg && w' == WithCnpg(w, n, w'.api.cnpg[n]) && Touched(w, n, w'.api.cnpg[n])
                && w'.api.cnpg[n].deleting == w.api.cnpg[n].deleting
  {
  }

  lemma UserKeepsObjects(w: World, e: Event, jobName: string -> string)
    requires ObjectsOk(w) && Enabled(w, e) && ByUser(e)
    ensures ObjectsOk(Next(w, e, jobName))
  {
    var n := e.name;
    var w' := Next(w, e, jobName);
    UserChanges(w, e, jobName);
    if n in w'.api.backups {
      if n in w.api.backups {
        EditKeepsObjects(w, n, w'.api.backups[n]);
      } else {
        NewBackupKeepsObjects(w, n, w'.api.backups[n]);
      }
    } else {
      assert BackupOk(w, n);
      RemoveBackupKeepsObjects(w, n);
    }
  }

  lemma UserKeeps(w: World, e: Event, jobName: string -> string)
    requires Inv(w) && Enabled(w, e) && ByUser(e)
    ensures Inv(Next(w, e, jobName))
  {
    var n := e.name;
    var w' := Next(w, e, jobName);
    UserChanges(w, e, jobName);
    if n in w'.api.backups {
      if n in w.api.backups { EditKeeps(w, n, w'.api.backups[n]); } else { NewBackupKeeps(w, n, w'.api.backups[n]); }
    } else {
      assert BackupOk(w, n);
      RemoveBackupKeeps(w, n);
    }
  }

  lemma OperatorKeepsObjects(w: World, e: Event, jobName: string -> string)
    requires ObjectsOk(w) && Enabled(w, e) && ByOperator(e)
    ensures ObjectsOk(Next(w, e, jobName))
  {
    var w' := Next(w, e, jobName);
    OperatorChanges(w, e, jobName);
    match e
    case StartScheduled(n, _, _, _) => ScheduledKeepsObjects(w, n, w'.api.cnpg[n]);
    case SetFinalizers(n, _) => TouchKeepsObjects(w, n, w'.api.cnpg[n]);
    case Progress(n, s, place) =>
      if AssignsID(w, n, s, place) { AssignIDKeepsObjects(w, n, s, place); } else { PhaseKeepsObjects(w, n, s); }
  }

  lemma OperatorKeeps(w: World, e: Event, jobName: string -> string)
    requires Inv(w) && Enabled(w, e) && ByOperator(e)
    ensures Inv(Next(w, e, jobName))
  {
    var w' := Next(w, e, jobName);
    OperatorChanges(w, e, jobName);
    match e
    case StartScheduled(n, _, _, _) => ScheduledKeeps(w, n, w'.api.cnpg[n]);
    case SetFinalizers(n, _) => TouchKeeps(w, n, w'.api.cnpg[n]);
    case Progress(n, s, place) =>
      if AssignsID(w, n, s, place) { AssignIDKeeps(w, n, s, place); } else { PhaseKeeps(w, n, s); }
  }

  lemma RemovalKeepsObjects(w: World, e: Event, jobName: string -> string)
    requires ObjectsOk(w) && Enabled(w, e) && Removes(e)
    ensures ObjectsOk(Next(w, e, jobName))
  {
    if e.Vanish? { RemoveCnpgKeepsObjects(w, e.name); } else { DeleteCnpgKeepsObjects(w, e.name); }
  }

  lemma RemovalKeeps(w: World, e: Event, jobName: string -> string)
    requires Inv(w) && Enabled(w, e) && Removes(e)
    requires e.ForeignDelete? ==> Releasable(w, e.name)
    ensures Inv(Next(w, e, jobName))
  {
    assert MarkOk(w, e.name);
    if e.Vanish? { RemoveCnpgKeeps(w, e.name); } else { DeleteCnpgKeeps(w, e.name); }
  }

  /** Every step of every actor keeps the invariant of the objects. */
  lemma NextKeepsObjects(w: World, e: Event, jobName: string -> string)
    requires ObjectsOk(w) && Enabled(w, e)
    ensures ObjectsOk(Next(w, e, jobName))
  {
    if ByUser(e) {
      UserKeepsObjects(w, e, jobName);
    } else if ByOperator(e) {
      OperatorKeepsObjects(w, e, jobName);
    } else if Removes(e) {
      RemovalKeepsObjects(w, e, jobName);
    } else if e.Sync? {
      SyncKeepsObjects(w, e.name, e.recorded);
    } else if e.Cleanup? {
      CleanupKeepsObjects(w, e.name, jobName);
    } else if e.JobReports? || e.DeleteJob? || e.ForeignJob? {
      ReportKeepsObjects(w, e, jobName);
    } else {
      SameObjectsKeeps(w, Next(w, e, jobName));
    }
  }

  /** Every orderly step of every actor keeps the whole invariant, whatever Job names are in
      use. */
  lemma NextKeepsInv(w: World, e: Event, jobName: string -> string)
    requires Inv(w) && Enabled(w, e) && Orderly(w, e, jobName)
    ensures Inv(Next(w, e, jobName))
  {
    if ByUser(e) {
      UserKeeps(w, e, jobName);
    } else if ByOperator(e) {
      OperatorKeeps(w, e, jobName);
    } else if Removes(e) {
      RemovalKeeps(w, e, jobName);
    } else if e.Sync? {
      SyncKeeps(w, e.name, e.recorded);
    } else if e.Cleanup? {
      CleanupKeeps(w, e.name, jobName);
    } else if e.JobReports? || e.DeleteJob? || e.ForeignJob? {
      ReportKeeps(w, e, jobName);
    } else if e.Upload? {
      UploadKeeps(w, e.name);
    } else {
      SameObjectsKeeps(w, Next(w, e, jobName));
      SameDataKeeps(w, Next(w, e, jobName));
    }
  }
}
