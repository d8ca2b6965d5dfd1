/** Backups, CNPG Backups, deletion Jobs and the bucket as one transition system: the
    provider's calls interleaved with the operator, the Job controller, Barman retention
    and users. What each actor may do is the guard of its event in Enabled; what
    the safety of the data needs beyond that is Orderly. */
module BackupProtocol {
  import opened Common
  import opened Instances
  import opened Backups

  /** What happened to one OpenEverest Backup so far. created: how many CNPG Backups SyncBackup
      made for it; unrecorded: how many of those calls ended before their status was stored;
      cleaned: CleanupBackup has returned true. */
  datatype History = History(created: nat, unrecorded: nat, cleaned: bool)

  /** bucket: the base backups stored now. The rest is history: written, the place each
      CNPG Backup wrote to; made, which CNPG Backup wrote each base backup the
      operator ever wrote; born, the name each uid was created under; parent, for the uid of a
      CNPG Backup, the OpenEverest Backup that bore its name while it existed. */
  datatype World = World(
    api: Api, bucket: set<Target>, written: map<Uid, Place>,
    made: map<Target, Uid>, born: map<Uid, string>, parent: map<Uid, Uid>, history: map<Uid, History>)

  datatype Event =
    | CreateBackup(name: string, instance: string, storage: string, policy: DeletionPolicy, target: Option<string>)
    | EditBackup(name: string, policy: DeletionPolicy, target: Option<string>)
    | RequestDeletion(name: string)
    | Sync(name: string, recorded: bool)
    | Cleanup(name: string)
    | RemoveBackup(name: string)
    | StartScheduled(name: string, cluster: string, storage: string, mode: string)
    | SetFinalizers(name: string, finalizers: bool)
    | Progress(name: string, status: CnpgStatus, place: Place)
    | Upload(name: string)
    | Expire(name: string)
    | ForeignDelete(name: string)
    | Vanish(name: string)
    | JobRemovesData(job: string)
    | JobReports(job: string, conditions: seq<JobCondition>)
    | DeleteJob(job: string)
    | ForeignJob(job: string, args: seq<string>, conditions: seq<JobCondition>)
    | Configure(stores: map<string, ObjectStore>, storages: map<string, BackupStorage>,
                clusters: map<string, Cluster>, instances: map<string, Instance>)

  const NOWHERE := Place("", "", "")

  function PlaceOf(w: World, c: CnpgBackup): Place {
    if c.uid in w.written then w.written[c.uid] else NOWHERE
  }

  /** Where the base backup of c is: where it was written to, whatever the ObjectStore says by
      now. */
  function Location(w: World, c: CnpgBackup): Target {
    Target(c.status.backupID, PlaceOf(w, c))
  }

  predicate Holds(w: World, name: string, uid: Uid) {
    name in w.api.backups && w.api.backups[name].uid == uid
  }

  /** What the status records is true of the place; it may leave out any part. */
  predicate Records(s: CnpgStatus, place: Place) {
    && s.endpointURL in {"", place.endpoint}
    && s.destinationPath in {"", place.path}
    && s.serverName in {"", place.server}
  }

  predicate SameAddress(s: CnpgStatus, s': CnpgStatus) {
    && s'.backupID == s.backupID && s'.endpointURL == s.endpointURL
    && s'.destinationPath == s.destinationPath && s'.serverName == s.serverName
  }

  /** The operator's rules: an ID is assigned once, together with the place the data goes to,
      to an object that is not being deleted, and what the status records of the place is
      fixed from then on. Completed and failed are final. */
  predicate LegalProgress(w: World, c: CnpgBackup, s: CnpgStatus, place: Place) {
    && !Final(c.status.phase)
    && (c.status.backupID != "" || c.deleting ==> SameAddress(c.status, s))
    && (c.status.backupID == "" && s.backupID != "" ==>
          && Records(s, place)
          && Target(s.backupID, place) !in w.made && Target(s.backupID, place) !in w.bucket)
  }

  /** The phases in which the operator is at work, and may write. */
  predicate Writing(p: Phase) {
    p in {Pending, Started, Running, Finalizing}
  }

  predicate Enabled(w: World, e: Event) {
    var a := w.api;
    match e
    case CreateBackup(name, _, _, _, _) => name !in a.backups
    case EditBackup(name, _, _) => name in a.backups && !a.backups[name].deleting
    case RequestDeletion(name) => name in a.backups
    case Sync(name, _) =>
      name in a.backups && !a.backups[name].deleting && a.backups[name].instance in a.instances
    case Cleanup(name) => name in a.backups && a.backups[name].deleting
    case RemoveBackup(name) =>
      name in a.backups && a.backups[name].uid in w.history && w.history[a.backups[name].uid].cleaned
    case StartScheduled(name, _, _, _) => name !in a.cnpg && name !in a.backups
    case SetFinalizers(name, _) => name in a.cnpg && !a.cnpg[name].deleting
    case Progress(name, s, place) => name in a.cnpg && LegalProgress(w, a.cnpg[name], s, place)
    case Upload(name) =>
      name in a.cnpg && a.cnpg[name].status.backupID != "" && Writing(a.cnpg[name].status.phase)
    case Expire(name) => name in a.cnpg && a.cnpg[name].status.backupID != "" && Final(a.cnpg[name].status.phase)
    case ForeignDelete(name) => name in a.cnpg
    case Vanish(name) => name in a.cnpg && a.cnpg[name].deleting
    case JobRemovesData(job) =>
      && job in a.jobs && a.jobs[job].owner.Some? && DeleteTarget(a.jobs[job].args).Some?
      && !Finished(a.jobs[job])
    case JobReports(job, conditions) =>
      && job in a.jobs && !Finished(a.jobs[job])
      && (a.jobs[job].owner.Some? && JobCondition(JobComplete, true) in conditions ==>
            DeleteTarget(a.jobs[job].args).Some? && DeleteTarget(a.jobs[job].args).value !in w.bucket)
    case DeleteJob(job) => job in a.jobs
    case ForeignJob(job, _, _) => job !in a.jobs
    case Configure(_, _, _, _) => true
  }

  function AfterSync(w: World, name: string, recorded: bool): World
    requires Enabled(w, Sync(name, recorded))
  {
    var b := w.api.backups[name];
    var step := SyncStep(w.api, name, b, w.api.instances[b.instance]);
    var a := step.0;
    var kept := if step.1.Status? && step.1.ref.Some? then step.1.ref else b.ref;
    var api :=
      if recorded && step.1.Status? then a.(backups := a.backups[name := b.(ref := kept, state := step.1.state)])
      else a;
    var made := name !in w.api.cnpg && name in a.cnpg;
    var history :=
      if made && b.uid in w.history then
        var h := w.history[b.uid];
        w.history[b.uid := h.(created := h.created + 1, unrecorded := h.unrecorded + if recorded then 0 else 1)]
      else w.history;
    w.(api := api, history := history,
       born := if made then w.born[a.cnpg[name].uid := name] else w.born,
       parent := if made then w.parent[a.cnpg[name].uid := b.uid] else w.parent)
  }

  function CleanupOutcome(w: World, name: string, jobName: string -> string): Outcome
    requires name in w.api.backups
  {
    CleanupStep(w.api, name, w.api.backups[name], jobName(name)).1
  }

  /** The state after a cleanup call for the Backup u that left a; done: it returned true. */
  function Settled(w: World, a: Api, u: Uid, done: bool): World {
    w.(api := a,
       history := if done && u in w.history then w.history[u := w.history[u].(cleaned := true)] else w.history)
  }

  function AfterCleanup(w: World, name: string, jobName: string -> string): World
    requires Enabled(w, Cleanup(name))
  {
    var b := w.api.backups[name];
    var step := CleanupStep(w.api, name, b, jobName(name));
    Settled(w, step.0, b.uid, step.1.Done?)
  }

  function Next(w: World, e: Event, jobName: string -> string): World
    requires Enabled(w, e)
  {
    var a := w.api;
    match e
    case CreateBackup(name, instance, storage, policy, target) =>
      var b := Backup(a.nextUid, instance, storage, policy, target, None, StateUnset, false);
      w.(api := a.(backups := a.backups[name := b], nextUid := a.nextUid + 1),
         born := w.born[b.uid := name],
         parent := if name in a.cnpg then w.parent[a.cnpg[name].uid := b.uid] else w.parent,
         history := w.history[b.uid := History(0, 0, false)])
    case EditBackup(name, policy, target) =>
      w.(api := a.(backups := a.backups[name := a.backups[name].(policy := policy, target := target)]))
    case RequestDeletion(name) =>
      w.(api := a.(backups := a.backups[name := a.backups[name].(deleting := true)]))
    case Sync(name, recorded) => AfterSync(w, name, recorded)
    case Cleanup(name) => AfterCleanup(w, name, jobName)
    case RemoveBackup(name) => w.(api := a.(backups := a.backups - {name}))
    case StartScheduled(name, cluster, storage, mode) =>
      var c := CnpgBackup(a.nextUid, cluster, storage, mode, EMPTY_STATUS, None, false, false);
      w.(api := a.(cnpg := a.cnpg[name := c], nextUid := a.nextUid + 1), born := w.born[c.uid := name])
    case SetFinalizers(name, finalizers) =>
      w.(api := a.(cnpg := a.cnpg[name := a.cnpg[name].(finalizers := finalizers)]))
    case Progress(name, s, place) =>
      var c := a.cnpg[name].(status := s);
      var w' := w.(api := a.(cnpg := a.cnpg[name := c]));
      if a.cnpg[name].status.backupID == "" && s.backupID != "" then
        var t := Target(s.backupID, place);
        w'.(bucket := w.bucket + {t}, written := w.written[c.uid := place], made := w.made[t := c.uid])
      else w'
    case Upload(name) => w.(bucket := w.bucket + {Location(w, a.cnpg[name])})
    case Expire(name) => w.(bucket := w.bucket - {Location(w, a.cnpg[name])})
    case ForeignDelete(name) => w.(api := DeleteCnpg(a, name))
    case Vanish(name) => w.(api := a.(cnpg := a.cnpg - {name}))
    case JobRemovesData(job) => w.(bucket := w.bucket - {DeleteTarget(a.jobs[job].args).value})
    case JobReports(job, conditions) =>
      w.(api := a.(jobs := a.jobs[job := a.jobs[job].(conditions := conditions)]))
    case DeleteJob(job) => w.(api := a.(jobs := a.jobs - {job}))
    case ForeignJob(job, args, conditions) => w.(api := a.(jobs := a.jobs[job := Job(None, args, conditions)]))
    case Configure(stores, storages, clusters, instances) =>
      w.(api := a.(stores := stores, storages := storages, clusters := clusters, instances := instances))
  }

  // ---- Runs ----

  predicate Valid(w: World, run: seq<Event>, jobName: string -> string)
    decreases |run|
  {
    run == [] || (Enabled(w, run[0]) && Valid(Next(w, run[0], jobName), run[1..], jobName))
  }

  function After(w: World, run: seq<Event>, jobName: string -> string): World
    requires Valid(w, run, jobName)
    decreases |run|
  {
    if run == [] then w else After(Next(w, run[0], jobName), run[1..], jobName)
  }

  /** A namespace before the provider runs: Jobs of others, any configuration and any foreign
      objects in the buckets, but no Backups. */
  predicate Initial(w: World) {
    && w.api.backups == map[] && w.api.cnpg == map[] && w.made == map[] && w.written == map[]
    && w.born == map[] && w.parent == map[] && w.history == map[]
    && (forall j | j in w.api.jobs :: w.api.jobs[j].owner.None?)
  }

  // ---- The invariant of all runs ----

  /** uid belongs to the object now or formerly called name. */
  predicate Born(w: World, uid: Uid, name: string) {
    uid in w.born && w.born[uid] == name
  }

  predicate CnpgIs(w: World, name: string, uid: Uid) {
    name in w.api.cnpg && w.api.cnpg[name].uid == uid
  }

  predicate BackupOk(w: World, n: string)
    requires n in w.api.backups
  {
    var b := w.api.backups[n];
    && Born(w, b.uid, n) && b.uid in w.history
    && (b.ref.Some? ==> b.ref.value == n)
    && (b.state.StateSucceeded? ==>
          b.ref.Some? && (n in w.api.cnpg ==> w.api.cnpg[n].status.phase.Completed?))
    && (n in w.api.cnpg ==>
          var c := w.api.cnpg[n];
          && c.uid in w.parent && w.parent[c.uid] == b.uid
          && (c.controller.Some? ==> c.controller.value == b.uid))
    && var h := w.history[b.uid];
    && h.created <= h.unrecorded + (if b.ref.Some? then 1 else 0)
    && (h.cleaned ==> b.deleting && n !in w.api.cnpg)
  }

  /** An ID comes with a location, of which the status records the truth. */
  predicate Written(w: World, c: CnpgBackup) {
    && Records(c.status, PlaceOf(w, c))
    && Location(w, c) in w.made && w.made[Location(w, c)] == c.uid
  }

  predicate CnpgOk(w: World, n: string)
    requires n in w.api.cnpg
  {
    var c := w.api.cnpg[n];
    && Born(w, c.uid, n)
    && (c.uid in w.parent ==> Holds(w, n, w.parent[c.uid]))
    && (n !in w.api.backups ==> c.controller.None?)
    && (c.status.backupID != "" ==> Written(w, c))
  }

  /** An owned Job is one the provider built for a Backup that was being deleted under Delete. */
  predicate OwnerOk(w: World, job: Job, u: Uid) {
    && u in w.history && u in w.born && DeleteTarget(job.args).Some?
    && (Holds(w, w.born[u], u) ==> w.api.backups[w.born[u]].deleting && w.api.backups[w.born[u]].policy.Delete?)
  }

  predicate JobOk(w: World, j: string)
    requires j in w.api.jobs
  {
    w.api.jobs[j].owner.Some? ==> OwnerOk(w, w.api.jobs[j], w.api.jobs[j].owner.value)
  }

  predicate UidsOk(w: World) {
    && (forall u | u in w.born :: u < w.api.nextUid)
    && w.history.Keys <= w.born.Keys
    && w.parent.Keys <= w.born.Keys
    && w.parent.Values <= w.history.Keys
  }

  predicate BackupsOk(w: World) { forall n | n in w.api.backups :: BackupOk(w, n) }
  predicate CnpgsOk(w: World) { forall n | n in w.api.cnpg :: CnpgOk(w, n) }
  predicate JobsOk(w: World) { forall j | j in w.api.jobs :: JobOk(w, j) }

  predicate ObjectsOk(w: World) {
    UidsOk(w) && BackupsOk(w) && CnpgsOk(w) && JobsOk(w)
  }

  // ---- The invariant of orderly runs ----

  /** The Backup's data is protected: its policy asks for deletion, or may still be edited. */
  predicate Guarded(w: World, n: string) {
    n in w.api.backups ==> !(w.api.backups[n].deleting && w.api.backups[n].policy.Retain?)
  }

  /** t was written by a CNPG Backup that bore the name of the OpenEverest Backup u while u
      existed: it is part of the data of u. */
  predicate DataOf(w: World, t: Target, u: Uid) {
    t in w.made && w.made[t] in w.parent && w.parent[w.made[t]] == u
  }

  /** The base backup of c is not in the bucket and will not be written any more. */
  predicate Drained(w: World, c: CnpgBackup) {
    c.status.backupID == "" || (Final(c.status.phase) && Location(w, c) !in w.bucket)
  }

  /** A CNPG Backup is only marked for deletion once its data needs it no more. */
  predicate MarkOk(w: World, n: string)
    requires n in w.api.cnpg
  {
    w.api.cnpg[n].deleting && Guarded(w, n) ==> Drained(w, w.api.cnpg[n])
  }

  predicate MadeOk(w: World, t: Target)
    requires t in w.made
  {
    && w.made[t] in w.born
    && var n := w.born[w.made[t]];
    CnpgIs(w, n, w.made[t]) ==> w.api.cnpg[n].status.backupID != "" && t == Location(w, w.api.cnpg[n])
  }

  /** Data still in the bucket for a guarded Backup can be addressed: its CNPG Backup is there. */
  predicate Addressable(w: World, t: Target) {
    t in w.made && w.made[t] in w.parent && w.parent[w.made[t]] in w.born ==>
      var u := w.parent[w.made[t]];
      var n := w.born[u];
      Holds(w, n, u) && Guarded(w, n) ==> CnpgIs(w, n, w.made[t])
  }

  /** The Job of u addresses t, which is data of u that nobody writes any more, and the only
      data there is as long as u has a CNPG Backup. */
  predicate TargetOk(w: World, t: Target, u: Uid) {
    && DataOf(w, t, u) && w.made[t] in w.born
    && (var n := w.born[w.made[t]]; CnpgIs(w, n, w.made[t]) ==> Final(w.api.cnpg[n].status.phase))
    && (u in w.born ==>
          var n := w.born[u]; Holds(w, n, u) && n in w.api.cnpg ==> w.api.cnpg[n].uid == w.made[t])
  }

  predicate EffectOk(w: World, j: string)
    requires j in w.api.jobs
  {
    var job := w.api.jobs[j];
    job.owner.Some? && DeleteTarget(job.args).Some? ==>
      && TargetOk(w, DeleteTarget(job.args).value, job.owner.value)
      && (HasCondition(job, JobComplete) ==> DeleteTarget(job.args).value !in w.bucket)
  }

  predicate MarksOk(w: World) { forall n | n in w.api.cnpg :: MarkOk(w, n) }
  predicate AllMadeOk(w: World) { forall t | t in w.made :: MadeOk(w, t) }
  predicate AllAddressable(w: World) { forall t | t in w.bucket :: Addressable(w, t) }
  predicate EffectsOk(w: World) { forall j | j in w.api.jobs :: EffectOk(w, j) }

  predicate Inv(w: World) {
    ObjectsOk(w) && AllMadeOk(w) && MarksOk(w) && AllAddressable(w) && EffectsOk(w)
  }

  // ---- Orderly runs ----

  /** What is looked for with the help of store is at the place: each part of the address was
      recorded, or is still the same. */
  predicate Reaches(c: CnpgBackup, store: ObjectStore, place: Place) {
    && (c.status.endpointURL != "" || store.endpointURL == place.endpoint)
    && (c.status.destinationPath != "" || store.destinationPath == place.path)
    && (c.status.serverName != "" || c.cluster == place.server)
  }

  /** A Job built now for the Backup n addresses the base backup where it was written. */
  predicate WellAddressed(w: World, n: string) {
    n in w.api.backups && n in w.api.cnpg && w.api.backups[n].storage in w.api.stores ==>
      Reaches(w.api.cnpg[n], w.api.stores[w.api.backups[n].storage], PlaceOf(w, w.api.cnpg[n]))
  }

  /** The CNPG Backup n may go without leaving data behind: nothing is left, its data is no
      longer protected, or it goes at once and there is no Backup to protect it. */
  predicate Releasable(w: World, n: string)
    requires n in w.api.cnpg
  {
    || Drained(w, w.api.cnpg[n]) || !Guarded(w, n)
    || (n !in w.api.backups && !w.api.cnpg[n].finalizers)
  }

  /** What the guards leave open: a cleanup call that creates a Job creates one that addresses
      the data of a backup that is not at rest, and whoever else deletes a CNPG Backup waits, as
      Barman retention does, until it is releasable. */
  predicate Orderly(w: World, e: Event, jobName: string -> string)
    requires Enabled(w, e)
  {
    && (e.Cleanup? && Next(w, e, jobName).api.jobs != w.api.jobs ==>
          WellAddressed(w, e.name) && !AtRest(w, e.name))
    && (e.ForeignDelete? ==> Releasable(w, e.name))
  }

  /** The backup n has not begun, or waits for its WAL archive, and may yet be resumed. */
  predicate AtRest(w: World, n: string) {
    n in w.api.cnpg && (w.api.cnpg[n].status.phase.New? || w.api.cnpg[n].status.phase.WalArchivingFailing?)
  }

  predicate OrderlyRun(w: World, run: seq<Event>, jobName: string -> string)
    requires Valid(w, run, jobName)
    decreases |run|
  {
    run == [] || (Orderly(w, run[0], jobName) && OrderlyRun(Next(w, run[0], jobName), run[1..], jobName))
  }
}
