/** Scheduled backups: buildScheduledBackups, SyncScheduledBackups and
    ScheduleForScheduledBackup in internal/cnpg/barman/schedule.go, Mirror in
    internal/provider/backup_mirror.go. */
module Schedules {
  import opened Common
  import opened Instances
  import opened Names
  import opened Cron
  import Backups

  /** A CNPG ScheduledBackup; controller is the uid of the controlling Instance. */
  datatype ScheduledBackup = ScheduledBackup(
    schedule: string, cluster: string, storage: string, target: string, controller: Option<nat>)

  datatype Named = Named(name: string, spec: ScheduledBackup)

  datatype ScheduleError = InvalidCron(schedule: string) | InvalidParameters(schedule: string)

  /** A schedule with the storage it belongs to. */
  datatype Entry = Entry(storage: string, schedule: Schedule)

  function StorageEntries(storage: string, schedules: seq<Schedule>): seq<Entry> {
    if schedules == [] then [] else [Entry(storage, schedules[0])] + StorageEntries(storage, schedules[1..])
  }

  function Entries(storages: seq<Storage>): seq<Entry> {
    if storages == [] then [] else StorageEntries(storages[0].name, storages[0].schedules) + Entries(storages[1..])
  }

  function EntriesOf(backup: Option<BackupSpec>): seq<Entry> {
    if backup.None? then [] else Entries(backup.value.storages)
  }

  function BuildOne(hash: string -> Digest, cluster: string, e: Entry): Result<Named, ScheduleError> {
    var converted := ToCnpgSchedule(e.schedule.cron);
    if converted.Err? then Err(InvalidCron(e.schedule.name))
    else if e.schedule.target.None? then Err(InvalidParameters(e.schedule.name))
    else
      Ok(Named(ScheduledBackupName(hash, cluster, e.schedule.name),
               ScheduledBackup(converted.value, cluster, e.storage, e.schedule.target.value, None)))
  }

  function Build(hash: string -> Digest, cluster: string, entries: seq<Entry>): Result<seq<Named>, ScheduleError> {
    if entries == [] then Ok([])
    else if !entries[0].schedule.enabled then Build(hash, cluster, entries[1..])
    else
      var first := BuildOne(hash, cluster, entries[0]);
      if first.Err? then Err(first.error)
      else
        var rest := Build(hash, cluster, entries[1..]);
        if rest.Err? then rest else Ok([first.value] + rest.value)
  }

  /** What an Instance wants: nothing while its backups are off. */
  function Desired(hash: string -> Digest, i: Instance): Result<seq<Named>, ScheduleError> {
    if i.backup.Some? && i.backup.value.enabled then Build(hash, i.name, EntriesOf(i.backup)) else Ok([])
  }

  // ---- One sync, as a function ----

  function Owned(n: Named, owner: nat): ScheduledBackup {
    n.spec.(controller := Some(owner))
  }

  /** Apply every desired object in order; of two with one name the later stays. */
  function Applied(objects: map<string, ScheduledBackup>, desired: seq<Named>, owner: nat): map<string, ScheduledBackup>
    decreases |desired|
  {
    if desired == [] then objects
    else Applied(objects[desired[0].name := Owned(desired[0], owner)], desired[1..], owner)
  }

  predicate Wanted(desired: seq<Named>, name: string) {
    exists n | n in desired :: n.name == name
  }

  /** Some enabled schedule has this generated name. */
  predicate Generated(hash: string -> Digest, cluster: string, entries: seq<Entry>, name: string) {
    exists e | e in entries :: e.schedule.enabled && ScheduledBackupName(hash, cluster, e.schedule.name) == name
  }

  lemma {:induction false} BuiltNames(hash: string -> Digest, cluster: string, entries: seq<Entry>, name: string)
    requires Build(hash, cluster, entries).Ok?
    ensures Wanted(Build(hash, cluster, entries).value, name) <==> Generated(hash, cluster, entries, name)
  {
    if entries != [] {
      BuiltNames(hash, cluster, entries[1..], name);
      var e, rest := entries[0], Build(hash, cluster, entries[1..]).value;
      assert Generated(hash, cluster, entries, name) <==>
             Generated(hash, cluster, entries[1..], name)
             || (e.schedule.enabled && ScheduledBackupName(hash, cluster, e.schedule.name) == name);
      if e.schedule.enabled {
        var n := BuildOne(hash, cluster, e).value;
        assert Wanted([n] + rest, name) <==> n.name == name || Wanted(rest, name);
      }
    }
  }

  /** The objects of owner that are no longer desired. */
  function Stale(objects: map<string, ScheduledBackup>, desired: seq<Named>, owner: nat): set<string> {
    set name | name in objects && objects[name].controller == Some(owner) && !Wanted(desired, name)
  }

  function Synced(objects: map<string, ScheduledBackup>, desired: seq<Named>, owner: nat)
    : map<string, ScheduledBackup>
  {
    var applied := Applied(objects, desired, owner);
    applied - Stale(applied, desired, owner)
  }

  /** The last desired object of a name. */
  function Last(desired: seq<Named>, name: string): Named
    requires Wanted(desired, name)
  {
    if desired[|desired| - 1].name == name then desired[|desired| - 1]
    else
      assert desired == desired[..|desired| - 1] + [desired[|desired| - 1]];
      Last(desired[..|desired| - 1], name)
  }

  lemma {:induction false} AppliedAppend(objects: map<string, ScheduledBackup>, desired: seq<Named>, n: Named,
                                         owner: nat)
    ensures Applied(objects, desired + [n], owner) == Applied(objects, desired, owner)[n.name := Owned(n, owner)]
    decreases |desired|
  {
    if desired == [] {
      assert ([] + [n])[1..] == [];
    } else {
      assert (desired + [n])[1..] == desired[1..] + [n];
      AppliedAppend(objects[desired[0].name := Owned(desired[0], owner)], desired[1..], n, owner);
    }
  }

  lemma {:induction false} AppliedIs(objects: map<string, ScheduledBackup>, desired: seq<Named>, owner: nat,
                                     name: string)
    ensures
      var applied := Applied(objects, desired, owner);
      && (name in applied <==> name in objects || Wanted(desired, name))
      && (name in applied ==>
            applied[name] == if Wanted(desired, name) then Owned(Last(desired, name), owner) else objects[name])
    decreases |desired|
  {
    if desired != [] {
      var n := desired[|desired| - 1];
      var before := desired[..|desired| - 1];
      assert desired == before + [n];
      AppliedAppend(objects, before, n, owner);
      AppliedIs(objects, before, owner, name);
      assert Wanted(desired, name) <==> Wanted(before, name) || n.name == name;
    }
  }

  /** After a successful sync, from whatever was there, the Instance controls exactly the
      desired names, each as last desired, and nothing else has changed. */
  lemma SyncEstablishesDesired(objects: map<string, ScheduledBackup>, desired: seq<Named>, owner: nat)
    ensures
      var after := Synced(objects, desired, owner);
      && (forall name :: (name in after && after[name].controller == Some(owner)) <==> Wanted(desired, name))
      && (forall name | Wanted(desired, name) :: name in after && after[name] == Owned(Last(desired, name), owner))
      && (forall name | !Wanted(desired, name) ::
            if name in objects && objects[name].controller == Some(owner) then name !in after
            else (name in after <==> name in objects) && (name in objects ==> after[name] == objects[name]))
  {
    forall name ensures
        var after := Synced(objects, desired, owner);
        && ((name in after && after[name].controller == Some(owner)) <==> Wanted(desired, name))
        && (Wanted(desired, name) ==> name in after && after[name] == Owned(Last(desired, name), owner))
        && (!Wanted(desired, name) ==>
              if name in objects && objects[name].controller == Some(owner) then name !in after
              else (name in after <==> name in objects) && (name in objects ==> after[name] == objects[name]))
    {
      AppliedIs(objects, desired, owner, name);
    }
  }

  /** In terms of the spec: after a successful sync the Instance controls exactly one
      ScheduledBackup per name generated from an enabled schedule, and none while its backups
      are off. */
  lemma SyncMatchesSchedules(hash: string -> Digest, i: Instance, objects: map<string, ScheduledBackup>, name: string)
    requires Desired(hash, i).Ok?
    ensures
      var after := Synced(objects, Desired(hash, i).value, i.uid);
      (name in after && after[name].controller == Some(i.uid)) <==>
        i.backup.Some? && i.backup.value.enabled && Generated(hash, i.name, EntriesOf(i.backup), name)
  {
    SyncEstablishesDesired(objects, Desired(hash, i).value, i.uid);
    if i.backup.Some? && i.backup.value.enabled { BuiltNames(hash, i.name, EntriesOf(i.backup), name); }
  }

  // ---- What is built ----

  /** n is built from the entry e of the Instance called cluster. */
  predicate BuiltFrom(hash: string -> Digest, cluster: string, e: Entry, n: Named) {
    && e.schedule.enabled && n.name == ScheduledBackupName(hash, cluster, e.schedule.name)
    && n.spec.cluster == cluster && n.spec.storage == e.storage && e.schedule.target == Some(n.spec.target)
    && Means(n.spec.schedule, e.schedule.cron)
  }

  lemma BuildOneParts(hash: string -> Digest, cluster: string, e: Entry)
    ensures
      var r, converted := BuildOne(hash, cluster, e), ToCnpgSchedule(e.schedule.cron);
      && (r.Ok? <==> converted.Ok? && e.schedule.target.Some?)
      && (r.Ok? ==>
            r.value == Named(ScheduledBackupName(hash, cluster, e.schedule.name),
                             ScheduledBackup(converted.value, cluster, e.storage, e.schedule.target.value, None)))
  {
  }

  lemma BuildOneExactly(hash: string -> Digest, cluster: string, e: Entry)
    requires e.schedule.enabled
    ensures BuildOne(hash, cluster, e).Ok? <==> Convertible(e.schedule.cron) && e.schedule.target.Some?
    ensures BuildOne(hash, cluster, e).Ok? ==> BuiltFrom(hash, cluster, e, BuildOne(hash, cluster, e).value)
  {
    BuildOneParts(hash, cluster, e);
    ConversionExactly(e.schedule.cron);
  }

  predicate Buildable(entries: seq<Entry>) {
    forall e | e in entries && e.schedule.enabled :: Convertible(e.schedule.cron) && e.schedule.target.Some?
  }

  /** Everything built comes from an enabled entry, with its storage, its parameters and its
      cron expression in CloudNativePG's form. Building fails exactly when some enabled entry's
      expression does not convert or its parameters do not decode. */
  lemma {:induction false} BuildExactly(hash: string -> Digest, cluster: string, entries: seq<Entry>)
    ensures Build(hash, cluster, entries).Ok? <==> Buildable(entries)
    ensures Build(hash, cluster, entries).Ok? ==>
              forall n | n in Build(hash, cluster, entries).value ::
                exists e | e in entries :: BuiltFrom(hash, cluster, e, n)
  {
    if entries != [] {
      var e0, rest := entries[0], entries[1..];
      BuildExactly(hash, cluster, rest);
      if e0.schedule.enabled { BuildOneExactly(hash, cluster, e0); }
      assert forall e :: e in entries <==> e == e0 || e in rest;
      if Build(hash, cluster, entries).Ok? {
        forall n | n in Build(hash, cluster, entries).value
          ensures exists e | e in entries :: BuiltFrom(hash, cluster, e, n)
        {
          if e0.schedule.enabled && n == BuildOne(hash, cluster, e0).value {
            assert BuiltFrom(hash, cluster, e0, n);
          } else {
            assert n in Build(hash, cluster, rest).value;
          }
        }
      }
    }
  }

  /** The error is about the first enabled entry that cannot be built, and true of it. */
  lemma {:induction false} BuildFailsExactly(hash: string -> Digest, cluster: string, entries: seq<Entry>, k: nat)
    requires k < |entries| && Buildable(entries[..k]) && entries[k].schedule.enabled && !Buildable([entries[k]])
    ensures Build(hash, cluster, entries)
            == Err(if Convertible(entries[k].schedule.cron) then InvalidParameters(entries[k].schedule.name)
                   else InvalidCron(entries[k].schedule.name))
  {
    ConversionExactly(entries[0].schedule.cron);
    if k > 0 {
      assert entries[..k][0] == entries[0] && entries[..k][1..] == entries[1..][..k - 1];
      forall e | e in entries[1..][..k - 1] ensures e in entries[..k] { }
      BuildFailsExactly(hash, cluster, entries[1..], k - 1);
      BuildExactly(hash, cluster, entries[..k]);
    } else {
      assert [entries[0]][0] == entries[0];
    }
  }

  /** An Instance's wishes can be built exactly if its backups are off or all its enabled
      schedules convert and decode. */
  lemma DesiredExactly(hash: string -> Digest, i: Instance)
    ensures Desired(hash, i).Ok? <==>
            (i.backup.Some? && i.backup.value.enabled ==> Buildable(EntriesOf(i.backup)))
  {
    BuildExactly(hash, i.name, EntriesOf(i.backup));
  }

  /** After a successful sync, whatever the Instance controls is, in full, the ScheduledBackup
      of one of its enabled schedules. */
  lemma SyncedSpecsMatchSchedules(hash: string -> Digest, i: Instance, objects: map<string, ScheduledBackup>,
                                  name: string)
    requires Desired(hash, i).Ok?
    ensures
      var after := Synced(objects, Desired(hash, i).value, i.uid);
      name in after && after[name].controller == Some(i.uid) ==>
        exists e | e in EntriesOf(i.backup) ::
          BuiltFrom(hash, i.name, e, Named(name, after[name].(controller := None)))
  {
    var desired := Desired(hash, i).value;
    var after := Synced(objects, desired, i.uid);
    SyncEstablishesDesired(objects, desired, i.uid);
    if name in after && after[name].controller == Some(i.uid) {
      var n := Last(desired, name);
      LastIsOne(desired, name);
      BuildExactly(hash, i.name, EntriesOf(i.backup));
      var e :| e in EntriesOf(i.backup) && BuiltFrom(hash, i.name, e, n);
      assert BuiltFrom(hash, i.name, e, Named(name, after[name].(controller := None)));
    }
  }

  lemma {:induction false} LastIsOne(desired: seq<Named>, name: string)
    requires Wanted(desired, name)
    ensures Last(desired, name) in desired && Last(desired, name).name == name
    decreases |desired|
  {
    if desired[|desired| - 1].name != name {
      assert desired == desired[..|desired| - 1] + [desired[|desired| - 1]];
      LastIsOne(desired[..|desired| - 1], name);
    }
  }

  // ---- Two Instances ----

  /** After one Instance synced and then another, the first controls exactly what it wants and
      the other does not: a name both want changes hands, and back at the first one's next
      sync. */
  lemma LaterSyncTakesShared(objects: map<string, ScheduledBackup>, first: seq<Named>, o: nat, second: seq<Named>,
                             p: nat, name: string)
    requires o != p
    ensures
      var after := Synced(Synced(objects, first, o), second, p);
      && (name in after && after[name].controller == Some(o) <==> Wanted(first, name) && !Wanted(second, name))
      && (name in after && after[name].controller == Some(p) <==> Wanted(second, name))
  {
    var between := Synced(objects, first, o);
    SyncEstablishesDesired(objects, first, o);
    SyncEstablishesDesired(between, second, p);
    assert name in between && between[name].controller == Some(o) <==> Wanted(first, name);
  }

  /** So two Instances whose enabled schedules are the same name respelled, such as a with b-c
      and a-b with c, take their ScheduledBackup from each other at every sync. */
  lemma RespelledSchedulesChangeHands(hash: string -> Digest, i: Instance, s: Entry, j: Instance, t: Entry,
                                      objects: map<string, ScheduledBackup>)
    requires i.uid != j.uid && Desired(hash, i).Ok? && Desired(hash, j).Ok?
    requires i.backup.Some? && i.backup.value.enabled && s in EntriesOf(i.backup) && s.schedule.enabled
    requires j.backup.Some? && j.backup.value.enabled && t in EntriesOf(j.backup) && t.schedule.enabled
    requires Respelled(i.name, s.schedule.name, j.name, t.schedule.name)
    ensures
      var name := ScheduledBackupName(hash, i.name, s.schedule.name);
      var byFirst := Synced(objects, Desired(hash, i).value, i.uid);
      var bySecond := Synced(byFirst, Desired(hash, j).value, j.uid);
      && name in byFirst && byFirst[name].controller == Some(i.uid)
      && name in bySecond && bySecond[name].controller == Some(j.uid)
  {
    var name := ScheduledBackupName(hash, i.name, s.schedule.name);
    RespelledNamesCollide(hash, i.name, s.schedule.name, j.name, t.schedule.name);
    assert Generated(hash, i.name, EntriesOf(i.backup), name) && Generated(hash, j.name, EntriesOf(j.backup), name);
    var byFirst := Synced(objects, Desired(hash, i).value, i.uid);
    SyncMatchesSchedules(hash, i, objects, name);
    SyncMatchesSchedules(hash, j, byFirst, name);
  }

  // ---- Interrupted syncs ----

  /** A sync of objects may have been cut off here: after applying k desired objects, or after
      all of them and some deletions. */
  predicate CutOff(objects: map<string, ScheduledBackup>, desired: seq<Named>, owner: nat, k: nat, deleted: set<string>,
                   now: map<string, ScheduledBackup>)
  {
    && k <= |desired| && (deleted != {} ==> k == |desired|)
    && deleted <= Stale(Applied(objects, desired[..k], owner), desired, owner)
    && now == Applied(objects, desired[..k], owner) - deleted
  }

  /** Wherever a sync was cut off, the next successful one ends as the first would have. */
  lemma InterruptionsDoNotMatter(objects: map<string, ScheduledBackup>, desired: seq<Named>, owner: nat, k: nat,
                                 deleted: set<string>, now: map<string, ScheduledBackup>)
    requires CutOff(objects, desired, owner, k, deleted, now)
    ensures Synced(now, desired, owner) == Synced(objects, desired, owner)
  {
    var done, again := Synced(objects, desired, owner), Synced(now, desired, owner);
    forall name ensures (name in done <==> name in again) && (name in done ==> done[name] == again[name]) {
      AppliedIs(objects, desired, owner, name);
      AppliedIs(now, desired, owner, name);
      AppliedIs(objects, desired[..k], owner, name);
      assert Wanted(desired[..k], name) ==> Wanted(desired, name);
    }
  }

  /** A second sync changes nothing. */
  lemma SyncIsIdempotent(objects: map<string, ScheduledBackup>, desired: seq<Named>, owner: nat)
    ensures Synced(Synced(objects, desired, owner), desired, owner) == Synced(objects, desired, owner)
  {
    assert desired[..|desired|] == desired;
    InterruptionsDoNotMatter(objects, desired, owner, |desired|,
                             Stale(Applied(objects, desired, owner), desired, owner),
                             Synced(objects, desired, owner));
  }

  // ---- The inverse of the naming ----

  function ScheduleFor(hash: string -> Digest, instance: string, entries: seq<Entry>, name: string): Option<Schedule> {
    if entries == [] then None
    else if ScheduledBackupName(hash, instance, entries[0].schedule.name) == name then Some(entries[0].schedule)
    else ScheduleFor(hash, instance, entries[1..], name)
  }

  /** Every generated name is the plain <instance>-<schedule>, and no schedule occurs twice. */
  predicate PlainNames(instance: string, entries: seq<Entry>) {
    && (forall e | e in entries :: |instance + "-" + e.schedule.name| <= MAX_LENGTH)
    && (forall i, j | 0 <= i < j < |entries| :: entries[i].schedule.name != entries[j].schedule.name)
  }

  /** On plain names the lookup inverts the naming. */
  lemma {:induction false} LookupInvertsNaming(hash: string -> Digest, instance: string, entries: seq<Entry>, k: nat)
    requires k < |entries| && PlainNames(instance, entries)
    ensures ScheduleFor(hash, instance, entries, ScheduledBackupName(hash, instance, entries[k].schedule.name))
            == Some(entries[k].schedule)
  {
    var mine, first := entries[k].schedule.name, entries[0].schedule.name;
    assert entries[k] in entries && entries[0] in entries;
    if k > 0 {
      assert (instance + "-" + mine)[|instance| + 1..] == mine;
      assert (instance + "-" + first)[|instance| + 1..] == first;
      forall e | e in entries[1..] ensures e in entries { }
      LookupInvertsNaming(hash, instance, entries[1..], k - 1);
    }
  }

  /** A CNPG Backup as Mirror reads it. */
  datatype Produced = Produced(name: string, parent: string, plugin: string, storage: string, cluster: string)

  datatype Mirrored = Mirrored(
    name: string, instance: string, classRef: string, storage: string, schedule: string, target: Option<string>)

  function Mirror(hash: string -> Digest, provider: string, instances: map<string, Instance>, c: Produced)
    : Option<Mirrored>
  {
    if c.parent == "" || c.plugin != Backups.PLUGIN_NAME || c.storage == "" || c.cluster !in instances then None
    else
      var i := instances[c.cluster];
      if i.provider != provider || i.backup.None? || i.backup.value.classRef == "" then None
      else
        var schedule := ScheduleFor(hash, i.name, EntriesOf(i.backup), c.parent);
        if schedule.None? then None
        else
          var s := schedule.value;
          Some(Mirrored(c.name, i.name, i.backup.value.classRef, c.storage, s.name, s.target))
  }

  /** A CNPG Backup produced by a ScheduledBackup that an Instance wants is mirrored to a Backup
      of that Instance, with the storage, the name and the parameters of the very schedule the
      ScheduledBackup was built from. */
  lemma MirrorFindsTheSchedule(hash: string -> Digest, instances: map<string, Instance>, i: Instance, k: nat,
                               name: string)
    requires i.name in instances && instances[i.name] == i && i.backup.Some? && i.backup.value.classRef != ""
    requires var entries := EntriesOf(i.backup);
             k < |entries| && entries[k].schedule.enabled && entries[k].storage != "" && PlainNames(i.name, entries)
             && BuildOne(hash, i.name, entries[k]).Ok?
    ensures
      var e := EntriesOf(i.backup)[k];
      var sb := BuildOne(hash, i.name, e).value;
      Mirror(hash, i.provider, instances,
        Produced(name, sb.name, Backups.PLUGIN_NAME, sb.spec.storage, sb.spec.cluster))
      == Some(Mirrored(name, i.name, i.backup.value.classRef, e.storage, e.schedule.name, Some(sb.spec.target)))
  {
    var entries := EntriesOf(i.backup);
    LookupInvertsNaming(hash, i.name, entries, k);
    assert entries[k] in entries;
    assert |i.name + "-" + entries[k].schedule.name| > 0;
  }

  lemma {:induction false} ScheduleForExactly(hash: string -> Digest, instance: string, entries: seq<Entry>,
                                              name: string)
    ensures ScheduleFor(hash, instance, entries, name).Some? <==>
            exists e | e in entries :: ScheduledBackupName(hash, instance, e.schedule.name) == name
    ensures ScheduleFor(hash, instance, entries, name).Some? ==>
              exists e | e in entries ::
                && ScheduledBackupName(hash, instance, e.schedule.name) == name
                && ScheduleFor(hash, instance, entries, name) == Some(e.schedule)
  {
    if entries != [] {
      ScheduleForExactly(hash, instance, entries[1..], name);
      assert forall e :: e in entries <==> e == entries[0] || e in entries[1..];
    }
  }

  /** A CNPG Backup is mirrored exactly if it comes from a ScheduledBackup, goes to a store of
      the Barman plugin, and its Cluster is an Instance of this provider with a backup class
      and a schedule, enabled or not, of the generated name. */
  lemma MirrorsExactly(hash: string -> Digest, provider: string, instances: map<string, Instance>, c: Produced)
    ensures Mirror(hash, provider, instances, c).Some? <==>
            && c.parent != "" && c.plugin == "barman-cloud.cloudnative-pg.io" && c.storage != ""
              && c.cluster in instances
            && var i := instances[c.cluster];
            && i.provider == provider && i.backup.Some? && i.backup.value.classRef != ""
            && exists e | e in EntriesOf(i.backup) :: ScheduledBackupName(hash, i.name, e.schedule.name) == c.parent
    ensures Mirror(hash, provider, instances, c).Some? ==>
              var m := Mirror(hash, provider, instances, c).value;
              var i := instances[c.cluster];
              && m.name == c.name && m.storage == c.storage && m.instance == i.name
                && m.classRef == i.backup.value.classRef
              && exists e | e in EntriesOf(i.backup) ::
                   && ScheduledBackupName(hash, i.name, e.schedule.name) == c.parent
                   && m.schedule == e.schedule.name && m.target == e.schedule.target
  {
    if c.cluster in instances && instances[c.cluster].backup.Some? {
      var i := instances[c.cluster];
      ScheduleForExactly(hash, i.name, EntriesOf(i.backup), c.parent);
    }
  }

  /** The entries are those of all storages, with the storage they belong to. */
  lemma {:induction false} StorageEntriesExactly(storage: string, schedules: seq<Schedule>, e: Entry)
    ensures e in StorageEntries(storage, schedules) <==> e.storage == storage && e.schedule in schedules
  {
    if schedules != [] { StorageEntriesExactly(storage, schedules[1..], e); }
  }

  lemma {:induction false} EntriesExactly(storages: seq<Storage>, e: Entry)
    ensures e in Entries(storages) <==>
            exists st | st in storages :: e.storage == st.name && e.schedule in st.schedules
  {
    if storages != [] {
      StorageEntriesExactly(storages[0].name, storages[0].schedules, e);
      EntriesExactly(storages[1..], e);
      assert forall st :: st in storages <==> st == storages[0] || st in storages[1..];
    }
  }

  // ---- The methods ----

  function Extend(built: seq<Named>, rest: Result<seq<Named>, ScheduleError>): Result<seq<Named>, ScheduleError> {
    if rest.Err? then rest else Ok(built + rest.value)
  }

  lemma ExtendStep(hash: string -> Digest, cluster: string, built: seq<Named>, e: Entry, rest: seq<Entry>)
    ensures
      Extend(built, Build(hash, cluster, [e] + rest)) ==
      if !e.schedule.enabled then Extend(built, Build(hash, cluster, rest))
      else if BuildOne(hash, cluster, e).Err? then Err(BuildOne(hash, cluster, e).error)
      else Extend(built + [BuildOne(hash, cluster, e).value], Build(hash, cluster, rest))
  {
    assert ([e] + rest)[1..] == rest;
    var one, later := BuildOne(hash, cluster, e), Build(hash, cluster, rest);
    if one.Ok? && later.Ok? { assert built + ([one.value] + later.value) == (built + [one.value]) + later.value; }
  }

  lemma NextEntry(st: Storage, k: nat, later: seq<Entry>)
    requires k < |st.schedules|
    ensures StorageEntries(st.name, st.schedules[k..]) + later
            == [Entry(st.name, st.schedules[k])] + (StorageEntries(st.name, st.schedules[k + 1..]) + later)
  {
    assert st.schedules[k..][1..] == st.schedules[k + 1..];
  }

  lemma NextStorage(storages: seq<Storage>, j: nat)
    requires j < |storages|
    ensures Entries(storages[j..])
        == StorageEntries(storages[j].name, storages[j].schedules) + Entries(storages[j + 1..])
  {
    assert storages[j..][1..] == storages[j + 1..];
  }

  method BuildScheduledBackups(hash: string -> Digest, i: Instance) returns (r: Result<seq<Named>, ScheduleError>)
    ensures r == Desired(hash, i)
  {
    if i.backup.None? || !i.backup.value.enabled {
      return Ok([]);
    }
    var storages := i.backup.value.storages;
    ghost var all := Build(hash, i.name, Entries(storages));
    var built: seq<Named> := [];
    assert storages[0..] == storages;
    assert all.Ok? ==> [] + all.value == all.value;
    for j := 0 to |storages|
      invariant all == Extend(built, Build(hash, i.name, Entries(storages[j..])))
    {
      var st := storages[j];
      ghost var later := Entries(storages[j + 1..]);
      NextStorage(storages, j);
      assert st.schedules[0..] == st.schedules;
      for k := 0 to |st.schedules|
        invariant all == Extend(built, Build(hash, i.name, StorageEntries(st.name, st.schedules[k..]) + later))
      {
        var schedule := st.schedules[k];
        ghost var rest := StorageEntries(st.name, st.schedules[k + 1..]) + later;
        NextEntry(st, k, later);
        ExtendStep(hash, i.name, built, Entry(st.name, schedule), rest);
        if !schedule.enabled {
          continue;
        }
        var converted := ToCnpgSchedule(schedule.cron);
        if converted.Err? {
          return Err(InvalidCron(schedule.name));
        }
        if schedule.target.None? {
          return Err(InvalidParameters(schedule.name));
        }
        var n := Named(ScheduledBackupName(hash, i.name, schedule.name),
                       ScheduledBackup(converted.value, i.name, st.name, schedule.target.value, None));
        built := built + [n];
      }
      assert StorageEntries(st.name, st.schedules[|st.schedules|..]) + later == later;
    }
    assert built + [] == built;
    return Ok(built);
  }

  datatype SyncError = InvalidSchedule(error: ScheduleError) | ApiFailure

  class ScheduledBackups {
    const hash: string -> Digest
    var objects: map<string, ScheduledBackup>

    constructor (hash: string -> Digest, objects: map<string, ScheduledBackup>)
      ensures this.hash == hash && this.objects == objects
    {
      this.hash, this.objects := hash, objects;
    }

    /** Applies the desired objects in order while the API server accepts writes. */
    method ApplyAll(desired: seq<Named>, owner: nat, calls: nat) returns (done: nat)
      modifies this`objects
      ensures done == if calls < |desired| then calls else |desired|
      ensures objects == Applied(old(objects), desired[..done], owner)
    {
      done := 0;
      while done < |desired| && done < calls
        invariant done <= |desired| && done <= calls
        invariant objects == Applied(old(objects), desired[..done], owner)
      {
        AppliedAppend(old(objects), desired[..done], desired[done], owner);
        assert desired[..done + 1] == desired[..done] + [desired[done]];
        objects := objects[desired[done].name := Owned(desired[done], owner)];
        done := done + 1;
      }
    }

    /** Deletes what the owner controls outside keep, in whatever order it is listed. */
    method DeleteStale(keep: set<string>, owner: nat, calls: nat) returns (deleted: set<string>, complete: bool)
      modifies this`objects
      ensures
        var stale :=
          set name | name in old(objects) && old(objects)[name].controller == Some(owner) && name !in keep;
        && deleted <= stale && (complete ==> deleted == stale)
        && (!complete ==> |deleted| == calls && deleted < stale)
      ensures objects == old(objects) - deleted
    {
      var existing := objects.Keys;
      deleted := {};
      while existing != {}
        invariant existing <= old(objects).Keys
        invariant deleted == set name | name in old(objects) && old(objects)[name].controller == Some(owner)
                                        && name !in keep && name !in existing
        invariant objects == old(objects) - deleted
        invariant |deleted| <= calls
        decreases |existing|
      {
        var name :| name in existing;
        existing := existing - {name};
        if name in keep || objects[name].controller != Some(owner) {
          continue;
        }
        if |deleted| == calls {
          return deleted, false;
        }
        objects := objects - {name};
        deleted := deleted + {name};
      }
      complete := true;
    }

    /** calls is how many writes the API server accepts before it fails; a sync that needs no
        more succeeds, and any other leaves what it got done. */
    method SyncScheduledBackups(i: Instance, calls: nat) returns (error: Option<SyncError>)
      modifies this`objects
      ensures Desired(hash, i).Err? ==>
          error == Some(InvalidSchedule(Desired(hash, i).error)) && objects == old(objects)
      ensures Desired(hash, i).Ok? ==>
                var desired := Desired(hash, i).value;
                && (error == None || error == Some(ApiFailure))
                && (error == None ==> objects == Synced(old(objects), desired, i.uid))
                && (error.Some? ==> exists k, deleted :: CutOff(old(objects), desired, i.uid, k, deleted, objects))
                && (calls >= |desired| + |Stale(Applied(old(objects), desired, i.uid), desired, i.uid)| ==>
                      error == None)
    {
      var built := BuildScheduledBackups(hash, i);
      if built.Err? {
        return Some(InvalidSchedule(built.error));
      }
      var desired := built.value;
      var done := ApplyAll(desired, i.uid, calls);
      if done < |desired| {
        assert CutOff(old(objects), desired, i.uid, done, {}, objects);
        return Some(ApiFailure);
      }
      assert desired[..done] == desired;
      ghost var applied := objects;
      var keep := set n | n in desired :: n.name;
      assert forall name :: name in keep <==> Wanted(desired, name);
      var deleted, complete := DeleteStale(keep, i.uid, calls - done);
      assert Stale(applied, desired, i.uid)
             == set name | name in applied && applied[name].controller == Some(i.uid) && name !in keep;
      if !complete {
        assert CutOff(old(objects), desired, i.uid, done, deleted, objects);
        Smaller(deleted, Stale(applied, desired, i.uid));
        return Some(ApiFailure);
      }
      return None;
    }
  }

  lemma Smaller(a: set<string>, b: set<string>)
    requires a < b
    ensures |a| < |b|
  {
    var x :| x in b && x !in a;
    assert |b| == |b - {x}| + 1;
    Subset(a, b - {x});
  }

  lemma {:induction false} Subset(a: set<string>, b: set<string>)
    requires a <= b
    ensures |a| <= |b|
  {
    if a != {} {
      var x :| x in a;
      Subset(a - {x}, b - {x});
    }
  }
}
