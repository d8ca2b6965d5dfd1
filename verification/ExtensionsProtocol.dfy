/** Extensions over the life of an Instance: arbitrary spec edits, each followed by Validate
    and, if accepted, by Sync, which applies the Cluster and then the Database. A crash or a
    pending restore may come between the two. internal/provider/provider.go orders the calls. */
module ExtensionsProtocol {
  import opened Common
  import opened Versions
  import opened Extensions
  import opened ExtensionsApply

  predicate FieldsDiffer(table: seq<Extension>) {
    forall i, j | 0 <= i < j < |table| :: table[i].field != table[j].field
  }

  predicate EntriesDiffer(table: seq<Extension>) {
    forall i, j | 0 <= i < j < |table| && table[i].catalogEntry != "" :: table[i].catalogEntry != table[j].catalogEntry
  }

  /** Extensions that create the same SQL extension are creation-only and exclude each other. */
  predicate EditionsExclude(table: seq<Extension>) {
    forall i, j | 0 <= i < j < |table| && table[i].sqlName != "" && table[i].sqlName == table[j].sqlName ::
      && table[j].field in table[i].conflicts && table[i].field in table[j].conflicts
      && CreationOnly(table[i]) && CreationOnly(table[j])
  }

  predicate CreationOnlyHasEntry(table: seq<Extension>) {
    forall e | e in table && CreationOnly(e) :: e.catalogEntry != ""
  }

  predicate DependenciesFirst(table: seq<Extension>) {
    forall j | 0 <= j < |table| :: forall r | r in table[j].dependencies ::
      exists i | 0 <= i < j :: table[i].field == r && table[i].sqlName != ""
  }

  /** What a table must satisfy. */
  predicate WellFormed(table: seq<Extension>) {
    && FieldsDiffer(table) && EntriesDiffer(table) && EditionsExclude(table)
    && CreationOnlyHasEntry(table) && DependenciesFirst(table)
  }

  /** Which of the validators run; Validate runs all three. */
  datatype Checks = Checks(supported: bool, notDisabled: bool, atCreation: bool)

  const ALL_CHECKS := Checks(true, true, true)

  /** One reconcile: the spec (toggles, the Cluster built from the user's own parameters, the
      owner, the version), the catalog at the time with the images found in it, whether the
      other validations and applies succeed, and whether Sync gets as far as the Database. */
  datatype Reconcile = Reconcile(
    toggles: Toggles, base: ClusterSpec, owner: string, version: string,
    catalog: Option<Catalog>, images: map<string, Image>, others: bool, reachesDatabase: bool)

  /** syncs: the toggles of every Cluster applied so far; databaseFrom: which of them the
      Database was last applied from; last: the reconcile the Cluster was last applied in. */
  datatype State = State(
    cluster: Option<ClusterSpec>, database: Option<seq<string>>, syncs: seq<Toggles>, databaseFrom: nat,
    last: Option<Reconcile>)

  const FRESH := State(None, None, [], 0, None)

  /** The images are those ResolveExtensionImages finds. */
  predicate ImagesFound(table: seq<Extension>, r: Reconcile) {
    var enabled := Enabled(table, r.toggles);
    if NeedsImage(enabled) then
      IsInt(Major(r.version)) && r.catalog.Some? && Resolved(enabled, r.catalog.value, Major(r.version), r.images)
    else r.images == map[]
  }

  ghost predicate Accepted(table: seq<Extension>, s: State, r: Reconcile, checks: Checks) {
    var enabled := Enabled(table, r.toggles);
    && r.others
    && (checks.supported ==> Supported(enabled, r.version))
    && ImagesFound(table, r)
    && (checks.notDisabled ==> NothingDisabled(table, r.toggles, s.database))
    && (checks.atCreation ==>
      PresentAtCreation(enabled, if s.cluster.Some? then Some(s.cluster.value.extensions) else None))
  }

  ghost function Next(table: seq<Extension>, s: State, r: Reconcile, checks: Checks): State {
    if !Accepted(table, s, r, checks) then s
    else
      var enabled := Enabled(table, r.toggles);
      var cluster := Apply(r.base, enabled, r.images, r.owner);
      var synced := s.(cluster := Some(cluster), syncs := s.syncs + [r.toggles], last := Some(r));
      if r.reachesDatabase && SqlNames(enabled) != [] then
        synced.(database := Some(SqlNames(enabled)), databaseFrom := |s.syncs|)
      else synced
  }

  /** Users do not list images under the names of catalog entries themselves. */
  predicate UserExtensionsApart(table: seq<Extension>, r: Reconcile) {
    forall e | e in table && e.catalogEntry != "" :: !Lists(r.base.extensions, e.catalogEntry)
  }

  predicate Runnable(table: seq<Extension>, run: seq<Reconcile>) {
    forall r | r in run :: UserExtensionsApart(table, r)
  }

  ghost function After(table: seq<Extension>, s: State, run: seq<Reconcile>, checks: Checks): State
    decreases |run|
  {
    if run == [] then s else After(table, Next(table, s, run[0], checks), run[1..], checks)
  }

  // ---- The table, filtered ----

  lemma {:induction false} EnabledIs(table: seq<Extension>, toggles: Toggles, e: Extension)
    ensures e in Enabled(table, toggles) <==> e in table && On(e, toggles)
  {
    if table != [] { EnabledIs(table[1..], toggles, e); }
  }

  lemma {:induction false} SqlNamesIs(enabled: seq<Extension>, name: string)
    ensures name in SqlNames(enabled) <==> name != "" && SqlNameIn(enabled, name)
  {
    if enabled != [] { SqlNamesIs(enabled[1..], name); }
  }

  lemma {:induction false} EnabledAppend(table: seq<Extension>, e: Extension, toggles: Toggles)
    ensures Enabled(table + [e], toggles) == Enabled(table, toggles) + if On(e, toggles) then [e] else []
    decreases |table|
  {
    if table == [] {
      assert ([] + [e])[1..] == [];
    } else {
      assert (table + [e])[1..] == table[1..] + [e];
      EnabledAppend(table[1..], e, toggles);
    }
  }

  lemma {:induction false} SqlNamesAppend(enabled: seq<Extension>, e: Extension)
    ensures SqlNames(enabled + [e]) == SqlNames(enabled) + if e.sqlName != "" then [e.sqlName] else []
    decreases |enabled|
  {
    if enabled == [] {
      assert ([] + [e])[1..] == [];
    } else {
      assert (enabled + [e])[1..] == enabled[1..] + [e];
      SqlNamesAppend(enabled[1..], e);
    }
  }

  /** Dependencies are enabled and conflicting extensions are not. */
  predicate Compatible(enabled: seq<Extension>) {
    forall e | e in enabled ::
      && (forall r | r in e.dependencies :: FieldIn(enabled, r))
      && (forall c | c in e.conflicts :: !FieldIn(enabled, c))
  }

  lemma SameExtension(table: seq<Extension>, e: Extension, f: Extension)
    requires WellFormed(table) && e in table && f in table && e.field == f.field
    ensures e == f
  {
  }

  lemma SameEntry(table: seq<Extension>, e: Extension, f: Extension)
    requires WellFormed(table) && e in table && f in table && e.catalogEntry == f.catalogEntry != ""
    ensures e == f
  {
  }

  /** Two extensions that create the same SQL extension are never enabled together. */
  lemma OneEdition(table: seq<Extension>, toggles: Toggles, e: Extension, f: Extension)
    requires WellFormed(table) && Compatible(Enabled(table, toggles))
    requires e in table && f in table && On(e, toggles) && On(f, toggles) && e.sqlName == f.sqlName != ""
    ensures e == f
  {
    var i :| 0 <= i < |table| && table[i] == e;
    var j :| 0 <= j < |table| && table[j] == f;
    EnabledIs(table, toggles, e);
    EnabledIs(table, toggles, f);
    if i != j {
      var lower, upper := if i < j then i else j, if i < j then j else i;
      assert table[upper].field in table[lower].conflicts;
      assert FieldIn(Enabled(table, toggles), table[upper].field);
    }
  }

  // ---- The order of CREATE EXTENSION ----

  /** Every dependency of e is created under one of the names. */
  predicate DependenciesIn(table: seq<Extension>, e: Extension, names: seq<string>) {
    forall r | r in e.dependencies :: exists d | d in table :: d.field == r && d.sqlName in names
  }

  /** Every name stands for an enabled extension all of whose dependencies come before it. */
  predicate AfterDependencies(table: seq<Extension>, toggles: Toggles, names: seq<string>, i: nat)
    requires i < |names|
  {
    exists e | e in table :: On(e, toggles) && e.sqlName == names[i] && DependenciesIn(table, e, names[..i])
  }

  predicate Distinct(names: seq<string>) {
    forall i, j | 0 <= i < j < |names| :: names[i] != names[j]
  }

  predicate InOrder(table: seq<Extension>, toggles: Toggles, names: seq<string>) {
    Distinct(names) && forall i | 0 <= i < |names| :: AfterDependencies(table, toggles, names, i)
  }

  /** names are the SQL names of the enabled extensions among the first n. */
  predicate NamesOf(table: seq<Extension>, toggles: Toggles, n: nat, names: seq<string>)
    requires n <= |table|
  {
    && (forall k | 0 <= k < n && On(table[k], toggles) && table[k].sqlName != "" :: table[k].sqlName in names)
    && (forall name | name in names :: exists k | 0 <= k < n :: On(table[k], toggles) && table[k].sqlName == name)
  }

  lemma NamesAppend(table: seq<Extension>, toggles: Toggles, n: nat)
    requires 0 < n <= |table|
    ensures
      var e := table[n - 1];
      SqlNames(Enabled(table[..n], toggles))
      == SqlNames(Enabled(table[..n - 1], toggles)) + if On(e, toggles) && e.sqlName != "" then [e.sqlName] else []
  {
    var e := table[n - 1];
    var enabled := Enabled(table[..n - 1], toggles);
    assert table[..n] == table[..n - 1] + [e];
    EnabledAppend(table[..n - 1], e, toggles);
    SqlNamesAppend(enabled, e);
    assert enabled + [] == enabled && SqlNames(enabled) + [] == SqlNames(enabled);
  }

  /** The Database lists each SQL extension once and after its dependencies. */
  lemma {:induction false} NamesInOrder(table: seq<Extension>, toggles: Toggles, n: nat)
    requires WellFormed(table) && Compatible(Enabled(table, toggles)) && n <= |table|
    ensures
      var names := SqlNames(Enabled(table[..n], toggles));
      InOrder(table, toggles, names) && NamesOf(table, toggles, n, names)
    decreases n
  {
    if n > 0 {
      NamesInOrder(table, toggles, n - 1);
      NamesAppend(table, toggles, n);
      var before := SqlNames(Enabled(table[..n - 1], toggles));
      if On(table[n - 1], toggles) && table[n - 1].sqlName != "" {
        LastName(table, toggles, n, before);
      } else {
        assert before + [] == before;
        SameNames(table, toggles, n, before);
      }
    }
  }

  lemma SameNames(table: seq<Extension>, toggles: Toggles, n: nat, before: seq<string>)
    requires 0 < n <= |table| && !(On(table[n - 1], toggles) && table[n - 1].sqlName != "")
    requires NamesOf(table, toggles, n - 1, before)
    ensures NamesOf(table, toggles, n, before)
  {
  }

  lemma LastName(table: seq<Extension>, toggles: Toggles, n: nat, before: seq<string>)
    requires WellFormed(table) && Compatible(Enabled(table, toggles)) && 0 < n <= |table|
    requires On(table[n - 1], toggles) && table[n - 1].sqlName != ""
    requires InOrder(table, toggles, before) && NamesOf(table, toggles, n - 1, before)
    ensures InOrder(table, toggles, before + [table[n - 1].sqlName])
    ensures NamesOf(table, toggles, n, before + [table[n - 1].sqlName])
  {
    var e := table[n - 1];
    var names := before + [e.sqlName];
    NewNameIsNew(table, toggles, n, before);
    forall i | 0 <= i < |names| ensures AfterDependencies(table, toggles, names, i) {
      assert names[..i] == if i < |before| then before[..i] else before;
      if i < |before| { assert AfterDependencies(table, toggles, before, i); }
    }
    forall name | name in names ensures exists k | 0 <= k < n :: On(table[k], toggles) && table[k].sqlName == name {
      if name in before {
        var k :| 0 <= k < n - 1 && On(table[k], toggles) && table[k].sqlName == name;
      } else {
        assert table[n - 1].sqlName == name;
      }
    }
  }

  lemma NewNameIsNew(table: seq<Extension>, toggles: Toggles, n: nat, before: seq<string>)
    requires WellFormed(table) && Compatible(Enabled(table, toggles)) && 0 < n <= |table|
    requires On(table[n - 1], toggles) && table[n - 1].sqlName != ""
    requires NamesOf(table, toggles, n - 1, before)
    ensures table[n - 1].sqlName !in before
    ensures DependenciesIn(table, table[n - 1], before)
  {
    var e := table[n - 1];
    EnabledIs(table, toggles, e);
    if e.sqlName in before {
      var k :| 0 <= k < n - 1 && On(table[k], toggles) && table[k].sqlName == e.sqlName;
      OneEdition(table, toggles, table[k], e);
    }
    forall r | r in e.dependencies ensures exists d | d in table :: d.field == r && d.sqlName in before {
      var i :| 0 <= i < n - 1 && table[i].field == r && table[i].sqlName != "";
      var d :| d in Enabled(table, toggles) && d.field == r;
      EnabledIs(table, toggles, d);
      SameExtension(table, d, table[i]);
    }
  }

  // ---- The invariant ----

  /** Whatever is creation-only and enabled at a sync was enabled at every earlier one. */
  predicate CreationOnlyFromTheStart(table: seq<Extension>, syncs: seq<Toggles>) {
    forall j, k, e | 0 <= j <= k < |syncs| && e in table && CreationOnly(e) && On(e, syncs[k]) :: On(e, syncs[j])
  }

  predicate AllCompatible(table: seq<Extension>, syncs: seq<Toggles>) {
    forall k | 0 <= k < |syncs| :: Compatible(Enabled(table, syncs[k]))
  }

  /** The entry of the catalog for e, as the reconcile found it. */
  function CatalogImage(r: Reconcile, e: Extension): Option<ExtensionConfig> {
    if r.catalog.None? then None else Find(CatalogEntries(r.catalog.value, Major(r.version)), e.catalogEntry)
  }

  /** The Cluster carries the images of exactly the enabled extensions, as the catalog of that
      reconcile had them, and their libraries. */
  predicate ClusterServes(table: seq<Extension>, c: ClusterSpec, r: Reconcile) {
    && (forall e | e in table && e.catalogEntry != "" :: Lists(c.extensions, e.catalogEntry) <==> On(e, r.toggles))
    && (forall e | e in table && e.catalogEntry != "" ::
          forall config | config in c.extensions && config.name == e.catalogEntry :: CatalogImage(r, e) == Some(config))
    && (forall e | e in table && On(e, r.toggles) :: forall l | l in e.libraries :: l in c.libraries)
  }

  /** Everything the Database creates is still enabled. */
  predicate DatabaseBacked(table: seq<Extension>, names: seq<string>, toggles: Toggles) {
    forall name | name in names :: name in SqlNames(Enabled(table, toggles))
  }

  predicate Inv(table: seq<Extension>, s: State) {
    && (s.cluster.None? <==> s.syncs == [])
    && CreationOnlyFromTheStart(table, s.syncs)
    && AllCompatible(table, s.syncs)
    && (s.cluster.Some? ==>
          && s.last.Some? && s.last.value.toggles == s.syncs[|s.syncs| - 1]
          && ClusterServes(table, s.cluster.value, s.last.value))
    && (s.database.Some? ==>
          && s.databaseFrom < |s.syncs|
          && s.database.value == SqlNames(Enabled(table, s.syncs[s.databaseFrom]))
          && DatabaseBacked(table, s.database.value, s.syncs[|s.syncs| - 1]))
  }

  lemma AppliedImageIsTheCatalogs(table: seq<Extension>, r: Reconcile, e: Extension, config: ExtensionConfig)
    requires UserExtensionsApart(table, r) && ImagesFound(table, r)
    requires e in table && e.catalogEntry != "" && config.name == e.catalogEntry
    requires config in Apply(r.base, Enabled(table, r.toggles), r.images, r.owner).extensions
    ensures CatalogImage(r, e) == Some(config)
  {
    var enabled := Enabled(table, r.toggles);
    assert NamedImages(r.images);
    ImagesExactly(r.base, enabled, r.images, r.owner, config);
    var f :| f in enabled && BroughtBy(r.base, f, r.images, config);
    assert f.catalogEntry == e.catalogEntry;
  }

  lemma AppliedClusterServes(table: seq<Extension>, r: Reconcile)
    requires WellFormed(table) && UserExtensionsApart(table, r) && ImagesFound(table, r)
    ensures ClusterServes(table, Apply(r.base, Enabled(table, r.toggles), r.images, r.owner), r)
  {
    var enabled := Enabled(table, r.toggles);
    var c := Apply(r.base, enabled, r.images, r.owner);
    assert NamedImages(r.images);
    ApplyServes(r.base, enabled, r.images, r.owner);
    forall e | e in table ensures
        && (e.catalogEntry != "" ==> (Lists(c.extensions, e.catalogEntry) <==> On(e, r.toggles)))
        && (On(e, r.toggles) ==> forall l | l in e.libraries :: l in c.libraries)
    {
      EnabledIs(table, r.toggles, e);
      if On(e, r.toggles) {
        assert Served(c, e, r.images, r.owner);
      } else if e.catalogEntry != "" {
        OnlyEnabledImages(r.base, enabled, r.images, r.owner, e.catalogEntry);
        if f :| f in enabled && f.catalogEntry == e.catalogEntry {
          EnabledIs(table, r.toggles, f);
          SameEntry(table, e, f);
        }
      }
    }
    forall e, config | e in table && e.catalogEntry != "" && config in c.extensions && config.name == e.catalogEntry
      ensures CatalogImage(r, e) == Some(config)
    {
      AppliedImageIsTheCatalogs(table, r, e, config);
    }
  }

  lemma SyncKeepsCreationOnly(table: seq<Extension>, s: State, r: Reconcile)
    requires WellFormed(table) && Inv(table, s) && Accepted(table, s, r, ALL_CHECKS)
    ensures CreationOnlyFromTheStart(table, s.syncs + [r.toggles])
  {
    var syncs := s.syncs + [r.toggles];
    forall j, k, e | 0 <= j <= k < |syncs| && e in table && CreationOnly(e) && On(e, syncs[k]) ensures On(e, syncs[j]) {
      if k == |s.syncs| && j < k {
        EnabledIs(table, r.toggles, e);
        assert Lists(s.cluster.value.extensions, e.catalogEntry);
        assert On(e, s.syncs[k - 1]);
      }
    }
  }

  lemma SyncKeepsDatabaseBacked(table: seq<Extension>, s: State, r: Reconcile)
    requires WellFormed(table) && Inv(table, s) && Accepted(table, s, r, ALL_CHECKS) && s.database.Some?
    ensures DatabaseBacked(table, s.database.value, r.toggles)
  {
    var installed := s.syncs[s.databaseFrom];
    forall name | name in s.database.value ensures name in SqlNames(Enabled(table, r.toggles)) {
      SqlNamesIs(Enabled(table, installed), name);
      var e :| e in Enabled(table, installed) && e.sqlName == name;
      EnabledIs(table, installed, e);
      EnabledIs(table, r.toggles, e);
      SqlNamesIs(Enabled(table, r.toggles), name);
    }
  }

  lemma NextKeepsInv(table: seq<Extension>, s: State, r: Reconcile)
    requires WellFormed(table) && Inv(table, s) && UserExtensionsApart(table, r)
    ensures Inv(table, Next(table, s, r, ALL_CHECKS))
  {
    if Accepted(table, s, r, ALL_CHECKS) {
      AppliedClusterServes(table, r);
      SyncKeepsCreationOnly(table, s, r);
      if s.database.Some? { SyncKeepsDatabaseBacked(table, s, r); }
      assert Compatible(Enabled(table, r.toggles));
    }
  }

  lemma {:induction false} RunKeepsInv(table: seq<Extension>, s: State, run: seq<Reconcile>)
    requires WellFormed(table) && Inv(table, s) && Runnable(table, run)
    ensures Inv(table, After(table, s, run, ALL_CHECKS))
    decreases |run|
  {
    if run != [] {
      assert run[0] in run;
      NextKeepsInv(table, s, run[0]);
      RunKeepsInv(table, Next(table, s, run[0], ALL_CHECKS), run[1..]);
    }
  }

  // ---- The results ----

  /** Over all edits since the Cluster was created, a creation-only extension that is enabled
      at any sync was enabled at every earlier one, the first included. */
  lemma CreationOnlyMeansFromCreation(table: seq<Extension>, run: seq<Reconcile>, j: nat, k: nat, e: Extension)
    requires WellFormed(table) && Runnable(table, run) && e in table && CreationOnly(e)
    requires var syncs := After(table, FRESH, run, ALL_CHECKS).syncs; j <= k < |syncs| && On(e, syncs[k])
    ensures On(e, After(table, FRESH, run, ALL_CHECKS).syncs[j])
  {
    RunKeepsInv(table, FRESH, run);
  }

  /** Of the extensions that create one SQL extension, such as the two TimescaleDB editions,
      no two are ever enabled, not even at different syncs. */
  lemma EditionNeverChanges(table: seq<Extension>, run: seq<Reconcile>, j: nat, k: nat, e: Extension, f: Extension)
    requires WellFormed(table) && Runnable(table, run)
    requires e in table && f in table && e.sqlName == f.sqlName != ""
    requires var syncs := After(table, FRESH, run, ALL_CHECKS).syncs;
             j < |syncs| && k < |syncs| && On(e, syncs[j]) && On(f, syncs[k])
    ensures e == f
  {
    RunKeepsInv(table, FRESH, run);
    var syncs := After(table, FRESH, run, ALL_CHECKS).syncs;
    if e != f {
      var first := if j <= k then j else k;
      SharedNameIsCreationOnly(table, e, f);
      assert On(e, syncs[first]) && On(f, syncs[first]);
      OneEdition(table, syncs[first], e, f);
    }
  }

  lemma SharedNameIsCreationOnly(table: seq<Extension>, e: Extension, f: Extension)
    requires WellFormed(table) && e in table && f in table && e != f && e.sqlName == f.sqlName != ""
    ensures CreationOnly(e) && CreationOnly(f)
  {
  }

  /** name is created by an enabled extension whose libraries the Cluster preloads, and for
      which it lists, if it needs an image, the catalog's and no other. */
  predicate NameServed(table: seq<Extension>, c: ClusterSpec, r: Reconcile, name: string) {
    exists e | e in table ::
      && e.sqlName == name && On(e, r.toggles)
      && (e.catalogEntry != "" ==>
            && CatalogImage(r, e).Some? && CatalogImage(r, e).value in c.extensions
            && forall config | config in c.extensions && config.name == e.catalogEntry ::
                 CatalogImage(r, e) == Some(config))
      && (forall l | l in e.libraries :: l in c.libraries)
  }

  lemma BackedNameIsServed(table: seq<Extension>, c: ClusterSpec, r: Reconcile, name: string)
    requires ClusterServes(table, c, r) && name in SqlNames(Enabled(table, r.toggles))
    ensures NameServed(table, c, r, name)
  {
    SqlNamesIs(Enabled(table, r.toggles), name);
    var e :| e in Enabled(table, r.toggles) && e.sqlName == name;
    EnabledIs(table, r.toggles, e);
    if e.catalogEntry != "" {
      var config :| config in c.extensions && config.name == e.catalogEntry;
      assert CatalogImage(r, e) == Some(config);
    }
  }

  /** In every state, also between the two applies, the Database lists each SQL extension once
      and after its dependencies. */
  lemma DatabaseIsOrdered(table: seq<Extension>, run: seq<Reconcile>)
    requires WellFormed(table) && Runnable(table, run)
    ensures
      var s := After(table, FRESH, run, ALL_CHECKS);
      s.database.Some? ==> s.databaseFrom < |s.syncs| && InOrder(table, s.syncs[s.databaseFrom], s.database.value)
  {
    RunKeepsInv(table, FRESH, run);
    var s := After(table, FRESH, run, ALL_CHECKS);
    if s.database.Some? {
      NamesInOrder(table, s.syncs[s.databaseFrom], |table|);
      assert table[..|table|] == table;
    }
  }

  lemma InvServes(table: seq<Extension>, s: State, name: string)
    requires Inv(table, s) && s.database.Some? && name in s.database.value
    ensures s.cluster.Some? && s.last.Some? && NameServed(table, s.cluster.value, s.last.value, name)
  {
    BackedNameIsServed(table, s.cluster.value, s.last.value, name);
  }

  /** Each of these SQL extensions is that of something still enabled whose preload libraries are
      on the Cluster, and its image exactly as the catalog had it at the last sync. */
  lemma DatabaseIsServed(table: seq<Extension>, run: seq<Reconcile>, name: string)
    requires WellFormed(table) && Runnable(table, run)
    requires var s := After(table, FRESH, run, ALL_CHECKS); s.database.Some? && name in s.database.value
    ensures
      var s := After(table, FRESH, run, ALL_CHECKS);
      s.cluster.Some? && s.last.Some? && NameServed(table, s.cluster.value, s.last.value, name)
  {
    RunKeepsInv(table, FRESH, run);
    InvServes(table, After(table, FRESH, run, ALL_CHECKS), name);
  }

  /** The names in the Database only grow. */
  lemma {:induction false} DatabaseOnlyGrows(table: seq<Extension>, s: State, run: seq<Reconcile>, name: string)
    requires WellFormed(table) && Inv(table, s) && Runnable(table, run)
    requires s.database.Some? && name in s.database.value
    ensures var s' := After(table, s, run, ALL_CHECKS); s'.database.Some? && name in s'.database.value
    decreases |run|
  {
    if run != [] {
      assert run[0] in run;
      var next := Next(table, s, run[0], ALL_CHECKS);
      NextKeepsInv(table, s, run[0]);
      if Accepted(table, s, run[0], ALL_CHECKS) { SyncKeepsDatabaseBacked(table, s, run[0]); }
      DatabaseOnlyGrows(table, next, run[1..], name);
    }
  }

  // ---- No validator is redundant ----

  lemma {:induction false} BothNamed(enabled: seq<Extension>, i: nat, j: nat)
    requires i < j < |enabled| && enabled[i].sqlName == enabled[j].sqlName != ""
    ensures !Distinct(SqlNames(enabled))
  {
    var names := SqlNames(enabled);
    if i > 0 {
      BothNamed(enabled[1..], i - 1, j - 1);
      var rest := SqlNames(enabled[1..]);
      var a, b :| 0 <= a < b < |rest| && rest[a] == rest[b];
      var shift := |names| - |rest|;
      assert names[a + shift] == rest[a] && names[b + shift] == rest[b];
    } else {
      assert enabled[1..][j - 1] == enabled[j];
      SqlNamesIs(enabled[1..], enabled[j].sqlName);
      var a :| 0 <= a < |names[1..]| && names[1..][a] == enabled[j].sqlName;
      assert names[0] == names[a + 1];
    }
  }

  /** Without ValidateExtensions, two editions enabled at creation are accepted and listed
      twice. */
  lemma WithoutSupportedNamesRepeat(table: seq<Extension>, r: Reconcile, e: Extension, f: Extension)
    requires ImagesFound(table, r) && r.others && r.reachesDatabase
    requires e in table && f in table && e != f && On(e, r.toggles) && On(f, r.toggles) && e.sqlName == f.sqlName != ""
    ensures var s := Next(table, FRESH, r, ALL_CHECKS.(supported := false));
            s.database.Some? && !Distinct(s.database.value)
  {
    var enabled := Enabled(table, r.toggles);
    EnabledIs(table, r.toggles, e);
    EnabledIs(table, r.toggles, f);
    var i :| 0 <= i < |enabled| && enabled[i] == e;
    var j :| 0 <= j < |enabled| && enabled[j] == f;
    BothNamed(enabled, if i < j then i else j, if i < j then j else i);
    SqlNamesIs(enabled, e.sqlName);
  }

  /** Without ValidateExtensionsNotDisabled, switching everything off is accepted and leaves
      names in the Database that nothing serves. */
  lemma WithoutNotDisabledNamesAreOrphaned(table: seq<Extension>, s: State, r: Reconcile, name: string)
    requires s.database.Some? && name in s.database.value
    requires r.others && r.toggles.None? && r.images == map[]
    ensures var s' := Next(table, s, r, ALL_CHECKS.(notDisabled := false));
            && s'.database == s.database && s'.cluster.Some? && |s'.syncs| == |s.syncs| + 1
            && !NameServed(table, s'.cluster.value, r, name)
  {
    assert Enabled(table, r.toggles) == [] by {
      if Enabled(table, r.toggles) != [] { EnabledIs(table, r.toggles, Enabled(table, r.toggles)[0]); }
    }
  }

  /** Replacing one edition e by another, f, looks to ValidateExtensionsNotDisabled as if
      nothing were disabled. */
  lemma SwitchDisablesNothing(table: seq<Extension>, s: State, toggles: Toggles, e: Extension, f: Extension)
    requires s.cluster.Some? && s.syncs != [] && f in table && e.sqlName == f.sqlName != "" && On(f, toggles)
    requires var last := s.syncs[|s.syncs| - 1];
             && (s.database.Some? ==> DatabaseBacked(table, s.database.value, last))
             && forall g | g in table && g != e && On(g, last) :: On(g, toggles)
    ensures NothingDisabled(table, toggles, s.database)
  {
    var enabled := Enabled(table, toggles);
    var last := s.syncs[|s.syncs| - 1];
    EnabledIs(table, toggles, f);
    forall g | s.database.Some? && g in table && g.sqlName != "" && !On(g, toggles) && !SqlNameIn(enabled, g.sqlName)
      ensures g.sqlName !in s.database.value
    {
      if g.sqlName in s.database.value {
        SqlNamesIs(Enabled(table, last), g.sqlName);
        var h :| h in Enabled(table, last) && h.sqlName == g.sqlName;
        EnabledIs(table, last, h);
        EnabledIs(table, toggles, h);
      }
    }
  }

  /** Without ValidateExtensionsAtCreation, replacing one edition by the other passes the other
      two validators, and the edition has changed. */
  lemma WithoutAtCreationEditionsSwitch(table: seq<Extension>, s: State, r: Reconcile, e: Extension, f: Extension)
    requires WellFormed(table) && Inv(table, s) && s.cluster.Some? && r.others
    requires e in table && f in table && e != f && e.sqlName == f.sqlName != ""
    requires var last := s.syncs[|s.syncs| - 1];
             On(e, last) && On(f, r.toggles) && forall g | g in table && g != e && On(g, last) :: On(g, r.toggles)
    requires Supported(Enabled(table, r.toggles), r.version) && ImagesFound(table, r)
    ensures var s' := Next(table, s, r, ALL_CHECKS.(atCreation := false));
            |s'.syncs| == |s.syncs| + 1 && On(e, s'.syncs[|s.syncs| - 1]) && On(f, s'.syncs[|s.syncs|])
              && !On(e, s'.syncs[|s.syncs|])
  {
    var enabled := Enabled(table, r.toggles);
    SwitchDisablesNothing(table, s, r.toggles, e, f);
    if On(e, r.toggles) {
      assert Compatible(enabled);
      OneEdition(table, r.toggles, e, f);
    }
  }

  // ---- What is accepted ----

  /** Enabled is what its toggle says, and nothing without toggles. */
  lemma EnabledExactly(table: seq<Extension>, toggles: Toggles, e: Extension)
    ensures e in Enabled(table, toggles) <==>
            e in table && toggles.Some? && e.field in toggles.value && toggles.value[e.field] == true
  {
    EnabledIs(table, toggles, e);
  }

  /** In every reachable state with a Cluster, an edit is accepted exactly if its images resolve,
      its extensions suit the release and each other, those that are creation-only were enabled
      at the last sync, and every SQL extension of the Database is still that of something
      enabled. Nothing else stands in its way but the checks of other parts. */
  lemma EditsAcceptedExactly(table: seq<Extension>, s: State, r: Reconcile)
    requires WellFormed(table) && Inv(table, s) && s.cluster.Some?
    ensures Accepted(table, s, r, ALL_CHECKS) <==>
            && r.others && Supported(Enabled(table, r.toggles), r.version) && ImagesFound(table, r)
            && (forall e | e in table && CreationOnly(e) && On(e, r.toggles) :: On(e, s.syncs[|s.syncs| - 1]))
            && (s.database.Some? ==>
                  forall name | name in s.database.value :: SqlNameIn(Enabled(table, r.toggles), name))
  {
    var enabled := Enabled(table, r.toggles);
    forall e | e in table ensures e in enabled <==> On(e, r.toggles) { EnabledIs(table, r.toggles, e); }
    forall e | e in enabled ensures e in table { EnabledIs(table, r.toggles, e); }
    DisabledExactly(table, s, r.toggles);
  }

  lemma DisabledExactly(table: seq<Extension>, s: State, toggles: Toggles)
    requires Inv(table, s)
    ensures NothingDisabled(table, toggles, s.database) <==>
            (s.database.Some? ==> forall name | name in s.database.value :: SqlNameIn(Enabled(table, toggles), name))
  {
    var enabled := Enabled(table, toggles);
    if s.database.Some? {
      var installed := s.syncs[s.databaseFrom];
      forall name | name in s.database.value
        ensures name != "" && exists e | e in table :: e.sqlName == name
      {
        SqlNamesIs(Enabled(table, installed), name);
        var e :| e in Enabled(table, installed) && e.sqlName == name;
        EnabledIs(table, installed, e);
      }
      forall e | e in table && On(e, toggles) ensures e in enabled { EnabledIs(table, toggles, e); }
    }
  }

  /** Before there is a Cluster only the first two apply. */
  lemma CreationAcceptedExactly(table: seq<Extension>, r: Reconcile)
    ensures Accepted(table, FRESH, r, ALL_CHECKS) <==>
            r.others && Supported(Enabled(table, r.toggles), r.version) && ImagesFound(table, r)
  {
  }
}
