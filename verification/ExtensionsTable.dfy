/** The provider's own table meets the hypotheses of ExtensionsProtocol. */
module ExtensionsTable {
  import opened Extensions
  import opened ExtensionsProtocol
  import opened Versions

  lemma TableFieldsDiffer()
    ensures FieldsDiffer(TABLE)
  {
  }

  lemma EntryDiffers(i: nat, j: nat)
    requires i < j < |TABLE| && TABLE[i].catalogEntry != ""
    ensures TABLE[i].catalogEntry != TABLE[j].catalogEntry
  {
  }

  lemma TableEntriesDiffer()
    ensures EntriesDiffer(TABLE)
  {
    forall i, j | 0 <= i < j < |TABLE| && TABLE[i].catalogEntry != ""
      ensures TABLE[i].catalogEntry != TABLE[j].catalogEntry
    {
      EntryDiffers(i, j);
    }
  }

  lemma OnlyOneSharedName(i: nat, j: nat)
    requires i < j < |TABLE| && TABLE[i].sqlName != "" && TABLE[i].sqlName == TABLE[j].sqlName
    ensures i == 0 && j == 1
  {
  }

  lemma TableEditionsExclude()
    ensures EditionsExclude(TABLE)
  {
    forall i, j | 0 <= i < j < |TABLE| && TABLE[i].sqlName != "" && TABLE[i].sqlName == TABLE[j].sqlName
      ensures i == 0 && j == 1
    {
      OnlyOneSharedName(i, j);
    }
  }

  lemma TableCreationOnlyHasEntry()
    ensures CreationOnlyHasEntry(TABLE)
  {
  }

  lemma TableDependenciesFirst()
    ensures DependenciesFirst(TABLE)
  {
    assert TABLE[2].field == "postgis";
  }

  lemma TableIsWellFormed()
    ensures WellFormed(TABLE)
  {
    TableFieldsDiffer();
    TableEntriesDiffer();
    TableEditionsExclude();
    TableCreationOnlyHasEntry();
    TableDependenciesFirst();
  }

  /** The two TimescaleDB editions: whichever is enabled at one sync, the other is enabled at
      none, before or after. */
  lemma TimescaleEditionIsFixed(run: seq<Reconcile>, j: nat, k: nat)
    requires Runnable(TABLE, run)
    requires var syncs := After(TABLE, FRESH, run, ALL_CHECKS).syncs;
             j < |syncs| && k < |syncs| && On(TABLE[0], syncs[j])
    ensures !On(TABLE[1], After(TABLE, FRESH, run, ALL_CHECKS).syncs[k])
  {
    TableIsWellFormed();
    var oss, community := TABLE[0], TABLE[1];
    assert oss in TABLE && community in TABLE && oss.sqlName == community.sqlName && oss.field != community.field;
    if On(community, After(TABLE, FRESH, run, ALL_CHECKS).syncs[k]) {
      EditionNeverChanges(TABLE, run, j, k, oss, community);
    }
  }

  predicate Toggled(toggles: Toggles, field: string) {
    toggles.Some? && field in toggles.value && toggles.value[field]
  }

  lemma EnabledInTable(toggles: Toggles, e: Extension)
    requires e in TABLE
    ensures e in Enabled(TABLE, toggles) <==> Toggled(toggles, e.field)
  {
    EnabledIs(TABLE, toggles, e);
  }

  lemma FieldInTable(toggles: Toggles, e: Extension)
    requires e in TABLE
    ensures FieldIn(Enabled(TABLE, toggles), e.field) <==> Toggled(toggles, e.field)
  {
    EnabledInTable(toggles, e);
    if f :| f in Enabled(TABLE, toggles) && f.field == e.field { EnabledIs(TABLE, toggles, f); }
  }

  /** The extensions that can only be enabled when the Instance is created. */
  lemma CreationOnlyInTable(e: Extension)
    requires e in TABLE
    ensures CreationOnly(e) <==> e.field in {"timescaledb", "timescaledbCommunity", "pgivm", "age"}
  {
  }

  predicate IsRelease18(version: string) { version == "18" || "18." <= version }

  lemma CommunityRelease(version: string)
    ensures AtLeast(Components(version), Components(TABLE[1].minVersion)) <==> NotLess(Components(version), [18, 6])
  {
    OneOrTwoDigits("18");
    OneOrTwoDigits("6");
    TwoNumbers("18", "6");
    assert "18" + "." + "6" == TABLE[1].minVersion;
    AtLeastIsNotLess(Components(version), [18, 6]);
  }

  /** What the table demands of one entry, spelled out. */
  predicate Demands(toggles: Toggles, version: string, field: string) {
    && (field !in {"pgvector", "pgaudit"} ==> IsRelease18(version))
    && (field == "timescaledbCommunity" ==>
          NotLess(Components(version), [18, 6]) && !Toggled(toggles, "timescaledb"))
    && (field == "timescaledb" ==> !Toggled(toggles, "timescaledbCommunity"))
    && (field == "pgrouting" ==> Toggled(toggles, "postgis"))
  }

  lemma ImageEntries(e: Extension)
    requires e in TABLE
    ensures e.catalogEntry != "" <==> e.field !in {"pgvector", "pgaudit"}
    ensures e.minVersion != "" <==> e.field == "timescaledbCommunity"
    ensures e.minVersion != "" ==> e.minVersion == TABLE[1].minVersion
    ensures forall f | f in e.dependencies :: e.field == "pgrouting" && f == "postgis"
    ensures e.field == "pgrouting" ==> "postgis" in e.dependencies
    ensures forall f | f in e.conflicts ::
              (e.field == "timescaledb" && f == "timescaledbCommunity")
              || (e.field == "timescaledbCommunity" && f == "timescaledb")
    ensures e.field == "timescaledb" ==> "timescaledbCommunity" in e.conflicts
    ensures e.field == "timescaledbCommunity" ==> "timescaledb" in e.conflicts
  {
  }

  lemma NamedFields(toggles: Toggles)
    ensures
      var enabled := Enabled(TABLE, toggles);
      && (FieldIn(enabled, "postgis") <==> Toggled(toggles, "postgis"))
      && (FieldIn(enabled, "timescaledb") <==> Toggled(toggles, "timescaledb"))
      && (FieldIn(enabled, "timescaledbCommunity") <==> Toggled(toggles, "timescaledbCommunity"))
  {
    FieldInTable(toggles, TABLE[0]);
    FieldInTable(toggles, TABLE[1]);
    FieldInTable(toggles, TABLE[2]);
  }

  lemma EntryFits(toggles: Toggles, version: string, e: Extension)
    requires e in TABLE
    ensures Fits(Enabled(TABLE, toggles), version, e) <==> Demands(toggles, version, e.field)
  {
    ImageEntries(e);
    NamedFields(toggles);
    CommunityRelease(version);
    MajorIs18(version);
  }

  /** The provider's extensions are accepted exactly if: all but pgvector and pgaudit run on
      PostgreSQL 18, TimescaleDB Community on 18.6 or later, pgRouting comes with PostGIS, and
      not both editions of TimescaleDB are enabled. */
  lemma TableSupportsExactly(toggles: Toggles, version: string)
    ensures Supported(Enabled(TABLE, toggles), version) <==>
            forall e | e in TABLE && Toggled(toggles, e.field) :: Demands(toggles, version, e.field)
  {
    var enabled := Enabled(TABLE, toggles);
    forall e | e in TABLE
      ensures e in enabled <==> Toggled(toggles, e.field)
      ensures Fits(enabled, version, e) <==> Demands(toggles, version, e.field)
    {
      EnabledInTable(toggles, e);
      EntryFits(toggles, version, e);
    }
    forall e | e in enabled ensures e in TABLE { EnabledIs(TABLE, toggles, e); }
  }
}
