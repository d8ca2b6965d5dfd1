/** First-class extensions, internal/cnpg/extensions.go: the table, the validators, and what
    they put on the Cluster and the Database. Everything takes the table as a parameter. */
module Extensions {
  import opened Common
  import opened Versions

  datatype Extension = Extension(
    field: string, catalogEntry: string, sqlName: string, minVersion: string, libraries: seq<string>,
    defaults: map<string, string>, dependencies: seq<string>, conflicts: seq<string>, bootstrapSQL: Option<string>)

  const TIMESCALE_DEFAULTS: map<string, string> :=
    map["timescaledb.telemetry_level" := "off", "max_locks_per_transaction" := "128"]

  const TABLE: seq<Extension> := [
    Extension("timescaledb", "timescaledb-oss", "timescaledb", "", ["timescaledb"],
              TIMESCALE_DEFAULTS, [], ["timescaledbCommunity"], None),
    Extension("timescaledbCommunity", "timescaledb", "timescaledb", "18.6", ["timescaledb"],
              TIMESCALE_DEFAULTS, [], ["timescaledb"], None),
    Extension("postgis", "postgis", "postgis", "", [], map[], [], [], None),
    Extension("pgrouting", "pgrouting", "pgrouting", "", [], map[], ["postgis"], [], None),
    Extension("pgvector", "", "vector", "", [], map[], [], [], None),
    Extension("pgivm", "pg-ivm", "pg_ivm", "", ["pg_ivm"], map[], [], [], None),
    Extension("pgaudit", "", "", "", [], map["pgaudit.log" := "ddl, role"], [], [], None),
    Extension("wal2json", "wal2json", "", "", [], map[], [], [], None),
    Extension("age", "age", "age", "", ["age"], map[], [], [],
              Some("ALTER DEFAULT PRIVILEGES FOR ROLE postgres GRANT USAGE ON SCHEMAS TO "))
  ]

  const IMAGE_VOLUME_MAJOR := "18"
  const DEFAULT_VERSION := "18.6"
  const SQL_VERSION_PREFIX := "sql-version.extensions.openeverest.io/"

  /** parameters.extensions: None when it is absent, and a toggle may be absent from it. */
  type Toggles = Option<map<string, bool>>

  predicate On(e: Extension, toggles: Toggles) {
    toggles.Some? && e.field in toggles.value && toggles.value[e.field]
  }

  function Enabled(table: seq<Extension>, toggles: Toggles): seq<Extension> {
    if table == [] then []
    else (if On(table[0], toggles) then [table[0]] else []) + Enabled(table[1..], toggles)
  }

  predicate CreationOnly(e: Extension) {
    e.bootstrapSQL.Some? || (e.catalogEntry != "" && e.libraries != [])
  }

  // ---- Versions and validation ----

  function PostgresVersion(engine: string, instance: string): string {
    OrElse(engine, OrElse(instance, DEFAULT_VERSION))
  }

  /** The part before the first dot. */
  function Major(version: string): string {
    Split(version, '.')[0]
  }

  predicate FieldIn(enabled: seq<Extension>, field: string) {
    exists e | e in enabled :: e.field == field
  }

  predicate SqlNameIn(enabled: seq<Extension>, sqlName: string) {
    exists e | e in enabled :: e.sqlName == sqlName
  }

  /** The release suits e, its dependencies are enabled, conflicting extensions are not. */
  ghost predicate Fits(enabled: seq<Extension>, version: string, e: Extension) {
    && (e.catalogEntry != "" ==> Major(version) == IMAGE_VOLUME_MAJOR)
    && (e.minVersion != "" ==> AtLeast(Components(version), Components(e.minVersion)))
    && (forall r | r in e.dependencies :: FieldIn(enabled, r))
    && (forall c | c in e.conflicts :: !FieldIn(enabled, c))
  }

  /** ValidateExtensions accepts. */
  ghost predicate Supported(enabled: seq<Extension>, version: string) {
    forall e | e in enabled :: Fits(enabled, version, e)
  }

  datatype ExtensionError =
    | WrongMajor(field: string) | TooOld(field: string)
    | MissingDependency(field: string, other: string) | Conflict(field: string, other: string)

  /** The error is about e, and true of it. */
  ghost predicate Explains(enabled: seq<Extension>, version: string, e: Extension, error: ExtensionError) {
    && error.field == e.field
    && match error
       case WrongMajor(_) => e.catalogEntry != "" && Major(version) != IMAGE_VOLUME_MAJOR
       case TooOld(_) => e.minVersion != "" && !AtLeast(Components(version), Components(e.minVersion))
       case MissingDependency(_, r) => r in e.dependencies && !FieldIn(enabled, r)
       case Conflict(_, c) => c in e.conflicts && FieldIn(enabled, c)
  }

  method HasField(enabled: seq<Extension>, field: string) returns (found: bool)
    ensures found <==> FieldIn(enabled, field)
  {
    for i := 0 to |enabled|
      invariant forall k | 0 <= k < i :: enabled[k].field != field
    {
      if enabled[i].field == field {
        return true;
      }
    }
    return false;
  }

  method FirstMissing(enabled: seq<Extension>, fields: seq<string>) returns (missing: Option<string>)
    ensures missing.None? ==> forall f | f in fields :: FieldIn(enabled, f)
    ensures missing.Some? ==> missing.value in fields && !FieldIn(enabled, missing.value)
  {
    for j := 0 to |fields|
      invariant forall k | 0 <= k < j :: FieldIn(enabled, fields[k])
    {
      var found := HasField(enabled, fields[j]);
      if !found {
        return Some(fields[j]);
      }
    }
    return None;
  }

  method FirstEnabled(enabled: seq<Extension>, fields: seq<string>) returns (present: Option<string>)
    ensures present.None? ==> forall f | f in fields :: !FieldIn(enabled, f)
    ensures present.Some? ==> present.value in fields && FieldIn(enabled, present.value)
  {
    for j := 0 to |fields|
      invariant forall k | 0 <= k < j :: !FieldIn(enabled, fields[k])
    {
      var found := HasField(enabled, fields[j]);
      if found {
        return Some(fields[j]);
      }
    }
    return None;
  }

  method ValidateExtensions(table: seq<Extension>, toggles: Toggles, engine: string, instance: string)
    returns (error: Option<ExtensionError>)
    ensures error.None? <==> Supported(Enabled(table, toggles), PostgresVersion(engine, instance))
    ensures error.Some? ==>
              exists e | e in Enabled(table, toggles) ::
                Explains(Enabled(table, toggles), PostgresVersion(engine, instance), e, error.value)
  {
    var enabled := Enabled(table, toggles);
    var version := PostgresVersion(engine, instance);
    for i := 0 to |enabled|
      invariant forall k | 0 <= k < i :: Fits(enabled, version, enabled[k])
    {
      var e := enabled[i];
      assert e in enabled;
      if e.catalogEntry != "" && Major(version) != IMAGE_VOLUME_MAJOR {
        return Some(WrongMajor(e.field));
      }
      if e.minVersion != "" {
        var recent := VersionAtLeast(version, e.minVersion);
        if !recent {
          return Some(TooOld(e.field));
        }
      }
      var missing := FirstMissing(enabled, e.dependencies);
      if missing.Some? {
        return Some(MissingDependency(e.field, missing.value));
      }
      var conflicting := FirstEnabled(enabled, e.conflicts);
      if conflicting.Some? {
        return Some(Conflict(e.field, conflicting.value));
      }
    }
    return None;
  }

  /** Acceptance is upward closed within a major: a later release of it is accepted too. */
  lemma SupportIsUpwardClosed(enabled: seq<Extension>, version: string, later: string)
    requires Supported(enabled, version)
    requires Major(later) == Major(version) && AtLeast(Components(later), Components(version))
    ensures Supported(enabled, later)
  {
    forall e | e in enabled && e.minVersion != "" ensures AtLeast(Components(later), Components(e.minVersion)) {
      AtLeastIsTransitive(Components(later), Components(version), Components(e.minVersion));
    }
  }

  // ---- The image catalog ----

  datatype ExtensionConfig = ExtensionConfig(name: string, image: string)

  /** The ClusterImageCatalog: the extension entries of each major, and its annotations. */
  datatype Catalog = Catalog(entries: map<int, seq<ExtensionConfig>>, annotations: map<string, string>)

  datatype Image = Image(config: ExtensionConfig, sqlVersion: string)

  datatype ImageError = InvalidMajor | CatalogNotFound | NoEntry(field: string)

  function CatalogEntries(catalog: Catalog, major: string): seq<ExtensionConfig> {
    if Atoi(major) in catalog.entries then catalog.entries[Atoi(major)] else []
  }

  function Annotation(catalog: Catalog, key: string): string {
    if key in catalog.annotations then catalog.annotations[key] else ""
  }

  /** The first entry called name. */
  function Find(entries: seq<ExtensionConfig>, name: string): Option<ExtensionConfig> {
    if entries == [] then None else if entries[0].name == name then Some(entries[0]) else Find(entries[1..], name)
  }

  lemma {:induction false} FindFinds(entries: seq<ExtensionConfig>, name: string)
    ensures Find(entries, name).Some? <==> exists c | c in entries :: c.name == name
    ensures Find(entries, name).Some? ==> Find(entries, name).value in entries && Find(entries, name).value.name == name
  {
    if entries != [] && entries[0].name != name { FindFinds(entries[1..], name); }
  }

  /** images holds the resolved image of every enabled extension that needs one, and no other. */
  predicate Resolved(enabled: seq<Extension>, catalog: Catalog, major: string, images: map<string, Image>) {
    && (forall name | name in images :: exists e | e in enabled :: e.catalogEntry == name && name != "")
    && (forall e | e in enabled && e.catalogEntry != "" ::
          && e.catalogEntry in images
          && Some(images[e.catalogEntry].config) == Find(CatalogEntries(catalog, major), e.catalogEntry)
          && images[e.catalogEntry].config.name == e.catalogEntry
          && images[e.catalogEntry].sqlVersion
            == Annotation(catalog, SQL_VERSION_PREFIX + major + "." + e.catalogEntry))
  }

  predicate NeedsImage(enabled: seq<Extension>) {
    exists e | e in enabled :: e.catalogEntry != ""
  }

  method ResolveExtensionImages(table: seq<Extension>, catalog: Option<Catalog>, toggles: Toggles, major: string)
    returns (r: Result<map<string, Image>, ImageError>)
    ensures
      var enabled := Enabled(table, toggles);
      match r
      case Ok(images) =>
        if catalog.None? then images == map[] && !NeedsImage(enabled)
        else Resolved(enabled, catalog.value, major, images) && (NeedsImage(enabled) ==> IsInt(major))
      case Err(error) =>
        && NeedsImage(enabled)
        && match error
           case InvalidMajor => !IsInt(major)
           case CatalogNotFound => catalog.None?
           case NoEntry(field) =>
             exists e | e in enabled && e.field == field && e.catalogEntry != "" ::
               catalog.Some? && Find(CatalogEntries(catalog.value, major), e.catalogEntry).None?
  {
    var wanted := WantedImages(Enabled(table, toggles));
    if wanted == [] {
      return Ok(map[]);
    }
    assert wanted[0] in wanted;
    if !IsInt(major) {
      return Err(InvalidMajor);
    }
    if catalog.None? {
      return Err(CatalogNotFound);
    }
    var images, missing := LookUpImages(wanted, catalog.value, major);
    if missing.Some? {
      return Err(NoEntry(missing.value.field));
    }
    return Ok(images);
  }

  method WantedImages(enabled: seq<Extension>) returns (wanted: seq<Extension>)
    ensures forall e :: e in wanted <==> e in enabled && e.catalogEntry != ""
  {
    wanted := [];
    for i := 0 to |enabled|
      invariant forall e :: e in wanted <==> e in enabled[..i] && e.catalogEntry != ""
    {
      if enabled[i].catalogEntry != "" {
        wanted := wanted + [enabled[i]];
      }
    }
    assert enabled[..|enabled|] == enabled;
  }

  method LookUpImages(wanted: seq<Extension>, catalog: Catalog, major: string)
    returns (images: map<string, Image>, missing: Option<Extension>)
    requires forall e | e in wanted :: e.catalogEntry != ""
    ensures missing.Some? ==>
        missing.value in wanted && Find(CatalogEntries(catalog, major), missing.value.catalogEntry).None?
    ensures missing.None? ==> Resolved(wanted, catalog, major, images)
  {
    var entries := CatalogEntries(catalog, major);
    images := map[];
    for i := 0 to |wanted|
      invariant forall name | name in images :: exists k | 0 <= k < i :: wanted[k].catalogEntry == name
      invariant forall k | 0 <= k < i ::
                  var entry := wanted[k].catalogEntry;
                  && entry in images && Some(images[entry].config) == Find(entries, entry)
                  && images[entry].config.name == entry
                  && images[entry].sqlVersion == Annotation(catalog, SQL_VERSION_PREFIX + major + "." + entry)
    {
      var entry := wanted[i].catalogEntry;
      var config := Find(entries, entry);
      FindFinds(entries, entry);
      if config.None? {
        return images, Some(wanted[i]);
      }
      images := images[entry := Image(config.value, Annotation(catalog, SQL_VERSION_PREFIX + major + "." + entry))];
    }
    return images, None;
  }

  // ---- What Validate compares with ----

  predicate Lists(configs: seq<ExtensionConfig>, name: string) {
    exists c | c in configs :: c.name == name
  }

  /** ValidateExtensionsAtCreation, against the extensions of the existing Cluster. */
  predicate PresentAtCreation(enabled: seq<Extension>, cluster: Option<seq<ExtensionConfig>>) {
    cluster.Some? ==> forall e | e in enabled && CreationOnly(e) :: Lists(cluster.value, e.catalogEntry)
  }

  /** ValidateExtensionsNotDisabled, against the names of the existing Database. */
  predicate NothingDisabled(table: seq<Extension>, toggles: Toggles, database: Option<seq<string>>) {
    database.Some? ==>
      forall e | e in table && e.sqlName != "" && !On(e, toggles) && !SqlNameIn(Enabled(table, toggles), e.sqlName) ::
        e.sqlName !in database.value
  }

  /** Returns the field of an extension that may only be enabled when the instance is created. */
  method ValidateExtensionsAtCreation(table: seq<Extension>, toggles: Toggles, cluster: Option<seq<ExtensionConfig>>)
    returns (error: Option<string>)
    ensures error.None? <==> PresentAtCreation(Enabled(table, toggles), cluster)
    ensures error.Some? ==> exists e | e in Enabled(table, toggles) ::
              e.field == error.value && CreationOnly(e) && cluster.Some? && !Lists(cluster.value, e.catalogEntry)
  {
    if cluster.None? {
      return None;
    }
    var enabled := Enabled(table, toggles);
    for i := 0 to |enabled|
      invariant forall k | 0 <= k < i && CreationOnly(enabled[k]) :: Lists(cluster.value, enabled[k].catalogEntry)
    {
      var e := enabled[i];
      assert e in enabled;
      if !CreationOnly(e) {
        continue;
      }
      if !Lists(cluster.value, e.catalogEntry) {
        return Some(e.field);
      }
    }
    return None;
  }

  /** Returns the field of an extension whose SQL extension would be left to nobody. */
  method ValidateExtensionsNotDisabled(table: seq<Extension>, toggles: Toggles, database: Option<seq<string>>)
    returns (error: Option<string>)
    ensures error.None? <==> NothingDisabled(table, toggles, database)
    ensures error.Some? ==> exists e | e in table ::
              e.field == error.value && !On(e, toggles) && database.Some? && e.sqlName in database.value
              && !SqlNameIn(Enabled(table, toggles), e.sqlName)
  {
    if database.None? {
      return None;
    }
    var enabled := Enabled(table, toggles);
    for i := 0 to |table|
      invariant forall k | 0 <= k < i && table[k].sqlName in database.value && table[k].sqlName != ""
          && !On(table[k], toggles) ::
                  SqlNameIn(enabled, table[k].sqlName)
    {
      var e := table[i];
      assert e in table;
      if e.sqlName == "" || On(e, toggles) {
        continue;
      }
      if SqlNameIn(enabled, e.sqlName) {
        continue;
      }
      if e.sqlName in database.value {
        return Some(e.field);
      }
    }
    return None;
  }

  // ---- The Database ----

  /** The CREATE EXTENSION names, in table order. */
  function SqlNames(enabled: seq<Extension>): seq<string> {
    if enabled == [] then []
    else (if enabled[0].sqlName != "" then [enabled[0].sqlName] else []) + SqlNames(enabled[1..])
  }

  datatype SqlExtension = SqlExtension(name: string, version: string)

  /** The spec of e: none when it creates nothing in SQL. */
  function SpecOf(e: Extension, images: map<string, Image>): seq<SqlExtension> {
    var version := if e.catalogEntry in images then images[e.catalogEntry].sqlVersion else "";
    if e.sqlName != "" then [SqlExtension(e.sqlName, version)] else []
  }

  function SqlExtensions(enabled: seq<Extension>, images: map<string, Image>): seq<SqlExtension> {
    if enabled == [] then [] else SpecOf(enabled[0], images) + SqlExtensions(enabled[1..], images)
  }

  lemma NextSpec(specs: seq<SqlExtension>, enabled: seq<Extension>, i: nat, images: map<string, Image>)
    requires i < |enabled|
    ensures specs + SqlExtensions(enabled[i..], images)
            == (specs + SpecOf(enabled[i], images)) + SqlExtensions(enabled[i + 1..], images)
  {
  }

  /** The extension list of the Database, or None when nothing needs one. */
  method BuildExtensionsDatabase(table: seq<Extension>, toggles: Toggles, images: map<string, Image>)
    returns (r: Option<seq<SqlExtension>>)
    ensures r == if SqlNames(Enabled(table, toggles)) == [] then None
                 else Some(SqlExtensions(Enabled(table, toggles), images))
    ensures r.Some? ==> |r.value| == |SqlNames(Enabled(table, toggles))|
                        && forall i | 0 <= i < |r.value| :: r.value[i].name == SqlNames(Enabled(table, toggles))[i]
  {
    var enabled := Enabled(table, toggles);
    var specs: seq<SqlExtension> := [];
    assert enabled[0..] == enabled && [] + SqlExtensions(enabled, images) == SqlExtensions(enabled, images);
    for i := 0 to |enabled|
      invariant specs + SqlExtensions(enabled[i..], images) == SqlExtensions(enabled, images)
    {
      var e := enabled[i];
      NextSpec(specs, enabled, i, images);
      if e.sqlName != "" {
        specs := specs
          + [SqlExtension(e.sqlName, if e.catalogEntry in images then images[e.catalogEntry].sqlVersion else "")];
      } else {
        assert specs + [] == specs;
      }
    }
    assert specs == SqlExtensions(enabled, images) by { assert enabled[|enabled|..] == [] && specs + [] == specs; }
    NamesOfSpecs(enabled, images);
    r := if specs == [] then None else Some(specs);
  }

  lemma {:induction false} NamesOfSpecs(enabled: seq<Extension>, images: map<string, Image>)
    ensures |SqlExtensions(enabled, images)| == |SqlNames(enabled)|
    ensures forall i | 0 <= i < |SqlNames(enabled)| :: SqlExtensions(enabled, images)[i].name == SqlNames(enabled)[i]
  {
    if enabled != [] { NamesOfSpecs(enabled[1..], images); }
  }

  /** The entry found is the first of its name. */
  lemma {:induction false} FindIsTheFirst(entries: seq<ExtensionConfig>, name: string, k: nat)
    requires k <= |entries| && forall i | 0 <= i < k :: entries[i].name != name
    ensures k == |entries| ==> Find(entries, name).None?
    ensures k < |entries| && entries[k].name == name ==> Find(entries, name) == Some(entries[k])
  {
    if k > 0 { FindIsTheFirst(entries[1..], name, k - 1); }
  }

  /** What the Database installs for e: the version the catalog annotates for its image, for
      the major asked for, and the default version when there is none or no image. */
  function VersionFor(e: Extension, catalog: Catalog, major: string): string {
    var key := "sql-version.extensions.openeverest.io/" + major + "." + e.catalogEntry;
    if e.catalogEntry != "" && key in catalog.annotations then catalog.annotations[key] else ""
  }

  /** With resolved images, the Database lists exactly the SQL extensions of what is enabled, in
      those versions. */
  lemma {:induction false} SpecsExactly(enabled: seq<Extension>, all: seq<Extension>, catalog: Catalog, major: string,
                                        images: map<string, Image>, x: SqlExtension)
    requires Resolved(all, catalog, major, images) && forall e | e in enabled :: e in all
    ensures x in SqlExtensions(enabled, images) <==>
            exists e | e in enabled :: e.sqlName != "" && x == SqlExtension(e.sqlName, VersionFor(e, catalog, major))
  {
    if enabled != [] {
      SpecsExactly(enabled[1..], all, catalog, major, images, x);
      var e0 := enabled[0];
      assert SpecOf(e0, images)
             == if e0.sqlName != "" then [SqlExtension(e0.sqlName, VersionFor(e0, catalog, major))] else [];
      assert forall e :: e in enabled <==> e == e0 || e in enabled[1..];
    }
  }

  /** The release is the engine's, or else the Instance's, or else the default. */
  lemma ReleaseIs(engine: string, instance: string)
    ensures
      var release := PostgresVersion(engine, instance);
      && (engine != "" ==> release == engine)
      && (engine == "" && instance != "" ==> release == instance)
      && (engine == "" && instance == "" ==> release == "18.6")
  {
  }

  /** The major is 18 for 18 itself and for everything that begins with 18 and a dot. */
  lemma MajorIs18(version: string)
    ensures Major(version) == "18" <==> version == "18" || "18." <= version
  {
    FirstPart(version, '.');
    SplitCuts(version, '.');
    if "18." <= version {
      assert version[..3] == "18.";
      assert version[0] == '1' && version[1] == '8' && version[2] == '.';
      var n := |Major(version)|;
      assert forall i | 0 <= i < n :: Major(version)[i] == version[i];
      assert n != 0 && n != 1 && n <= 2;
    }
  }
}
