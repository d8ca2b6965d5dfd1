/** ApplyExtensions in internal/cnpg/extensions.go: what it does to the Cluster it is handed,
    and to the objects that Cluster shares with the decoded Instance parameters. */
module ExtensionsApply {
  import opened Common
  import opened Extensions
  import Identifiers

  /** The fields of a Cluster that extensions touch. parameters None is a nil map; bootstrap
      None is no bootstrap section, Some(None) one without initdb. */
  datatype InitDBSpec = InitDBSpec(database: string, owner: string, statements: seq<string>)
  datatype ClusterSpec = ClusterSpec(
    extensions: seq<ExtensionConfig>, libraries: seq<string>, parameters: Option<map<string, string>>,
    bootstrap: Option<Option<InitDBSpec>>)

  const EMPTY_INITDB := InitDBSpec("", "", [])

  /** x is appended unless it is there already. */
  function Append<T(==)>(s: seq<T>, x: T): seq<T> {
    if x in s then s else s + [x]
  }

  function AppendAll<T(==)>(s: seq<T>, xs: seq<T>): seq<T>
    decreases |xs|
  {
    if xs == [] then s else AppendAll(Append(s, xs[0]), xs[1..])
  }

  function WithImage(configs: seq<ExtensionConfig>, e: Extension, images: map<string, Image>): seq<ExtensionConfig> {
    if e.catalogEntry in images && !Lists(configs, e.catalogEntry) then configs + [images[e.catalogEntry].config]
    else configs
  }

  /** Defaults go under what is set: in a merge of maps the right one wins. */
  function WithDefaults(parameters: Option<map<string, string>>, defaults: map<string, string>)
    : Option<map<string, string>>
  {
    if defaults == map[] then parameters
    else Some(defaults + if parameters.Some? then parameters.value else map[])
  }

  function Statement(prefix: string, owner: string): string {
    prefix + Identifiers.QuoteIdentifier(owner)
  }

  function WithStatement(bootstrap: Option<Option<InitDBSpec>>, sql: Option<string>, owner: string)
    : Option<Option<InitDBSpec>>
  {
    if sql.None? then bootstrap
    else
      var initDB := if bootstrap.Some? && bootstrap.value.Some? then bootstrap.value.value else EMPTY_INITDB;
      Some(Some(initDB.(statements := Append(initDB.statements, Statement(sql.value, owner)))))
  }

  function ApplyOne(c: ClusterSpec, e: Extension, images: map<string, Image>, owner: string): ClusterSpec {
    ClusterSpec(WithImage(c.extensions, e, images), AppendAll(c.libraries, e.libraries),
                WithDefaults(c.parameters, e.defaults), WithStatement(c.bootstrap, e.bootstrapSQL, owner))
  }

  function Apply(c: ClusterSpec, enabled: seq<Extension>, images: map<string, Image>, owner: string): ClusterSpec
    decreases |enabled|
  {
    if enabled == [] then c else Apply(ApplyOne(c, enabled[0], images, owner), enabled[1..], images, owner)
  }

  // ---- What it keeps and what it adds ----

  /** The images resolved for the extensions carry the names they were looked up by. */
  predicate NamedImages(images: map<string, Image>) {
    forall name | name in images :: images[name].config.name == name
  }

  /** t is s with distinct new elements after it. */
  predicate Extends<T(==)>(s: seq<T>, t: seq<T>) {
    && s <= t
    && (forall i, j | |s| <= i < |t| && 0 <= j < i :: t[j] != t[i])
  }

  lemma ExtendsAppend<T>(s: seq<T>, t: seq<T>, x: T)
    requires Extends(s, t)
    ensures Extends(s, Append(t, x)) && x in Append(t, x) && t <= Append(t, x)
  {
  }

  lemma {:induction false} ExtendsAppendAll<T>(s: seq<T>, t: seq<T>, xs: seq<T>)
    requires Extends(s, t)
    ensures Extends(s, AppendAll(t, xs)) && t <= AppendAll(t, xs)
    ensures forall x | x in xs :: x in AppendAll(t, xs)
    decreases |xs|
  {
    if xs != [] {
      ExtendsAppend(s, t, xs[0]);
      ExtendsAppendAll(s, Append(t, xs[0]), xs[1..]);
      assert xs[0] in Append(t, xs[0]);
    }
  }

  /** d is c after some extensions were applied: user entries come first and unchanged, user
      parameters and initdb settings win, and nothing listed is listed again. */
  predicate Grown(c: ClusterSpec, d: ClusterSpec) {
    && c.extensions <= d.extensions
    && (forall i, j | |c.extensions| <= i < |d.extensions| && 0 <= j < i ::
      d.extensions[j].name != d.extensions[i].name)
    && Extends(c.libraries, d.libraries)
    && (c.parameters.Some? ==> d.parameters.Some?)
    && (forall k | c.parameters.Some? && k in c.parameters.value ::
          k in d.parameters.value && d.parameters.value[k] == c.parameters.value[k])
    && (c.bootstrap.Some? ==> d.bootstrap.Some?)
    && (c.bootstrap.Some? && c.bootstrap.value.Some? ==>
          && d.bootstrap.value.Some?
          && d.bootstrap.value.value == c.bootstrap.value.value.(statements := d.bootstrap.value.value.statements)
          && Extends(c.bootstrap.value.value.statements, d.bootstrap.value.value.statements))
  }

  /** Everything e needs is on the Cluster. */
  predicate Served(c: ClusterSpec, e: Extension, images: map<string, Image>, owner: string) {
    && (e.catalogEntry in images ==> Lists(c.extensions, e.catalogEntry))
    && (forall l | l in e.libraries :: l in c.libraries)
    && (e.defaults != map[] ==> c.parameters.Some? && e.defaults.Keys <= c.parameters.value.Keys)
    && (e.bootstrapSQL.Some? ==>
          c.bootstrap.Some? && c.bootstrap.value.Some?
          && Statement(e.bootstrapSQL.value, owner) in c.bootstrap.value.value.statements)
  }

  lemma ApplyOneGrows(c: ClusterSpec, d: ClusterSpec, e: Extension, images: map<string, Image>, owner: string)
    requires Grown(c, d) && NamedImages(images)
    ensures Grown(c, ApplyOne(d, e, images, owner)) && Served(ApplyOne(d, e, images, owner), e, images, owner)
  {
    var a := ApplyOne(d, e, images, owner);
    ExtendsAppendAll(c.libraries, d.libraries, e.libraries);
    ImageAdded(c.extensions, d.extensions, e, images);
    if e.bootstrapSQL.Some? && d.bootstrap.Some? && d.bootstrap.value.Some? {
      var before :=
        if c.bootstrap.Some? && c.bootstrap.value.Some? then c.bootstrap.value.value.statements
        else d.bootstrap.value.value.statements;
      ExtendsAppend(before, d.bootstrap.value.value.statements, Statement(e.bootstrapSQL.value, owner));
    }
  }

  lemma ImageAdded(s: seq<ExtensionConfig>, t: seq<ExtensionConfig>, e: Extension, images: map<string, Image>)
    requires s <= t && NamedImages(images)
    requires forall i, j | |s| <= i < |t| && 0 <= j < i :: t[j].name != t[i].name
    ensures
      var u := WithImage(t, e, images);
      && s <= u && (e.catalogEntry in images ==> Lists(u, e.catalogEntry))
      && forall i, j | |s| <= i < |u| && 0 <= j < i :: u[j].name != u[i].name
  {
  }

  /** What a Cluster serves it still serves after more is added to it. */
  lemma GrownServes(c: ClusterSpec, d: ClusterSpec, e: Extension, images: map<string, Image>, owner: string)
    requires Grown(c, d) && Served(c, e, images, owner)
    ensures Served(d, e, images, owner)
  {
  }

  lemma GrownFromItself(c: ClusterSpec)
    ensures Grown(c, c)
  {
  }

  lemma {:induction false} ApplyGrows(c: ClusterSpec, d: ClusterSpec, enabled: seq<Extension>,
                                      images: map<string, Image>, owner: string)
    requires Grown(c, d) && NamedImages(images)
    ensures Grown(c, Apply(d, enabled, images, owner))
    decreases |enabled|
  {
    if enabled != [] {
      ApplyOneGrows(c, d, enabled[0], images, owner);
      ApplyGrows(c, ApplyOne(d, enabled[0], images, owner), enabled[1..], images, owner);
    }
  }

  /** ApplyExtensions only adds, and serves every enabled extension. */
  lemma {:induction false} ApplyServes(c: ClusterSpec, enabled: seq<Extension>, images: map<string, Image>,
                                       owner: string)
    requires NamedImages(images)
    ensures Grown(c, Apply(c, enabled, images, owner))
    ensures forall e | e in enabled :: Served(Apply(c, enabled, images, owner), e, images, owner)
    decreases |enabled|
  {
    GrownFromItself(c);
    ApplyGrows(c, c, enabled, images, owner);
    if enabled != [] {
      var d := ApplyOne(c, enabled[0], images, owner);
      ApplyOneGrows(c, c, enabled[0], images, owner);
      ApplyServes(d, enabled[1..], images, owner);
      GrownServes(d, Apply(c, enabled, images, owner), enabled[0], images, owner);
    }
  }

  lemma {:induction false} AppendAllListed<T>(s: seq<T>, xs: seq<T>)
    requires forall x | x in xs :: x in s
    ensures AppendAll(s, xs) == s
    decreases |xs|
  {
    if xs != [] { AppendAllListed(s, xs[1..]); }
  }

  lemma ServedIsUnchanged(c: ClusterSpec, e: Extension, images: map<string, Image>, owner: string)
    requires Served(c, e, images, owner)
    ensures ApplyOne(c, e, images, owner) == c
  {
    AppendAllListed(c.libraries, e.libraries);
    if e.defaults != map[] { assert e.defaults + c.parameters.value == c.parameters.value; }
  }

  lemma {:induction false} ServedApplyIsUnchanged(c: ClusterSpec, enabled: seq<Extension>, images: map<string, Image>,
                                                  owner: string)
    requires forall e | e in enabled :: Served(c, e, images, owner)
    ensures Apply(c, enabled, images, owner) == c
    decreases |enabled|
  {
    if enabled != [] {
      ServedIsUnchanged(c, enabled[0], images, owner);
      ServedApplyIsUnchanged(c, enabled[1..], images, owner);
    }
  }

  /** Applying the same extensions again changes nothing. */
  lemma ApplyIsIdempotent(c: ClusterSpec, enabled: seq<Extension>, images: map<string, Image>, owner: string)
    requires NamedImages(images)
    ensures Apply(Apply(c, enabled, images, owner), enabled, images, owner) == Apply(c, enabled, images, owner)
  {
    ApplyServes(c, enabled, images, owner);
    ServedApplyIsUnchanged(Apply(c, enabled, images, owner), enabled, images, owner);
  }

  // ---- Exactly what is added ----

  /** config is the resolved image of an enabled extension of which the user listed none. */
  predicate BroughtBy(c: ClusterSpec, e: Extension, images: map<string, Image>, config: ExtensionConfig) {
    e.catalogEntry in images && !Lists(c.extensions, e.catalogEntry) && config == images[e.catalogEntry].config
  }

  lemma ImageOfOne(c: ClusterSpec, e: Extension, images: map<string, Image>, owner: string, config: ExtensionConfig)
    ensures config in ApplyOne(c, e, images, owner).extensions <==>
        config in c.extensions || BroughtBy(c, e, images, config)
  {
  }

  /** The Cluster lists exactly what the user listed and, for every enabled extension of whose
      name the user listed nothing, the image that was resolved for it. */
  lemma {:induction false} ImagesExactly(
    c: ClusterSpec, enabled: seq<Extension>, images: map<string, Image>, owner: string, config: ExtensionConfig)
    requires NamedImages(images)
    ensures config in Apply(c, enabled, images, owner).extensions <==>
            config in c.extensions || exists e | e in enabled :: BroughtBy(c, e, images, config)
    decreases |enabled|
  {
    if enabled != [] {
      var e0, rest := enabled[0], enabled[1..];
      var d := ApplyOne(c, e0, images, owner);
      ImagesExactly(d, rest, images, owner, config);
      ImageOfOne(c, e0, images, owner, config);
      forall e | e in rest
        ensures config !in d.extensions ==> (BroughtBy(d, e, images, config) <==> BroughtBy(c, e, images, config))
      {
        if config !in d.extensions { SameBringing(c, e0, e, images, owner, config); }
      }
      assert forall e :: e in enabled <==> e == e0 || e in rest;
    }
  }

  lemma SameBringing(c: ClusterSpec, e0: Extension, e: Extension, images: map<string, Image>, owner: string,
                     config: ExtensionConfig)
    requires NamedImages(images) && config !in ApplyOne(c, e0, images, owner).extensions
    ensures BroughtBy(ApplyOne(c, e0, images, owner), e, images, config) <==> BroughtBy(c, e, images, config)
  {
    var d := ApplyOne(c, e0, images, owner);
    if d.extensions != c.extensions {
      assert images[e0.catalogEntry].config == d.extensions[|c.extensions|];
      assert forall x :: x in d.extensions <==> x in c.extensions || x == images[e0.catalogEntry].config;
    }
  }

  /** In terms of names. */
  lemma OnlyEnabledImages(c: ClusterSpec, enabled: seq<Extension>, images: map<string, Image>, owner: string,
                          name: string)
    requires NamedImages(images)
    ensures Lists(Apply(c, enabled, images, owner).extensions, name) <==>
            Lists(c.extensions, name) || (name in images && exists e | e in enabled :: e.catalogEntry == name)
  {
    var d := Apply(c, enabled, images, owner);
    forall config ensures config in d.extensions <==>
            config in c.extensions || exists e | e in enabled :: BroughtBy(c, e, images, config)
    {
      ImagesExactly(c, enabled, images, owner, config);
    }
    if name in images && !Lists(c.extensions, name) {
      if e :| e in enabled && e.catalogEntry == name { assert BroughtBy(c, e, images, images[name].config); }
    }
  }

  lemma {:induction false} AppendAllHas<T>(s: seq<T>, xs: seq<T>, x: T)
    ensures x in AppendAll(s, xs) <==> x in s || x in xs
    decreases |xs|
  {
    if xs != [] { AppendAllHas(Append(s, xs[0]), xs[1..], x); }
  }

  /** A library is preloaded exactly when the user or an enabled extension asks for it. */
  lemma {:induction false} LibrariesExactly(
    c: ClusterSpec, enabled: seq<Extension>, images: map<string, Image>, owner: string, l: string)
    ensures l in Apply(c, enabled, images, owner).libraries <==>
            l in c.libraries || exists e | e in enabled :: l in e.libraries
    decreases |enabled|
  {
    if enabled != [] {
      LibrariesExactly(ApplyOne(c, enabled[0], images, owner), enabled[1..], images, owner, l);
      AppendAllHas(c.libraries, enabled[0].libraries, l);
    }
  }

  predicate Sets(parameters: Option<map<string, string>>, k: string) {
    parameters.Some? && k in parameters.value
  }

  /** Of the enabled extensions with a default for k, j is the first. */
  predicate FirstDefault(enabled: seq<Extension>, j: nat, k: string) {
    j < |enabled| && k in enabled[j].defaults && forall i | 0 <= i < j :: k !in enabled[i].defaults
  }

  /** A parameter has the user's value, or else the default of the first enabled extension that
      has one, and is not set otherwise. */
  lemma {:induction false} ParametersExactly(
    c: ClusterSpec, enabled: seq<Extension>, images: map<string, Image>, owner: string, k: string, j: nat)
    ensures
      var p := Apply(c, enabled, images, owner).parameters;
      && (Sets(c.parameters, k) ==> Sets(p, k) && p.value[k] == c.parameters.value[k])
      && (!Sets(c.parameters, k) ==>
            && (Sets(p, k) <==> exists e | e in enabled :: k in e.defaults)
            && (FirstDefault(enabled, j, k) ==> Sets(p, k) && p.value[k] == enabled[j].defaults[k]))
    decreases |enabled|
  {
    if enabled != [] {
      var d, rest := ApplyOne(c, enabled[0], images, owner), enabled[1..];
      ParametersExactly(d, rest, images, owner, k, if j > 0 then j - 1 else 0);
      assert forall e :: e in enabled <==> e == enabled[0] || e in rest;
      if j > 0 && FirstDefault(enabled, j, k) {
        assert k !in enabled[0].defaults;
        assert forall i | 0 <= i < j - 1 :: rest[i] == enabled[i + 1];
      }
    }
  }

  predicate NeedsSQL(enabled: seq<Extension>) {
    exists e | e in enabled :: e.bootstrapSQL.Some?
  }

  /** The initdb section, or the empty one a missing one stands for. */
  function InitDBOf(bootstrap: Option<Option<InitDBSpec>>): InitDBSpec {
    if bootstrap.Some? && bootstrap.value.Some? then bootstrap.value.value else InitDBSpec("", "", [])
  }

  /** sql runs the statement of e for the owner: after the fixed text it names the owner, as a
      PostgreSQL lexer reads it, and nothing else. */
  predicate RunsFor(e: Extension, owner: string, sql: string) {
    && e.bootstrapSQL.Some? && e.bootstrapSQL.value <= sql
    && Identifiers.LexDelimited(sql[|e.bootstrapSQL.value|..]) == Some(Identifiers.Lexed(owner, ""))
  }

  lemma StatementRunsFor(e: Extension, owner: string, sql: string)
    requires e.bootstrapSQL.Some?
    ensures sql == Statement(e.bootstrapSQL.value, owner) <==> RunsFor(e, owner, sql)
  {
    var prefix := e.bootstrapSQL.value;
    var quoted := Identifiers.QuoteIdentifier(owner);
    Identifiers.QuotedReadsBack(owner, "");
    assert quoted + "" == quoted;
    assert (prefix + quoted)[|prefix|..] == quoted;
    if RunsFor(e, owner, sql) {
      Identifiers.DelimitedIsQuoted(sql[|prefix|..]);
      assert sql == prefix + sql[|prefix|..];
    }
  }

  /** Without bootstrap SQL the section stays as it is; otherwise there is an initdb with the
      user's database and owner, the user's statements, and one for each such extension. */
  lemma {:induction false} BootstrapExactly(
    c: ClusterSpec, enabled: seq<Extension>, images: map<string, Image>, owner: string, sql: string)
    ensures
      var b := Apply(c, enabled, images, owner).bootstrap;
      var was := InitDBOf(c.bootstrap);
      && (!NeedsSQL(enabled) ==> b == c.bootstrap)
      && (NeedsSQL(enabled) ==>
            && b == Some(Some(InitDBOf(b))) && InitDBOf(b).database == was.database && InitDBOf(b).owner == was.owner
            && (sql in InitDBOf(b).statements <==>
                  sql in was.statements || exists e | e in enabled :: RunsFor(e, owner, sql)))
    decreases |enabled|
  {
    if enabled != [] {
      var e0, rest := enabled[0], enabled[1..];
      BootstrapExactly(ApplyOne(c, e0, images, owner), rest, images, owner, sql);
      if e0.bootstrapSQL.Some? { StatementRunsFor(e0, owner, sql); }
      assert NeedsSQL(enabled) <==> e0.bootstrapSQL.Some? || NeedsSQL(rest);
      assert forall e :: e in enabled <==> e == e0 || e in rest;
    }
  }

  // ---- The Cluster object ----

  class InitDB {
    var database: string
    var owner: string
    var postInitApplicationSQL: seq<string>

    constructor (database: string, owner: string, statements: seq<string>)
      ensures this.database == database && this.owner == owner && postInitApplicationSQL == statements
    {
      this.database, this.owner, postInitApplicationSQL := database, owner, statements;
    }

    function Value(): InitDBSpec
      reads this
    {
      InitDBSpec(database, owner, postInitApplicationSQL)
    }
  }

  class Bootstrap {
    var initDB: InitDB?

    constructor (initDB: InitDB?)
      ensures this.initDB == initDB
    {
      this.initDB := initDB;
    }
  }

  /** A Go map is shared by whoever holds it. */
  class Parameters {
    var entries: map<string, string>

    constructor (entries: map<string, string>)
      ensures this.entries == entries
    {
      this.entries := entries;
    }

    /** Sets every default that is not set yet; the keys come in any order. */
    method AddMissing(defaults: map<string, string>)
      modifies this
      ensures entries == defaults + old(entries)
    {
      var names := defaults.Keys;
      while names != {}
        invariant names <= defaults.Keys
        invariant entries.Keys == old(entries).Keys + (defaults.Keys - names)
        invariant forall k | k in entries :: entries[k] == if k in old(entries) then old(entries)[k] else defaults[k]
        decreases |names|
      {
        var name :| name in names;
        if name !in entries {
          entries := entries[name := defaults[name]];
        }
        names := names - {name};
      }
    }
  }

  class Cluster {
    var extensions: seq<ExtensionConfig>
    var libraries: seq<string>
    var parameters: Parameters?
    var bootstrap: Bootstrap?

    constructor (extensions: seq<ExtensionConfig>, libraries: seq<string>, parameters: Parameters?,
                 bootstrap: Bootstrap?)
      ensures this.extensions == extensions && this.libraries == libraries
      ensures this.parameters == parameters && this.bootstrap == bootstrap
    {
      this.extensions, this.libraries, this.parameters, this.bootstrap := extensions, libraries, parameters, bootstrap;
    }

    /** The objects whose fields ApplyExtensions may write: the InitDB is not among them. */
    function Writable(): set<object>
      reads this
    {
      {this as object} + (if parameters == null then {} else {parameters as object})
      + (if bootstrap == null then {} else {bootstrap as object})
    }

    function Value(): ClusterSpec
      reads this, Writable(), if bootstrap == null || bootstrap.initDB == null then {} else {bootstrap.initDB}
    {
      ClusterSpec(extensions, libraries, if parameters == null then None else Some(parameters.entries),
                  if bootstrap == null then None
                  else if bootstrap.initDB == null then Some(None) else Some(Some(bootstrap.initDB.Value())))
    }

    method AddDefaults(defaults: map<string, string>)
      modifies Writable()
      ensures Value() == old(Value()).(parameters := WithDefaults(old(Value()).parameters, defaults))
      ensures bootstrap == old(bootstrap) && (bootstrap != null ==> bootstrap.initDB == old(bootstrap.initDB))
      ensures parameters == old(parameters) || (old(parameters) == null && fresh(parameters))
    {
      if defaults == map[] {
        return;
      }
      if parameters == null {
        parameters := new Parameters(map[]);
      }
      parameters.AddMissing(defaults);
    }

    method AddLibraries(names: seq<string>)
      modifies this`libraries
      ensures libraries == AppendAll(old(libraries), names)
    {
      for k := 0 to |names|
        invariant AppendAll(libraries, names[k..]) == AppendAll(old(libraries), names)
      {
        assert names[k..][1..] == names[k + 1..];
        if names[k] !in libraries {
          libraries := libraries + [names[k]];
        }
      }
    }

    method AddBootstrapSQL(statement: string)
      modifies Writable()
      ensures
        var before := old(Value()).bootstrap;
        var initDB := if before.Some? && before.value.Some? then before.value.value else EMPTY_INITDB;
        Value() == old(Value()).(bootstrap := Some(Some(initDB.(statements := Append(initDB.statements, statement)))))
      ensures bootstrap != null && (bootstrap == old(bootstrap) || fresh(bootstrap)) && bootstrap.initDB != null
      ensures parameters == old(parameters) && fresh(bootstrap.initDB)
    {
      if bootstrap == null {
        bootstrap := new Bootstrap(null);
      }
      var initDB := new InitDB("", "", []);
      if bootstrap.initDB != null {
        var shared := bootstrap.initDB;
        initDB := new InitDB(shared.database, shared.owner, shared.postInitApplicationSQL);
      }
      if statement !in initDB.postInitApplicationSQL {
        initDB.postInitApplicationSQL := initDB.postInitApplicationSQL + [statement];
      }
      bootstrap.initDB := initDB;
    }

    method ApplyExtension(e: Extension, images: map<string, Image>, owner: string)
      modifies Writable()
      ensures Value() == ApplyOne(old(Value()), e, images, owner)
      ensures parameters == old(parameters) || (old(parameters) == null && fresh(parameters))
      ensures bootstrap == old(bootstrap) || fresh(bootstrap)
    {
      if e.catalogEntry in images && !Lists(extensions, e.catalogEntry) {
        extensions := extensions + [images[e.catalogEntry].config];
      }
      AddLibraries(e.libraries);
      AddDefaults(e.defaults);
      if e.bootstrapSQL.Some? {
        AddBootstrapSQL(Statement(e.bootstrapSQL.value, owner));
      }
    }

    /** The Cluster becomes what Apply says, whatever the order of the map iterations. The
        InitDB it was handed, which the decoded parameters may share, keeps its value: the
        Cluster gets a copy. The parameters map is written in place. */
    method ApplyExtensions(enabled: seq<Extension>, images: map<string, Image>, owner: string)
      modifies Writable()
      ensures Value() == Apply(old(Value()), enabled, images, owner)
      ensures var shared := if old(bootstrap) == null then null else old(bootstrap.initDB);
              shared != null ==> shared.Value() == old(shared.Value())
      ensures old(parameters) != null ==> parameters == old(parameters)
    {
      ghost var start := Value();
      for i := 0 to |enabled|
        invariant Apply(Value(), enabled[i..], images, owner) == Apply(start, enabled, images, owner)
        invariant parameters == old(parameters) || (old(parameters) == null && fresh(parameters))
        invariant bootstrap == old(bootstrap) || fresh(bootstrap)
        invariant var shared := if old(bootstrap) == null then null else old(bootstrap.initDB);
                  shared != null ==> unchanged(shared)
      {
        assert enabled[i..][1..] == enabled[i + 1..];
        ApplyExtension(enabled[i], images, owner);
      }
    }
  }
}
