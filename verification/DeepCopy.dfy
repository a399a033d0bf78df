/** The generated copies of api/v1alpha1/zz_generated.deepcopy.go on the heap. Every object the copied
    graph reaches through a pointer is an object here; the fields the operator only ever reads are kept
    together as one value. */
module DeepCopy {
  import opened Options
  import opened MintTypes
  import opened Cluster

  ghost function Set(o: object?): set<object> {
    if o == null then {} else {o}
  }

  class Int32 {
    var value: int

    constructor (value: int)
      ensures this.value == value
    {
      this.value := value;
    }
  }

  class Selector {
    var name: string
    var key: string

    constructor (name: string, key: string)
      ensures this.name == name && this.key == key
    {
      this.name, this.key := name, key;
    }
  }

  class Provision {
    var storageSize: string
    var version: string

    constructor (storageSize: string, version: string)
      ensures this.storageSize == storageSize && this.version == version
    {
      this.storageSize, this.version := storageSize, version;
    }
  }

  class SQLiteConfig {
    var dataDir: string

    constructor (dataDir: string)
      ensures this.dataDir == dataDir
    {
      this.dataDir := dataDir;
    }
  }

  ghost function IntView(p: Int32?): Option<int>
    reads p
  {
    if p == null then None else Some(p.value)
  }

  ghost function SelectorView(p: Selector?): Option<SecretKey>
    reads p
  {
    if p == null then None else Some(SecretKey(p.name, p.key))
  }

  ghost function ProvisionView(p: Provision?): Option<AutoProvisionSpec>
    reads p
  {
    if p == null then None else Some(AutoProvisionSpec(p.storageSize, p.version))
  }

  ghost function SQLiteView(p: SQLiteConfig?): Option<SQLite>
    reads p
  {
    if p == null then None else Some(SQLite(p.dataDir))
  }

  // `if in.X != nil { *out = new(T); **out = **in }` for each kind of pointer

  /** Equal numbers behind both pointers, or none behind either. */
  ghost predicate SameInt(p: Int32?, q: Int32?)
    reads p, q
  {
    if p == null then q == null else q != null && q.value == p.value
  }

  ghost predicate SameSelector(p: Selector?, q: Selector?)
    reads p, q
  {
    if p == null then q == null else q != null && q.name == p.name && q.key == p.key
  }

  method CopyInt(p: Int32?) returns (q: Int32?)
    ensures IntView(q) == IntView(p) && fresh(Set(q))
  {
    if p == null {
      return null;
    }
    q := new Int32(p.value);
  }

  method CopySelector(p: Selector?) returns (q: Selector?)
    ensures SelectorView(q) == SelectorView(p) && fresh(Set(q))
  {
    if p == null {
      return null;
    }
    q := new Selector(p.name, p.key);
  }

  method CopyProvision(p: Provision?) returns (q: Provision?)
    ensures ProvisionView(q) == ProvisionView(p) && fresh(Set(q))
  {
    if p == null {
      return null;
    }
    q := new Provision(p.storageSize, p.version);
  }

  method CopySQLite(p: SQLiteConfig?) returns (q: SQLiteConfig?)
    ensures SQLiteView(q) == SQLiteView(p) && fresh(Set(q))
  {
    if p == null {
      return null;
    }
    q := new SQLiteConfig(p.dataDir);
  }

  class PostgresConfig {
    ghost var Repr: set<object>
    var url: string
    var urlSecretRef: Selector?
    var tlsMode: string
    var maxConnections: Int32?
    var connectionTimeoutSeconds: Int32?
    var autoProvision: bool
    var autoProvisionSpec: Provision?

    constructor ()
      ensures Valid() && Repr == {this}
    {
      url, urlSecretRef, tlsMode, maxConnections, connectionTimeoutSeconds, autoProvision, autoProvisionSpec :=
        "", null, "", null, null, false, null;
      Repr := {this};
    }

    ghost predicate Valid()
      reads this, Repr
    {
      && this in Repr
      && Set(urlSecretRef) <= Repr && Set(maxConnections) <= Repr
      && Set(connectionTimeoutSeconds) <= Repr && Set(autoProvisionSpec) <= Repr
    }

    ghost function View(): Postgres
      requires Valid()
      reads this, Repr
    {
      Postgres(url, SelectorView(urlSecretRef), tlsMode, IntView(maxConnections), IntView(connectionTimeoutSeconds),
               autoProvision, ProvisionView(autoProvisionSpec))
    }

    method CopyPointers() returns (ref: Selector?, connections: Int32?, timeout: Int32?, provision: Provision?)
      requires Valid()
      ensures View() == Postgres(url, SelectorView(ref), tlsMode, IntView(connections), IntView(timeout),
                                 autoProvision, ProvisionView(provision))
      ensures fresh(Set(ref) + Set(connections) + Set(timeout) + Set(provision))
    {
      ref := CopySelector(urlSecretRef);
      connections := CopyInt(maxConnections);
      timeout := CopyInt(connectionTimeoutSeconds);
      provision := CopyProvision(autoProvisionSpec);
    }

    // `*out = *in`: every pointer is shared until the lines of DeepCopyInto replace it
    method Assign(out: PostgresConfig)
      requires out != this
      modifies out
      ensures out.url == url && out.tlsMode == tlsMode && out.autoProvision == autoProvision
      ensures out.urlSecretRef == urlSecretRef && out.maxConnections == maxConnections
      ensures out.connectionTimeoutSeconds == connectionTimeoutSeconds && out.autoProvisionSpec == autoProvisionSpec
    {
      out.url, out.urlSecretRef, out.tlsMode := url, urlSecretRef, tlsMode;
      out.maxConnections, out.connectionTimeoutSeconds := maxConnections, connectionTimeoutSeconds;
      out.autoProvision, out.autoProvisionSpec := autoProvision, autoProvisionSpec;
    }

    method DeepCopyInto(out: PostgresConfig)
      requires Valid() && out !in Repr
      modifies out
      ensures out.Valid() && out.View() == old(View()) && fresh(out.Repr - {out})
      ensures out.url == url && out.tlsMode == tlsMode && out.autoProvision == autoProvision
      ensures SameSelector(urlSecretRef, out.urlSecretRef)
      ensures SameInt(maxConnections, out.maxConnections)
      ensures SameInt(connectionTimeoutSeconds, out.connectionTimeoutSeconds)
      ensures if autoProvisionSpec == null then out.autoProvisionSpec == null
              else out.autoProvisionSpec != null
                   && out.autoProvisionSpec.storageSize == autoProvisionSpec.storageSize
                   && out.autoProvisionSpec.version == autoProvisionSpec.version
    {
      Assign(out);
      var ref, connections, timeout, provision := CopyPointers();
      out.urlSecretRef, out.maxConnections := ref, connections;
      out.connectionTimeoutSeconds, out.autoProvisionSpec := timeout, provision;
      out.Repr := {out} + Set(ref) + Set(connections) + Set(timeout) + Set(provision);
    }

    method DeepCopy() returns (out: PostgresConfig)
      requires Valid()
      ensures out.Valid() && out.View() == View() && fresh(out.Repr)
    {
      out := new PostgresConfig();
      DeepCopyInto(out);
    }

    // the two writes of reconcileConfigMap once the secret is read
    method SetURL(u: string)
      requires Valid()
      modifies this
      ensures Valid() && Repr == old(Repr) && View() == WithURL(old(View()), u)
      ensures url == u && urlSecretRef == null && tlsMode == old(tlsMode) && autoProvision == old(autoProvision)
    {
      url := u;
      urlSecretRef := null;
    }
  }

  method CopyPostgres(p: PostgresConfig?) returns (q: PostgresConfig?)
    requires p != null ==> p.Valid()
    ensures if p == null then q == null else q != null && q.Valid() && q.View() == p.View() && fresh(q.Repr)
  {
    if p == null {
      return null;
    }
    q := p.DeepCopy();
  }

  class AuthDatabaseConfig {
    ghost var Repr: set<object>
    var postgres: PostgresConfig?

    constructor ()
      ensures Valid() && Repr == {this}
    {
      postgres := null;
      Repr := {this};
    }

    ghost predicate Valid()
      reads this, Repr
    {
      && this in Repr
      && (postgres != null ==> postgres in Repr && postgres.Repr <= Repr && postgres.Valid())
    }

    ghost function View(): Option<Postgres>
      requires Valid()
      reads this, Repr
    {
      if postgres == null then None else Some(postgres.View())
    }

    method DeepCopyInto(out: AuthDatabaseConfig)
      requires Valid() && out !in Repr
      modifies out
      ensures out.Valid() && out.View() == old(View()) && fresh(out.Repr - {out})
    {
      out.postgres := postgres;
      var pg := CopyPostgres(postgres);
      out.postgres, out.Repr := pg, {out} + if pg == null then {} else pg.Repr;
    }

    method DeepCopy() returns (out: AuthDatabaseConfig)
      requires Valid()
      ensures out.Valid() && out.View() == View() && fresh(out.Repr)
    {
      out := new AuthDatabaseConfig();
      DeepCopyInto(out);
    }
  }

  method CopyAuthDatabase(p: AuthDatabaseConfig?) returns (q: AuthDatabaseConfig?)
    requires p != null ==> p.Valid()
    ensures if p == null then q == null else q != null && q.Valid() && q.View() == p.View() && fresh(q.Repr)
  {
    if p == null {
      return null;
    }
    q := p.DeepCopy();
  }

  /** The auth settings: the plain fields, and what each of the two pointers leads to. */
  datatype AuthGraph = AuthGraph(levels: Auth, maxBat: Option<int>, database: Option<Option<Postgres>>) {
    function Value(): Auth {
      levels.(mintMaxBat := maxBat, postgres := if database.None? then None else database.value)
    }
  }

  class AuthConfig {
    ghost var Repr: set<object>
    var levels: Auth  // the plain fields; the two pointers are fields of their own
    var mintMaxBat: Int32?
    var database: AuthDatabaseConfig?

    constructor (levels: Auth)
      ensures Valid() && Repr == {this}
    {
      this.levels, mintMaxBat, database := levels, null, null;
      Repr := {this};
    }

    ghost predicate Valid()
      reads this, Repr
    {
      && this in Repr && Set(mintMaxBat) <= Repr
      && (database != null ==> database in Repr && database.Repr <= Repr && database.Valid())
    }

    ghost function View(): AuthGraph
      requires Valid()
      reads this, Repr
    {
      AuthGraph(levels, IntView(mintMaxBat), if database == null then None else Some(database.View()))
    }

    method CopyPointers() returns (maxBat: Int32?, db: AuthDatabaseConfig?)
      requires Valid()
      ensures IntView(maxBat) == IntView(mintMaxBat) && fresh(Set(maxBat)) && (db == null <==> database == null)
      ensures db != null ==> db.Valid() && db.View() == database.View() && fresh(db.Repr)
    {
      maxBat := CopyInt(mintMaxBat);
      db := CopyAuthDatabase(database);
    }

    method Assign(out: AuthConfig)
      requires out != this
      modifies out
      ensures out.levels == levels && out.mintMaxBat == mintMaxBat && out.database == database
    {
      out.levels, out.mintMaxBat, out.database := levels, mintMaxBat, database;
    }

    method SetPointers(maxBat: Int32?, db: AuthDatabaseConfig?)
      requires db != null ==> db.Valid() && this !in db.Repr
      modifies this
      ensures Valid() && Repr == {this} + Set(maxBat) + (if db == null then {} else db.Repr) && levels == old(levels)
      ensures View() == AuthGraph(levels, IntView(maxBat), if db == null then None else Some(old(db.View())))
    {
      mintMaxBat, database := maxBat, db;
      Repr := {this} + Set(maxBat) + if db == null then {} else db.Repr;
    }

    method DeepCopyInto(out: AuthConfig)
      requires Valid() && out !in Repr
      modifies out
      ensures out.Valid() && out.View() == old(View()) && fresh(out.Repr - {out})
      ensures out.levels == levels && SameInt(mintMaxBat, out.mintMaxBat)
      ensures database == null <==> out.database == null
    {
      Assign(out);
      var maxBat, db := CopyPointers();
      out.SetPointers(maxBat, db);
    }

    method DeepCopy() returns (out: AuthConfig)
      requires Valid()
      ensures out.Valid() && out.View() == View() && fresh(out.Repr)
    {
      out := new AuthConfig(levels);
      DeepCopyInto(out);
    }

    method SetURL(u: string)
      requires Valid() && database != null && database.postgres != null
      modifies database.postgres
      ensures Valid() && Repr == old(Repr)
      ensures View() == old(View()).(database := Some(Some(WithURL(old(database.postgres.View()), u))))
    {
      database.postgres.SetURL(u);
    }
  }

  ghost function AuthRepr(p: AuthConfig?): set<object>
    reads p
  {
    if p == null then {} else p.Repr
  }

  ghost function AuthView(p: AuthConfig?): Option<AuthGraph>
    requires p != null ==> p.Valid()
    reads p, if p == null then {} else p.Repr
  {
    if p == null then None else Some(p.View())
  }

  method CopyAuth(p: AuthConfig?) returns (q: AuthConfig?)
    requires p != null ==> p.Valid()
    ensures (q != null ==> q.Valid()) && AuthView(q) == AuthView(p) && fresh(AuthRepr(q))
  {
    if p == null {
      return null;
    }
    q := p.DeepCopy();
  }

  class DatabaseConfig {
    ghost var Repr: set<object>
    var engine: string
    var postgres: PostgresConfig?
    var sqlite: SQLiteConfig?

    constructor ()
      ensures Valid() && Repr == {this}
    {
      engine, postgres, sqlite := "", null, null;
      Repr := {this};
    }

    ghost predicate Valid()
      reads this, Repr
    {
      && this in Repr && Set(sqlite) <= Repr
      && (postgres != null ==> postgres in Repr && postgres.Repr <= Repr && postgres.Valid())
    }

    ghost function View(): Database
      requires Valid()
      reads this, Repr
    {
      Database(engine, if postgres == null then None else Some(postgres.View()), SQLiteView(sqlite))
    }

    method SetURL(u: string)
      requires Valid() && postgres != null
      modifies postgres
      ensures Valid() && Repr == old(Repr)
      ensures View() == old(View()).(postgres := Some(WithURL(old(postgres.View()), u)))
    {
      postgres.SetURL(u);
    }

    method Assign(out: DatabaseConfig)
      requires out != this
      modifies out
      ensures out.engine == engine && out.postgres == postgres && out.sqlite == sqlite
    {
      out.engine, out.postgres, out.sqlite := engine, postgres, sqlite;
    }

    method DeepCopyInto(out: DatabaseConfig)
      requires Valid() && out !in Repr
      modifies out
      ensures out.Valid() && out.View() == old(View()) && fresh(out.Repr - {out})
      ensures out.engine == engine && (postgres == null <==> out.postgres == null)
      ensures if sqlite == null then out.sqlite == null
              else out.sqlite != null && out.sqlite.dataDir == sqlite.dataDir
    {
      Assign(out);
      var pg := CopyPostgres(postgres);
      var local := CopySQLite(sqlite);
      out.postgres, out.sqlite := pg, local;
      out.Repr := {out} + Set(local) + if pg == null then {} else pg.Repr;
    }
  }

  /** The database settings are sound, reach these objects and stand for d. (The quantifier keeps what that
      means out of proofs that only pass the fact on.) */
  ghost predicate Stores(c: DatabaseConfig, reach: set<object>, d: Database)
    reads c, c.Repr
  {
    forall b: bool :: WhetherStores(b, c, reach, d) ==> b
  }

  ghost predicate WhetherStores(b: bool, c: DatabaseConfig, reach: set<object>, d: Database)
    reads c, c.Repr
  {
    b == (c.Valid() && c.Repr == reach && c.View() == d)
  }

  lemma StoresMeansView(c: DatabaseConfig, reach: set<object>, d: Database)
    ensures Stores(c, reach, d) <==> c.Valid() && c.Repr == reach && c.View() == d
  {
    assert WhetherStores(c.Valid() && c.Repr == reach && c.View() == d, c, reach, d);
  }

  method CopyDatabase(c: DatabaseConfig, out: DatabaseConfig, ghost d: Database) returns (ghost reach: set<object>)
    requires Stores(c, c.Repr, d) && out !in c.Repr
    modifies out
    ensures Stores(out, reach, d) && fresh(reach - {out})
  {
    StoresMeansView(c, c.Repr, d);
    c.DeepCopyInto(out);
    reach := out.Repr;
    StoresMeansView(out, reach, d);
  }

  // ---------------------------------------------------------------- maps and slices

  /** A Go map: shared by every copy of the reference. */
  class StringMap {
    var entries: map<string, string>

    constructor ()
      ensures entries == map[]
    {
      entries := map[];
    }
  }

  ghost function MapView(p: StringMap?): Option<map<string, string>>
    reads p
  {
    if p == null then None else Some(p.entries)
  }

  /** A range over the map, in whatever order. */
  method CopyMap(p: StringMap?) returns (q: StringMap?)
    ensures MapView(q) == MapView(p) && fresh(Set(q))
  {
    if p == null {
      return null;
    }
    var out := new StringMap();
    var left := p.entries.Keys;
    while left != {}
      invariant left <= p.entries.Keys && out.entries.Keys == p.entries.Keys - left
      invariant forall k | k in out.entries :: out.entries[k] == p.entries[k]
      decreases |left|
    {
      var key :| key in left;
      out.entries := out.entries[key := p.entries[key]];
      left := left - {key};
    }
    assert out.entries == p.entries;
    q := out;
  }

  ghost function SliceView(p: array?<string>): Option<seq<string>>
    reads p
  {
    if p == null then None else Some(p[..])
  }

  /** make and copy */
  method CopySlice(p: array?<string>) returns (q: array?<string>)
    ensures SliceView(q) == SliceView(p) && fresh(Set(q))
  {
    if p == null {
      return null;
    }
    var out := new string[p.Length](_ => "");
    for i := 0 to p.Length
      invariant out[..i] == p[..i]
    {
      out[i] := p[i];
    }
    assert out[..] == out[..p.Length] && p[..] == p[..p.Length];
    q := out;
  }

  // ---------------------------------------------------------------- the mint

  /** A number, a slice and a map that hang off the spec directly: replicas, imagePullSecrets (by name)
      and nodeSelector. */
  datatype Leaves = Leaves(replicas: Int32?, pullSecrets: array?<string>, nodeSelector: StringMap?) {
    ghost function Reach(): set<object> {
      Set(replicas) + Set(pullSecrets) + Set(nodeSelector)
    }

    ghost function View(): LeavesGraph
      reads Reach()
    {
      LeavesGraph(IntView(replicas), SliceView(pullSecrets), MapView(nodeSelector))
    }

    method Copy() returns (c: Leaves)
      ensures c.View() == View() && fresh(c.Reach())
      ensures SameInt(replicas, c.replicas) && (pullSecrets == null <==> c.pullSecrets == null)
    {
      var secrets := CopySlice(pullSecrets);
      var count := CopyInt(replicas);
      var selector := CopyMap(nodeSelector);
      c := Leaves(count, secrets, selector);
    }
  }

  datatype LeavesGraph = LeavesGraph(replicas: Option<int>, pullSecrets: Option<seq<string>>,
                                     nodeSelector: Option<map<string, string>>)

  /** Everything a mint's graph holds, as one value: two graphs are equal exactly if these are. */
  datatype MintGraph = MintGraph(rest: Spec, leaves: LeavesGraph, database: Database, auth: Option<AuthGraph>) {
    function Value(): Spec {
      rest.(replicas := leaves.replicas, database := database,
            auth := if auth.None? then None else Some(auth.value.Value()))
    }
  }

  function ResolvedDatabase(d: Database, u: string): Database {
    if && d.engine == ENGINE_POSTGRES && d.postgres.Some?
       && !d.postgres.value.autoProvision && d.postgres.value.urlSecretRef.Some?
    then d.(postgres := Some(WithURL(d.postgres.value, u))) else d
  }

  predicate NeedsURLIn(a: AuthGraph) {
    a.levels.enabled && a.database.Some? && a.database.value.Some? && a.database.value.value.urlSecretRef.Some?
  }

  function ResolvedAuth(a: Option<AuthGraph>, u: string): Option<AuthGraph> {
    if a.Some? && NeedsURLIn(a.value)
    then Some(a.value.(database := Some(Some(WithURL(a.value.database.value.value, u))))) else a
  }

  function ResolvedGraph(g: MintGraph, u: string, authURL: string): MintGraph {
    g.(database := ResolvedDatabase(g.database, u), auth := ResolvedAuth(g.auth, authURL))
  }

  lemma ResolvedValue(g: MintGraph, u: string, authURL: string)
    ensures ResolvedGraph(g, u, authURL).Value() == Resolve(g.Value(), u, authURL)
  {}

  class CashuMint {
    ghost var Repr: set<object>
    var rest: Spec  // the fields no pointer below stands for
    var leaves: Leaves
    const database: DatabaseConfig  // a struct inside the spec: it lives as long as the mint
    var auth: AuthConfig?

    constructor (rest: Spec)
      ensures Valid() && Repr == {this} + {database} && fresh(database)
    {
      this.rest, leaves, auth := rest, Leaves(null, null, null), null;
      database := new DatabaseConfig();
      new;
      Repr := {this} + {database};
    }

    ghost predicate Valid()
      reads this, Repr
    {
      && this in Repr && leaves.Reach() <= Repr
      && database in Repr && database.Repr <= Repr && database.Valid()
      && (auth != null ==> auth in Repr && auth.Repr <= Repr && auth.Valid())
    }

    ghost function View(): MintGraph
      requires Valid()
      reads this, Repr
    {
      MintGraph(rest, leaves.View(), database.View(), AuthView(auth))
    }

    method Assign(out: CashuMint)
      requires out != this
      modifies out
      ensures out.rest == rest && out.leaves == leaves && out.auth == auth
    {
      out.rest, out.leaves, out.auth := rest, leaves, auth;
    }

    // `*out = *in`, and the struct inside it copied in depth
    method CopyStructs(out: CashuMint, ghost g: MintGraph) returns (ghost reach: set<object>)
      requires Valid() && View() == g && out !in Repr && out.database !in Repr
      modifies out, out.database
      ensures Holds(this, g) && Repr == old(Repr) && out.rest == rest
      ensures Stores(out.database, reach, g.database) && fresh(reach - {out.database})
    {
      HoldsMeansView(this, g);
      StoresMeansView(database, database.Repr, g.database);
      Assign(out);
      reach := CopyDatabase(database, out.database, g.database);
      assert Holds(this, g);
    }

    method CopyPointers(ghost g: MintGraph) returns (l: Leaves, a: AuthConfig?)
      requires Holds(this, g)
      ensures (a != null ==> a.Valid()) && fresh(l.Reach() + AuthRepr(a))
      ensures g == MintGraph(rest, l.View(), g.database, AuthView(a))
    {
      HoldsMeansView(this, g);
      l := leaves.Copy();
      a := CopyAuth(auth);
    }

    // the same, beside a struct that is copied already
    method CopyBeside(ghost g: MintGraph, ghost db: DatabaseConfig, ghost reach: set<object>)
        returns (l: Leaves, a: AuthConfig?)
      requires Holds(this, g) && Stores(db, reach, g.database)
      ensures Holds(this, g) && Stores(db, reach, g.database) && reach !! AuthRepr(a)
      ensures (a != null ==> a.Valid()) && fresh(l.Reach() + AuthRepr(a))
      ensures g == MintGraph(rest, l.View(), g.database, AuthView(a))
    {
      l, a := CopyPointers(g);
      assert Holds(this, g) && Stores(db, reach, g.database);
    }

    // the two halves share nothing, which a mint read from elsewhere need not satisfy
    ghost predicate Separate()
      reads this, database, auth
    {
      auth != null ==> database.Repr !! auth.Repr
    }

    method CopyParts(out: CashuMint, ghost g: MintGraph) returns (l: Leaves, a: AuthConfig?, ghost reach: set<object>)
      requires Valid() && View() == g && out !in Repr && out.database !in Repr
      modifies out, out.database
      ensures Holds(this, g) && Repr == old(Repr) && Stores(out.database, reach, g.database)
      ensures (a != null ==> a.Valid()) && g == MintGraph(out.rest, l.View(), g.database, AuthView(a))
      ensures fresh(reach - {out.database}) && fresh(l.Reach() + AuthRepr(a)) && reach !! AuthRepr(a)
    {
      reach := CopyStructs(out, g);
      l, a := CopyBeside(g, out.database, reach);
    }

    // the pointers of the copy, set when the struct in it is done
    method SetPointers(l: Leaves, a: AuthConfig?, ghost reach: set<object>, ghost g: MintGraph)
      requires Stores(database, reach, g.database) && this !in reach
      requires (a != null ==> a.Valid() && this !in a.Repr) && reach !! AuthRepr(a)
      requires g == MintGraph(rest, l.View(), g.database, AuthView(a))
      modifies this
      ensures Holds(this, g) && Separate()
      ensures Repr == {this} + l.Reach() + reach + AuthRepr(a)
    {
      StoresMeansView(database, reach, g.database);
      leaves, auth := l, a;
      Repr := {this} + l.Reach() + reach + AuthRepr(a);
      HoldsMeansView(this, g);
    }

    method DeepCopyInto(out: CashuMint)
      requires Valid() && out !in Repr && out.database !in Repr
      modifies out, out.database
      ensures Valid() && View() == old(View())
      ensures out.Valid() && out.View() == View() && out.Separate()
      ensures fresh(out.Repr - {out} - {out.database})
      ensures out.rest == rest && (auth == null <==> out.auth == null)
    {
      ghost var g := View();
      var l, a;
      ghost var reach;
      l, a, reach := CopyParts(out, g);
      out.SetPointers(l, a, reach, g);
      assert Holds(this, g);
      HoldsMeansView(this, g);
      HoldsMeansView(out, g);
    }

    method DeepCopy() returns (out: CashuMint)
      requires Valid()
      ensures out.Valid() && out.View() == View() && out.Separate() && fresh(out.Repr)
    {
      out := new CashuMint(rest);
      DeepCopyInto(out);
    }

    method ResolveDatabase(u: string)
      requires Valid() && Separate()
      modifies Repr
      ensures Valid() && Separate() && Repr == old(Repr)
      ensures View() == old(View()).(database := ResolvedDatabase(old(View()).database, u))
    {
      if database.engine == ENGINE_POSTGRES && database.postgres != null {
        var pg := database.postgres;
        if pg.autoProvision {
          // the password is read instead, and config.toml builds the URL around it
        } else if pg.urlSecretRef != null {
          database.SetURL(u);
        }
      }
    }

    method ResolveAuth(u: string)
      requires Valid() && Separate()
      modifies Repr
      ensures Valid() && Separate() && Repr == old(Repr)
      ensures View() == old(View()).(auth := ResolvedAuth(old(View()).auth, u))
    {
      if auth != null && auth.levels.enabled && auth.database != null && auth.database.postgres != null
         && auth.database.postgres.urlSecretRef != null {
        auth.SetURL(u);
      }
    }

    method ResolveURLs(u: string, authURL: string)
      requires Valid() && Separate()
      modifies Repr
      ensures Valid() && Repr == old(Repr) && View() == ResolvedGraph(old(View()), u, authURL)
    {
      ResolveDatabase(u);
      ResolveAuth(authURL);
    }

    /** reconcileConfigMap: copy, then put the secret's URL in place of the reference on the copy. The
        mint itself stays as it was: no object of it is among those the method may change. The spec the
        copy stands for is Resolve of the mint's (ResolvedValue). */
    method ConfigCopy(u: string, authURL: string) returns (copy: CashuMint)
      requires Valid()
      ensures Valid() && View() == old(View())
      ensures copy.Valid() && fresh(copy.Repr) && copy.View() == ResolvedGraph(View(), u, authURL)
    {
      ghost var was := View();
      copy := DeepCopy();
      copy.ResolveURLs(u, authURL);
      assert Valid() && View() == was;
    }
  }

  // ---------------------------------------------------------------- lists

  /** The graph of a mint is sound and holds g. (The quantifier keeps what that means out of proofs that only
      pass the fact on.) */
  ghost predicate Holds(m: CashuMint, g: MintGraph)
    reads m, m.Repr
  {
    forall b: bool :: WhetherHolds(b, m, g) ==> b
  }

  ghost predicate WhetherHolds(b: bool, m: CashuMint, g: MintGraph)
    reads m, m.Repr
  {
    b == (m.Valid() && m.View() == g)
  }

  lemma HoldsMeansView(m: CashuMint, g: MintGraph)
    ensures Holds(m, g) <==> m.Valid() && m.View() == g
  {
    assert WhetherHolds(m.Valid() && m.View() == g, m, g);
  }

  ghost function Reprs(s: seq<CashuMint>): set<object>
    reads s
  {
    set i, o | 0 <= i < |s| && o in s[i].Repr :: o
  }

  /** The elements hold these graphs, in this order. */
  ghost predicate AllHold(s: seq<CashuMint>, gs: seq<MintGraph>)
    reads s, Reprs(s)
  {
    |s| == |gs| && forall i :: 0 <= i < |s| ==> Holds(s[i], gs[i])
  }

  // no two elements reach a common object
  ghost predicate Apart(s: seq<CashuMint>)
    reads s
  {
    forall i, j :: 0 <= i < j < |s| ==> s[i].Repr !! s[j].Repr
  }

  class CashuMintList {
    var resourceVersion: string
    var items: Option<seq<CashuMint>>  // None is the nil slice

    constructor ()
      ensures items == None
    {
      resourceVersion, items := "", None;
    }

    ghost function Elements(): seq<CashuMint>
      reads this
    {
      if items.None? then [] else items.value
    }

    method DeepCopyInto(out: CashuMintList, ghost gs: seq<MintGraph>)
      requires AllHold(Elements(), gs) && out != this && out !in Reprs(Elements())
      modifies out
      ensures out.resourceVersion == resourceVersion && (out.items == None <==> items == None)
      ensures AllHold(out.Elements(), gs) && AllHold(Elements(), gs)
      ensures Apart(out.Elements()) && forall i :: 0 <= i < |out.Elements()| ==> fresh(out.Elements()[i].Repr)
    {
      out.resourceVersion, out.items := resourceVersion, items;
      if items.Some? {
        var copied := CopyItems(items.value, gs);
        assert out !in Reprs(copied);
        out.items := Some(copied);
      }
    }

    method DeepCopy(ghost gs: seq<MintGraph>) returns (out: CashuMintList)
      requires AllHold(Elements(), gs)
      ensures fresh(out) && out.resourceVersion == resourceVersion && (out.items == None <==> items == None)
      ensures AllHold(out.Elements(), gs) && AllHold(Elements(), gs)
      ensures Apart(out.Elements()) && forall i :: 0 <= i < |out.Elements()| ==> fresh(out.Elements()[i].Repr)
    {
      out := new CashuMintList();
      DeepCopyInto(out, gs);
    }
  }

  method Append(c: seq<CashuMint>, m: CashuMint, ghost g: MintGraph) returns (d: seq<CashuMint>)
    requires Apart(c) && Holds(m, g)
    ensures |d| == |c| + 1 && d[..|c|] == c && Holds(d[|c|], g) && fresh(d[|c|].Repr) && Apart(d)
  {
    HoldsMeansView(m, g);
    var copied := m.DeepCopy();
    HoldsMeansView(copied, g);
    d := c + [copied];
  }

  method CopyItems(s: seq<CashuMint>, ghost gs: seq<MintGraph>) returns (c: seq<CashuMint>)
    requires AllHold(s, gs)
    ensures AllHold(c, gs) && Apart(c) && forall i :: 0 <= i < |c| ==> fresh(c[i].Repr)
  {
    c := [];
    for i := 0 to |s|
      invariant |c| == i && Apart(c)
      invariant forall j :: 0 <= j < i ==> Holds(c[j], gs[j]) && fresh(c[j].Repr)
    {
      c := Append(c, s[i], gs[i]);
    }
  }
}
