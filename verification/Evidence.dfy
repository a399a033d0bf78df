/** What a Reconcile has behind it when it applies config.toml and the Deployment: the keys it read, and
    the Secrets, the ConfigMap and the claims the pod refers to. */
module Evidence {
  import opened Options
  import opened MintTypes
  import opened Plan
  import opened Cluster
  import opened Runs
  import opened Rollout
  import Toml
  import TomlDoc
  import ConfigToml
  import TomlLayout
  import ConfigTables

  // ---------------------------------------------------------------- every note was taken in this Reconcile

  predicate Takes(a: Action, note: Note) {
    a == Op(Noted(note)) || (note.Put? && a.Op? && a.op.Apply? && a.op.kind == note.kind)
  }

  predicate NotedAt(e: Setup, w: World, log: seq<Action>, n: nat, m: Mint, note: Note) {
    && n < |log| && Takes(log[n], note) && SamePass(log, n)
    && At(e, w, log, n).pass.Some? && At(e, w, log, n).pass.value.mint == m
  }

  lemma OpKeepsPassMint(e: Setup, w: World, a: OpAction)
    requires w.pass.Some? && !a.Began?
    ensures OpEffect(e, w, a).pass.Some? && OpEffect(e, w, a).pass.value.mint == w.pass.value.mint
  {}

  lemma OpTakesNotes(e: Setup, w: World, a: OpAction, note: Note)
    requires Allowed(e, w, a) && NotesSound(w) && note in OpEffect(e, w, a).notes
    ensures !a.Began? && w.pass.Some? && (note in w.notes || Takes(Op(a), note))
  {}

  lemma KeepsNotes(e: Setup, w: World, a: Action, note: Note)
    requires StepAllowed(e, w, a) && NotesSound(w) && note in Effect(e, w, a).notes
    ensures !(a.Op? && a.op.Began?) && (note in w.notes || Takes(a, note))
    ensures w.pass.Some? && Effect(e, w, a).pass.Some? && w.pass.value.mint == Effect(e, w, a).pass.value.mint
  {
    if a.Env? {
      EnvKeepsPassAndNotes(e, w, a.env);
    } else {
      OpTakesNotes(e, w, a.op, note);
      OpKeepsPassMint(e, w, a.op);
    }
  }

  lemma LongerNoted(e: Setup, w: World, log: seq<Action>, n: nat, m: Mint, note: Note)
    requires log != [] && NotedAt(e, w, log[..|log| - 1], n, m, note)
    requires !(log[|log| - 1].Op? && log[|log| - 1].op.Began?)
    ensures NotedAt(e, w, log, n, m, note)
  {
    assert log[..|log| - 1][..n] == log[..n];
  }

  lemma {:induction false} NoteWitness(e: Setup, w: World, log: seq<Action>, note: Note) returns (n: nat)
    requires Inv(e, w) && Good(e, w, log) && w.pass.None? && note in Run(e, w, log).notes
    ensures Run(e, w, log).pass.Some? && NotedAt(e, w, log, n, Run(e, w, log).pass.value.mint, note)
  {
    var last := |log| - 1;
    assert log[..|log|] == log;
    StepAt(e, w, log, last);
    KeepsNotes(e, At(e, w, log, last), log[last], note);
    if note in At(e, w, log, last).notes {
      n := NoteWitness(e, w, log[..last], note);
      LongerNoted(e, w, log, n, Run(e, w, log).pass.value.mint, note);
    } else {
      n := last;
    }
  }

  /** A note in the memory of the moment before step j was taken earlier in the same Reconcile, and what it
      says was so then. */
  lemma NoteBefore(e: Setup, w: World, log: seq<Action>, j: nat, note: Note) returns (n: nat)
    requires Inv(e, w) && Good(e, w, log) && w.pass.None? && j < |log| && note in At(e, w, log, j).notes
    ensures At(e, w, log, j).pass.Some? && n < j
    ensures NotedAt(e, w, log[..j], n, At(e, w, log, j).pass.value.mint, note)
    ensures !note.Put? ==> NoteTrue(At(e, w, log, n), note)
  {
    GoodPrefix(e, w, log, j);
    n := NoteWitness(e, w, log[..j], note);
    StepAt(e, w, log, n);
    assert log[..j][..n] == log[..n];
  }

  // ---------------------------------------------------------------- urls that were read

  /** The Secret is there, has the key, and this under it, which is not empty. */
  predicate Holds(w: World, ref: SecretKey, value: string) {
    && ref.name != "" && ref.key != "" && ref.name in w.secrets && ref.key in w.secrets[ref.name].data
    && w.secrets[ref.name].data[ref.key] == value && value != ""
  }

  /** The url in a config.toml is the value the key the user named held at an earlier moment of the same
      Reconcile. */
  lemma URLWasRead(e: Setup, w: World, log: seq<Action>, j: nat) returns (n: nat)
    requires Inv(e, w) && Good(e, w, log) && w.pass.None? && j < |log|
    requires log[j].Op? && log[j].op.ApplyConfig? && NeedsURL(log[j].op.built.spec)
    ensures var ref, url := log[j].op.built.spec.database.postgres.value.urlSecretRef.value, log[j].op.url;
            && At(e, w, log, j).pass.Some? && n < j
            && NotedAt(e, w, log[..j], n, At(e, w, log, j).pass.value.mint, ReadKey(ref, url))
            && Holds(At(e, w, log, n), ref, url)
  {
    StepAt(e, w, log, j);
    var ref := log[j].op.built.spec.database.postgres.value.urlSecretRef.value;
    n := NoteBefore(e, w, log, j, ReadKey(ref, log[j].op.url));
  }

  lemma AuthURLWasRead(e: Setup, w: World, log: seq<Action>, j: nat) returns (n: nat)
    requires Inv(e, w) && Good(e, w, log) && w.pass.None? && j < |log|
    requires log[j].Op? && log[j].op.ApplyConfig? && NeedsAuthURL(log[j].op.built.spec)
    ensures var ref, url := log[j].op.built.spec.auth.value.postgres.value.urlSecretRef.value, log[j].op.authURL;
            && At(e, w, log, j).pass.Some? && n < j
            && NotedAt(e, w, log[..j], n, At(e, w, log, j).pass.value.mint, ReadKey(ref, url))
            && Holds(At(e, w, log, n), ref, url)
  {
    StepAt(e, w, log, j);
    var ref := log[j].op.built.spec.auth.value.postgres.value.urlSecretRef.value;
    n := NoteBefore(e, w, log, j, ReadKey(ref, log[j].op.authURL));
  }

  lemma TextOfConfig(e: Setup, w: World, log: seq<Action>, j: nat) returns (password: string)
    requires Inv(e, w) && Good(e, w, log) && j < |log| && log[j].Op? && log[j].op.ApplyConfig?
    ensures log[j].op.built.text == e.render(Resolve(log[j].op.built.spec, log[j].op.url, log[j].op.authURL), password)
  {
    StepAt(e, w, log, j);
    password := ConfigPassword(e, At(e, w, log, j), log[j].op.built.spec);
  }

  lemma FileOfURL(e: Setup, isPrint: char -> bool, s: Spec, url: string, authURL: string, password: string)
      returns (doc: TomlDoc.Doc)
    requires Renders(e, isPrint) && NeedsURL(s) && url != ""
    ensures e.render(Resolve(s, url, authURL), password) == TomlDoc.DocText(isPrint, doc)
    ensures TomlLayout.Lookup(doc, ["database", "postgres"], "url") == Some(Toml.Str(url))
  {
    var r := Resolve(s, url, authURL);
    doc := ConfigToml.ConfigDoc(r, e.name, password);
    ConfigTables.PostgresTable(r, e.name, password);
  }

  lemma FileOfAuthURL(e: Setup, isPrint: char -> bool, s: Spec, url: string, authURL: string, password: string)
      returns (doc: TomlDoc.Doc)
    requires Renders(e, isPrint) && NeedsAuthURL(s)
    ensures e.render(Resolve(s, url, authURL), password) == TomlDoc.DocText(isPrint, doc)
    ensures TomlLayout.Lookup(doc, ["auth_database", "postgres"], "url") == Some(Toml.Str(authURL))
  {
    var r := Resolve(s, url, authURL);
    doc := ConfigToml.ConfigDoc(r, e.name, password);
    ConfigTables.AuthPostgresTable(r, e.name, password);
  }

  /** Where the main database url comes from a Secret, the file says what the Secret said. */
  lemma FileHasURLRead(e: Setup, isPrint: char -> bool, w: World, log: seq<Action>, j: nat)
      returns (n: nat, url: string, doc: TomlDoc.Doc)
    requires Renders(e, isPrint) && Inv(e, w) && Good(e, w, log) && w.pass.None? && j < |log|
    requires log[j].Op? && log[j].op.ApplyConfig?
    requires var database := log[j].op.built.spec.database;
             && database.engine == "postgres" && database.postgres.Some?
             && !database.postgres.value.autoProvision && database.postgres.value.urlSecretRef.Some?
    ensures n < j && SamePass(log[..j], n) && log[j].op.built.text == TomlDoc.DocText(isPrint, doc)
    ensures Holds(At(e, w, log, n), log[j].op.built.spec.database.postgres.value.urlSecretRef.value, url)
    ensures TomlLayout.Lookup(doc, ["database", "postgres"], "url") == Some(Toml.Str(url))
  {
    n := URLWasRead(e, w, log, j);
    var password := TextOfConfig(e, w, log, j);
    url := log[j].op.url;
    doc := FileOfURL(e, isPrint, log[j].op.built.spec, url, log[j].op.authURL, password);
  }

  /** And so for the database of the auth block. */
  lemma FileHasAuthURLRead(e: Setup, isPrint: char -> bool, w: World, log: seq<Action>, j: nat)
      returns (n: nat, url: string, doc: TomlDoc.Doc)
    requires Renders(e, isPrint) && Inv(e, w) && Good(e, w, log) && w.pass.None? && j < |log|
    requires log[j].Op? && log[j].op.ApplyConfig?
    requires var auth := log[j].op.built.spec.auth;
             && auth.Some? && auth.value.enabled && auth.value.postgres.Some?
             && auth.value.postgres.value.urlSecretRef.Some?
    ensures n < j && SamePass(log[..j], n) && log[j].op.built.text == TomlDoc.DocText(isPrint, doc)
    ensures Holds(At(e, w, log, n), log[j].op.built.spec.auth.value.postgres.value.urlSecretRef.value, url)
    ensures TomlLayout.Lookup(doc, ["auth_database", "postgres"], "url") == Some(Toml.Str(url))
  {
    n := AuthURLWasRead(e, w, log, j);
    var password := TextOfConfig(e, w, log, j);
    url := log[j].op.authURL;
    doc := FileOfAuthURL(e, isPrint, log[j].op.built.spec, log[j].op.url, url, password);
  }

  /** A provisioned postgres mint gets the password of the Secret in its url, as it stands at the apply. */
  lemma FileHasPassword(e: Setup, isPrint: char -> bool, w: World, built: Obj, url: string, authURL: string)
      returns (doc: TomlDoc.Doc, password: string)
    requires Renders(e, isPrint) && Allowed(e, w, ApplyConfig(built, url, authURL))
    requires built.spec.database.engine == "postgres" && built.spec.database.postgres.Some?
             && built.spec.database.postgres.value.autoProvision
    ensures built.text == TomlDoc.DocText(isPrint, doc)
    ensures Holds(w, SecretKey(e.name + "-postgres-secret", "password"), password)
    ensures TomlLayout.Lookup(doc, ["database", "postgres"], "url")
         == Some(Toml.Str("postgresql://cdk:" + password + "@" + e.name
                          + "-postgres:5432/cdk_mintd?sslmode=disable"))
  {
    var r := Resolve(built.spec, url, authURL);
    password := ConfigPassword(e, w, built.spec);
    doc := ConfigToml.ConfigDoc(r, e.name, password);
    ConfigTables.PostgresTable(r, e.name, password);
  }

  /** Step b begins the Reconcile that step j belongs to. */
  predicate BeganAt(log: seq<Action>, b: nat, j: nat, m: Mint) {
    && b < j < |log| && log[b] == Op(Began(m))
    && forall k | b < k <= j :: !(log[k].Op? && log[k].op.Began?)
  }

  lemma PassGoesOn(e: Setup, w: World, a: Action)
    requires w.pass.Some? && !(a.Op? && a.op.Began?)
    ensures Effect(e, w, a).pass.Some? && Effect(e, w, a).pass.value.mint == w.pass.value.mint
  {
    if a.Env? {
      EnvKeepsPassAndNotes(e, w, a.env);
    } else {
      OpKeepsPassMint(e, w, a.op);
    }
  }

  lemma {:induction false} PassOf(e: Setup, w: World, log: seq<Action>, b: nat, j: nat, m: Mint)
    requires Inv(e, w) && Good(e, w, log) && BeganAt(log, b, j, m)
    ensures At(e, w, log, j).pass.Some? && At(e, w, log, j).pass.value.mint == m
    decreases j
  {
    StepAt(e, w, log, j - 1);
    if b < j - 1 {
      PassOf(e, w, log, b, j - 1, m);
      PassGoesOn(e, At(e, w, log, j - 1), log[j - 1]);
    }
  }

  /** A credential config.toml needs. */
  datatype Credential = MainURL | AuthURL | PostgresPassword

  predicate NeedsCredential(s: Spec, c: Credential) {
    match c
    case MainURL => NeedsURL(s)
    case AuthURL => NeedsAuthURL(s)
    case PostgresPassword => ProvisionedConfig(s)
  }

  predicate Readable(e: Setup, w: World, s: Spec, c: Credential)
    requires NeedsCredential(s, c)
  {
    match c
    case MainURL => RefReady(w, s.database.postgres.value.urlSecretRef.value)
    case AuthURL => RefReady(w, s.auth.value.postgres.value.urlSecretRef.value)
    case PostgresPassword => Password(e, w) != ""
  }

  /** A config.toml is applied only after each credential it needs was readable in the same Reconcile. */
  lemma ConfigNeedsCredential(e: Setup, w: World, log: seq<Action>, b: nat, j: nat, m: Mint, c: Credential)
      returns (n: nat)
    requires Inv(e, w) && Good(e, w, log) && w.pass.None? && BeganAt(log, b, j, m)
    requires NeedsCredential(m.spec, c) && log[j].Op? && log[j].op.ApplyConfig?
    ensures b < n <= j && Readable(e, At(e, w, log, n), m.spec, c)
  {
    PassOf(e, w, log, b, j, m);
    StepAt(e, w, log, j);
    match c
    case MainURL =>
      n := URLWasRead(e, w, log, j);
      AfterTheBeginning(log, b, j, m, n);
    case AuthURL =>
      n := AuthURLWasRead(e, w, log, j);
      AfterTheBeginning(log, b, j, m, n);
    case PostgresPassword =>
      n := j;
  }

  lemma AfterTheBeginning(log: seq<Action>, b: nat, j: nat, m: Mint, n: nat)
    requires BeganAt(log, b, j, m) && n < j && SamePass(log[..j], n) && !(log[n].Op? && log[n].op.Began?)
    ensures b < n
  {
    assert log[..j][b] == log[b];
  }

  /** If a credential the mint needs can be read at no moment of a Reconcile, that Reconcile applies no
      config.toml, claim, Deployment, Service, PodMonitor, Ingress or Certificate. */
  lemma NothingWithoutCredentials(e: Setup, w: World, log: seq<Action>, b: nat, j: nat, m: Mint, c: Credential)
    requires Inv(e, w) && Good(e, w, log) && w.pass.None? && BeganAt(log, b, j, m) && NeedsCredential(m.spec, c)
    requires forall n | b < n <= j :: !Readable(e, At(e, w, log, n), m.spec, c)
    ensures log[j].Op? ==>
              !log[j].op.ApplyConfig?
              && (log[j].op.Apply? ==> log[j].op.kind in {PostgresService, PostgresStatefulSet, BackupCronJob})
  {
    if log[j].Op? && log[j].op.ApplyConfig? {
      var n := ConfigNeedsCredential(e, w, log, b, j, m, c);
    } else if log[j].Op? && log[j].op.Apply? && !BeforeConfig(log[j].op.kind) {
      var i, text := NoRolloutWithoutConfig(e, w, log, j);
      assert log[..j][i] == log[i];
      AfterTheBeginning(log, b, j, m, i);
      var n := ConfigNeedsCredential(e, w, log, b, i, m, c);
    }
  }
}
