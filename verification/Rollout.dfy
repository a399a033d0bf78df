/** What every applied Deployment, every Ready status and every postgres start rest on. */
module Rollout {
  import opened Options
  import opened MintTypes
  import opened Plan
  import opened Cluster
  import opened Inventory
  import opened Runs
  import opened Toml
  import opened TomlDoc
  import opened ConfigToml
  import opened ConfigMeaning
  import opened Validation
  import Credentials

  // ---------------------------------------------------------------- evidence from the same Reconcile

  /** No other Reconcile began after step n. */
  predicate SamePass(log: seq<Action>, n: nat) {
    forall k | n <= k < |log| :: !(log[k].Op? && log[k].op.Began?)
  }

  predicate SawReadyAt(e: Setup, w: World, log: seq<Action>, n: nat, m: Mint) {
    && n < |log| && log[n] == Op(SawReady) && SamePass(log, n)
    && At(e, w, log, n).pass.Some? && At(e, w, log, n).pass.value.mint == m
  }

  lemma EnvKeepsPassAndNotes(e: Setup, w: World, a: EnvAction)
    ensures EnvEffect(e, w, a).pass == w.pass && EnvEffect(e, w, a).notes == w.notes
  {}

  lemma OpKeepsReady(e: Setup, w: World, a: OpAction)
    requires OpEffect(e, w, a).pass.Some? && OpEffect(e, w, a).pass.value.ready
    ensures w.pass.Some? && !a.Began? && w.pass.value.mint == OpEffect(e, w, a).pass.value.mint
    ensures w.pass.value.ready || a == SawReady
  {}

  lemma KeepsReady(e: Setup, w: World, a: Action)
    requires Effect(e, w, a).pass.Some? && Effect(e, w, a).pass.value.ready
    ensures w.pass.Some? && !(a.Op? && a.op.Began?)
    ensures w.pass.value.mint == Effect(e, w, a).pass.value.mint
    ensures w.pass.value.ready || a == Op(SawReady)
  {
    if a.Env? {
      EnvKeepsPassAndNotes(e, w, a.env);
    } else {
      OpKeepsReady(e, w, a.op);
    }
  }

  lemma LongerSaw(e: Setup, w: World, log: seq<Action>, n: nat, m: Mint)
    requires log != [] && SawReadyAt(e, w, log[..|log| - 1], n, m)
    requires !(log[|log| - 1].Op? && log[|log| - 1].op.Began?)
    ensures SawReadyAt(e, w, log, n, m)
  {
    assert log[..|log| - 1][..n] == log[..n];
  }

  /** What the operator remembers seeing ready it saw ready, in this Reconcile. */
  lemma {:induction false} ReadyWitness(e: Setup, w: World, log: seq<Action>) returns (n: nat)
    requires Inv(e, w) && Good(e, w, log) && w.pass.None?
    requires Run(e, w, log).pass.Some? && Run(e, w, log).pass.value.ready
    ensures SawReadyAt(e, w, log, n, Run(e, w, log).pass.value.mint)
  {
    var last := |log| - 1;
    assert log[..|log|] == log;
    StepAt(e, w, log, last);
    KeepsReady(e, At(e, w, log, last), log[last]);
    if At(e, w, log, last).pass.value.ready {
      n := ReadyWitness(e, w, log[..last]);
      LongerSaw(e, w, log, n, Run(e, w, log).pass.value.mint);
    } else {
      n := last;
    }
  }

  predicate BecomesReady(w: World, w': World) {
    w'.cr.Some? && ReadyTrue(w'.cr.value.status) && !(SameMint(w, w') && ReadyTrue(w.cr.value.status))
  }

  lemma EnvMakesNothingReady(e: Setup, w: World, a: EnvAction)
    requires Inv(e, w)
    ensures !BecomesReady(w, EnvEffect(e, w, a))
  {}

  lemma ReadyByWriting(e: Setup, w: World, a: OpAction)
    requires Inv(e, w) && Allowed(e, w, a) && BecomesReady(w, OpEffect(e, w, a))
    ensures w.pass.Some? && w.pass.value.ready
  {}

  lemma ReadyNext(e: Setup, w: World, log: seq<Action>, j: nat)
    requires Inv(e, w) && Good(e, w, log) && j < |log| && BecomesReady(At(e, w, log, j), At(e, w, log, j + 1))
    ensures At(e, w, log, j).pass.Some? && At(e, w, log, j).pass.value.ready
  {
    StepAt(e, w, log, j);
    if log[j].Env? {
      EnvMakesNothingReady(e, At(e, w, log, j), log[j].env);
    } else {
      ReadyByWriting(e, At(e, w, log, j), log[j].op);
    }
  }

  lemma SawReadyMeans(e: Setup, w: World, log: seq<Action>, n: nat)
    requires Inv(e, w) && Good(e, w, log) && n < |log| && log[n] == Op(SawReady)
    ensures At(e, w, log, n).pass.Some?
    ensures DeploymentReady(At(e, w, log, n)) && Placed(At(e, w, log, n), At(e, w, log, n).pass.value.mint, ALL_KINDS)
  {
    StepAt(e, w, log, n);
  }

  /** Ready=True is newly stored only when, earlier in the same Reconcile, there was a moment at which
      every object of the spec it works on was there and the Deployment had all its replicas ready, updated
      and available. */
  lemma ReadyHasEvidence(e: Setup, w: World, log: seq<Action>, j: nat) returns (n: nat, m: Mint)
    requires Inv(e, w) && Good(e, w, log) && w.pass.None? && j < |log|
             && BecomesReady(At(e, w, log, j), At(e, w, log, j + 1))
    ensures n < j && SawReadyAt(e, w, log[..j], n, m) && Complete(At(e, w, log, n), m)
    ensures var counts := At(e, w, log, n).deployment;
            counts.ready == counts.updated == counts.available
            == if m.spec.replicas.Some? then m.spec.replicas.value else 1
  {
    ReadyNext(e, w, log, j);
    GoodPrefix(e, w, log, j);
    m := At(e, w, log, j).pass.value.mint;
    n := ReadyWitness(e, w, log[..j]);
    assert log[..j][..n] == log[..n];
    SawReadyMeans(e, w, log, n);
    PlacedIsComplete(At(e, w, log, n), m);
    ReadyMeansReplicas(At(e, w, log, n), m);
  }

  // ---------------------------------------------------------------- config.toml before everything that uses it

  predicate ConfigAt(e: Setup, w: World, log: seq<Action>, n: nat, m: Mint, text: string) {
    && n < |log| && log[n].Op? && log[n].op.ApplyConfig? && log[n].op.built.text == text && SamePass(log, n)
    && At(e, w, log, n).pass.Some? && At(e, w, log, n).pass.value.mint == m
  }

  lemma OpKeepsConfig(e: Setup, w: World, a: OpAction)
    requires OpEffect(e, w, a).pass.Some? && OpEffect(e, w, a).pass.value.config.Some?
    ensures w.pass.Some? && !a.Began? && w.pass.value.mint == OpEffect(e, w, a).pass.value.mint
    ensures || w.pass.value.config == OpEffect(e, w, a).pass.value.config
            || (a.ApplyConfig? && OpEffect(e, w, a).pass.value.config == Some(a.built.text))
  {}

  lemma KeepsConfig(e: Setup, w: World, a: Action)
    requires Effect(e, w, a).pass.Some? && Effect(e, w, a).pass.value.config.Some?
    ensures w.pass.Some? && !(a.Op? && a.op.Began?)
    ensures w.pass.value.mint == Effect(e, w, a).pass.value.mint
    ensures || w.pass.value.config == Effect(e, w, a).pass.value.config
            || (a.Op? && a.op.ApplyConfig? && Effect(e, w, a).pass.value.config == Some(a.op.built.text))
  {
    if a.Env? {
      EnvKeepsPassAndNotes(e, w, a.env);
    } else {
      OpKeepsConfig(e, w, a.op);
    }
  }

  lemma LongerConfig(e: Setup, w: World, log: seq<Action>, n: nat, m: Mint, text: string)
    requires log != [] && ConfigAt(e, w, log[..|log| - 1], n, m, text)
    requires !(log[|log| - 1].Op? && log[|log| - 1].op.Began?)
    ensures ConfigAt(e, w, log, n, m, text)
  {
    assert log[..|log| - 1][..n] == log[..n];
  }

  lemma {:induction false} ConfigWitness(e: Setup, w: World, log: seq<Action>) returns (n: nat)
    requires Inv(e, w) && Good(e, w, log) && w.pass.None?
    requires Run(e, w, log).pass.Some? && Run(e, w, log).pass.value.config.Some?
    ensures ConfigAt(e, w, log, n, Run(e, w, log).pass.value.mint, Run(e, w, log).pass.value.config.value)
  {
    var last := |log| - 1;
    var pass := Run(e, w, log).pass.value;
    assert log[..|log|] == log;
    StepAt(e, w, log, last);
    KeepsConfig(e, At(e, w, log, last), log[last]);
    if At(e, w, log, last).pass.value.config == pass.config {
      n := ConfigWitness(e, w, log[..last]);
      LongerConfig(e, w, log, n, pass.mint, pass.config.value);
    } else {
      n := last;
    }
  }

  /** No claim, Deployment, Service, PodMonitor, Ingress or Certificate is applied before the config.toml
      of the same Reconcile, and a Deployment carries the hash of that file. */
  lemma NoRolloutWithoutConfig(e: Setup, w: World, log: seq<Action>, j: nat) returns (n: nat, text: string)
    requires Inv(e, w) && Good(e, w, log) && w.pass.None? && j < |log|
    requires log[j].Op? && log[j].op.Apply?
             && log[j].op.kind !in {PostgresService, PostgresStatefulSet, BackupCronJob}
    ensures n < j && At(e, w, log, j).pass.Some? && ConfigAt(e, w, log[..j], n, At(e, w, log, j).pass.value.mint, text)
    ensures log[j].op.kind == Deployment ==> log[j].op.built.text == e.hash(text)
  {
    StepAt(e, w, log, j);
    GoodPrefix(e, w, log, j);
    text := At(e, w, log, j).pass.value.config.value;
    n := ConfigWitness(e, w, log[..j]);
  }

  // ---------------------------------------------------------------- what config.toml says

  /** The generator of the run is the one of ConfigToml. */
  ghost predicate Renders(e: Setup, isPrint: char -> bool) {
    forall s: Spec, password: string :: e.render(s, password) == ConfigText(isPrint, s, e.name, password)
  }

  lemma ResolvedHasURL(s: Spec, url: string, authURL: string)
    requires Valid(s) && s.database.engine == ENGINE_POSTGRES && (NeedsURL(s) ==> url != "")
    ensures var r := Resolve(s, url, authURL);
            UsesPostgres(r) && AutoProvision(r) == AutoProvision(s)
            && (AutoProvision(r) || r.database.postgres.value.url != "")
  {
    assert !BreaksDatabase(s.database, PostgresMissing) && !BreaksDatabase(s.database, URLMissing);
  }

  /** Every config.toml applied for an admitted postgres mint has a main database url, and it is not
      empty; a provisioned one carries a password that is not empty either. */
  lemma ConfigHasURL(e: Setup, isPrint: char -> bool, w: World, built: Obj, url: string, authURL: string)
      returns (doc: Doc)
    requires Renders(e, isPrint) && Allowed(e, w, ApplyConfig(built, url, authURL))
    requires Valid(built.spec) && built.spec.database.engine == ENGINE_POSTGRES
    ensures built.text == DocText(isPrint, doc) && WellFormed(doc)
    ensures DatabaseURL(doc).Some? && DatabaseURL(doc).value.Str? && DatabaseURL(doc).value.s != ""
    ensures AutoProvision(built.spec) ==>
              Password(e, w) != "" && DatabaseURL(doc).value.s == Credentials.ConfigURL(Password(e, w), e.name)
  {
    var r := Resolve(built.spec, url, authURL);
    var password := ConfigPassword(e, w, built.spec);
    ResolvedHasURL(built.spec, url, authURL);
    doc := ConfigDoc(r, e.name, password);
    MainDatabaseURL(r, e.name, password);
    ConfigWellFormed(r, e.name, password);
  }

  /** The url in the Secret is the one of the url builder. */
  ghost predicate Builds(e: Setup) {
    forall password: string :: e.databaseURL(password) == Credentials.SecretURL(password, e.name)
  }

  /** The database url a provisioned config.toml gives mintd is the one its Secret holds for Orchard. */
  lemma ConfigURLIsSecretURL(e: Setup, isPrint: char -> bool, w: World, built: Obj, url: string, authURL: string)
      returns (doc: Doc)
    requires Inv(e, w) && Renders(e, isPrint) && Builds(e) && Allowed(e, w, ApplyConfig(built, url, authURL))
    requires Valid(built.spec) && ProvisionedConfig(built.spec)
    ensures built.text == DocText(isPrint, doc) && DatabaseURL(doc).Some?
    ensures var n := PostgresSecretName(e.name);
            && n in w.secrets && "database-url" in w.secrets[n].data
            && DatabaseURL(doc).value == Str(w.secrets[n].data["database-url"])
  {
    doc := ConfigHasURL(e, isPrint, w, built, url, authURL);
    PasswordUnowned(e, w);
    assert Shaped(e, PostgresSecretName(e.name), w.secrets[PostgresSecretName(e.name)]);
    Credentials.SameURL(Password(e, w), e.name);
  }

  /** A config.toml applied since the postgres Secret of a later moment was created was generated from
      the password that Secret holds. */
  lemma ConfigKeepsPassword(e: Setup, w: World, log: seq<Action>, j: nat, k: nat)
    requires Inv(e, w) && Good(e, w, log) && j < k <= |log| && log[j].Op? && log[j].op.ApplyConfig?
    requires ProvisionedConfig(log[j].op.built.spec)
    requires var n := PostgresSecretName(e.name);
             n in At(e, w, log, k).secrets && At(e, w, log, k).secrets[n].uid < At(e, w, log, j).clock
    ensures Password(e, At(e, w, log, k)) != ""
    ensures log[j].op.built.text
         == e.render(Resolve(log[j].op.built.spec, log[j].op.url, log[j].op.authURL), Password(e, At(e, w, log, k)))
  {
    StepAt(e, w, log, j);
    SecretCreatedOnce(e, w, log, j, k, PostgresSecretName(e.name));
  }

  // ---------------------------------------------------------------- a run that goes on creating

  lemma Next(e: Setup, w: World, log: seq<Action>, v: World, a: Action) returns (log': seq<Action>, v': World)
    requires v == Run(e, w, log) && Good(e, w, log) && StepAllowed(e, v, a)
    ensures log' == log + [a] && v' == Effect(e, v, a) && v' == Run(e, w, log') && Good(e, w, log')
  {
    log', v' := log + [a], Effect(e, v, a);
    RunNext(e, w, log, a);
  }

  /** A Reconcile that read the CashuMint before its deletion was requested goes on creating. */
  lemma MadeAfterTheRequest(e: Setup, s: Spec, password: string) returns (w: World, log: seq<Action>)
    requires AutoProvision(s) && GoodPassword(password)
    ensures Inv(e, w) && Good(e, w, log) && |log| == 3 && log[1] == Env(RequestDelete)
    ensures Run(e, w, log).cr.Some? && Run(e, w, log).cr.value.deleting
    ensures PostgresSecretName(e.name) !in w.secrets && PostgresSecretName(e.name) in Run(e, w, log).secrets
  {
    var p := PostgresSecretName(e.name);
    var m := Mint(0, s, 1, 0, true, false, NoStatus());
    w := World(Some(m), map[], map[], Counts(0, 0, 0), Counts(0, 0, 0), false, None, NoPod, 1, None, {});
    log := [];
    var v := w;
    log, v := Next(e, w, log, v, Op(Began(m)));
    log, v := Next(e, w, log, v, Env(RequestDelete));
    log, v := Next(e, w, log, v, Op(CreateSecret(p, None, CredentialData(e, password))));
  }
}
