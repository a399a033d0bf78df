/** How the stages of a pass add up. */
module Passes {
  import opened Options
  import opened MintTypes
  import opened Plan
  import opened Cluster
  import opened Inventory
  import opened Rely
  import opened Statuses
  import Env

  // the kinds the stages touch
  const POSTGRES: set<Kind> := {PostgresService} + {PostgresStatefulSet}
  const CLAIMS: set<Kind> := {MintPVC} + {OrchardPVC}
  const SERVICES: set<Kind> := {MintService} + {OrchardServiceKind}
  const INGRESSES: set<Kind> := {MintIngressKind} + {OrchardIngressKind}
  const CERTIFICATES: set<Kind> := {MintCertificate} + {OrchardCertificate}
  const EARLY: set<Kind> := POSTGRES + {BackupCronJob}
  const ROLLOUT: set<Kind> := CLAIMS + ({Deployment} + (SERVICES + {PodMonitor}))
  const LATE: set<Kind> := ROLLOUT + (INGRESSES + CERTIFICATES)

  lemma KindsCovered()
    ensures EARLY + {ConfigMap} + LATE == ALL_KINDS && EARLY !! {ConfigMap} && EARLY !! LATE && ConfigMap !in LATE
  {}

  // ---------------------------------------------------------------- secrets in place

  predicate MnemonicIn(e: Setup, w: World, m: Mint) {
    WantsMnemonic(m.spec) ==> Env.MnemonicSecretName(e.name) in w.secrets
  }

  predicate PostgresIn(e: Setup, w: World, m: Mint) {
    AutoProvision(m.spec) ==> PostgresSecretName(e.name) in w.secrets
  }

  predicate TLSIn(e: Setup, w: World, m: Mint) {
    ManagementTLSOn(m.spec) ==> ManagementTLSSecretName(m.spec, e.name) in w.secrets
  }

  lemma SecretsGrow(e: Setup, w: World, w': World, m: Mint)
    requires Grown(w, w')
    ensures MnemonicIn(e, w, m) ==> MnemonicIn(e, w', m)
    ensures PostgresIn(e, w, m) ==> PostgresIn(e, w', m)
    ensures TLSIn(e, w, m) ==> TLSIn(e, w', m)
  {}

  // ---------------------------------------------------------------- credentials, seen from the beginning of a pass

  /** The key can be read, or belongs to a Secret the pass makes. */
  predicate KeyComes(e: Setup, w: World, s: Spec, ref: SecretKey) {
    || RefReady(w, ref)
    || (ref.name != "" && ref.key != "" && ref.name !in w.secrets && ref.key in MadeKeys(e, s, ref.name))
  }

  predicate UserKeysCome(e: Setup, w: World, s: Spec) {
    && (NeedsURL(s) ==> KeyComes(e, w, s, s.database.postgres.value.urlSecretRef.value))
    && (NeedsAuthURL(s) ==> KeyComes(e, w, s, s.auth.value.postgres.value.urlSecretRef.value))
  }

  /** A pass that nobody disturbs will find its credentials. */
  predicate Willing(e: Setup, w: World, s: Spec) {
    (ProvisionedConfig(s) ==> PasswordFine(e, w)) && UserKeysCome(e, w, s)
  }

  /** Every Secret a pass makes is there. */
  predicate AllIn(e: Setup, w: World, m: Mint) {
    MnemonicIn(e, w, m) && PostgresIn(e, w, m) && TLSIn(e, w, m)
  }

  /** `w'` is what a pass for `m` that nobody disturbed made of `w`, as far as Secrets go. */
  predicate Supplying(e: Setup, m: Mint, w: World, w': World) {
    Grown(w, w') && OnlySupplies(e, w, w') && w.pass.Some? && w.pass.value.mint == m && AllIn(e, w', m)
  }

  lemma KeyDecided(e: Setup, m: Mint, w: World, w': World, ref: SecretKey)
    requires Supplying(e, m, w, w')
    ensures RefReady(w', ref) <==> KeyComes(e, w, m.spec, ref)
  {}

  lemma PasswordDecided(e: Setup, m: Mint, w: World, w': World)
    requires Supplying(e, m, w, w') && ProvisionedConfig(m.spec)
    ensures Password(e, w') != "" <==> PasswordFine(e, w)
  {
    NamesDiffer(e);
  }

  /** Once every Secret a pass makes is there, whether the credentials are is what Willing said before. */
  lemma WillingDecides(e: Setup, w: World, w': World, m: Mint)
    requires Grown(w, w') && Supplies(e, w, w') && w.pass.Some? && w.pass.value.mint == m && AllIn(e, w', m)
    ensures CredentialsReady(e, w', m.spec) <==> Willing(e, w, m.spec)
  {
    SuppliesMeansOnly(e, w, w');
    if ProvisionedConfig(m.spec) {
      PasswordDecided(e, m, w, w');
    }
    if NeedsURL(m.spec) {
      KeyDecided(e, m, w, w', m.spec.database.postgres.value.urlSecretRef.value);
    }
    if NeedsAuthURL(m.spec) {
      KeyDecided(e, m, w, w', m.spec.auth.value.postgres.value.urlSecretRef.value);
    }
  }

  /** Then nothing more comes. */
  lemma NothingMoreComes(e: Setup, w: World, m: Mint)
    requires AllIn(e, w, m)
    ensures Willing(e, w, m.spec) <==> CredentialsReady(e, w, m.spec)
  {}

  // ---------------------------------------------------------------- the Deployment carries the hash

  predicate Hashed(e: Setup, w: World, m: Mint) {
    && ConfigMap in w.objs && w.objs[ConfigMap].owner == m.uid
    && Deployment in w.objs && w.objs[Deployment] == Obj(m.uid, m.spec, e.hash(w.objs[ConfigMap].text))
  }

  lemma ObjStays(e: Setup, m: Mint, a: World, b: World, touched: set<Kind>, k: Kind)
    requires InPass(a, m) && Steady(e, a, b, touched) && k !in touched && k in a.objs && a.objs[k].owner == m.uid
    ensures k in b.objs && b.objs[k] == a.objs[k]
  {
    ObjsKeptMeansSame(a, b, touched);
  }

  lemma HashedStays(e: Setup, m: Mint, a: World, b: World, touched: set<Kind>)
    requires InPass(a, m) && Steady(e, a, b, touched) && ConfigMap !in touched && Deployment !in touched
             && Hashed(e, a, m)
    ensures Hashed(e, b, m)
  {
    ObjStays(e, m, a, b, touched, ConfigMap);
    ObjStays(e, m, a, b, touched, Deployment);
  }

  /** Stages from the Deployment on. */
  ghost predicate Rolled(e: Setup, quiet: bool, m: Mint, w: World, w': World, ks: set<Kind>, failed: bool) {
    && Between(e, quiet, w, w', ks) && w'.pass == w.pass
    && (!failed ==> Placed(w', m, ks)) && (quiet ==> !failed && Hashed(e, w', m))
    && (quiet && Placed(w, m, ks) && Hashed(e, w, m) ==> SameCluster(w, w'))
  }

  /** The Deployment itself. */
  lemma RolledOne(e: Setup, quiet: bool, m: Mint, w: World, w': World, failed: bool)
    requires Between(e, quiet, w, w', {Deployment}) && w'.pass == w.pass && ConfigMap in w.objs
             && w.objs[ConfigMap].owner == m.uid
    requires !failed ==> PlacedOne(w', m, Deployment)
    requires quiet ==> !failed && SameCluster(w', WithHashedDeployment(e, w, m))
    ensures Rolled(e, quiet, m, w, w', {Deployment}, failed)
  {
    if Hashed(e, w, m) {
      assert w.objs[Deployment := Obj(m.uid, m.spec, e.hash(w.objs[ConfigMap].text))] == w.objs;
    }
  }

  lemma RolledFails(e: Setup, quiet: bool, m: Mint, a: World, b: World, ks: set<Kind>, more: set<Kind>)
    requires Between(e, quiet, a, b, ks) && b.pass == a.pass && !quiet && ks <= more
    ensures Rolled(e, quiet, m, a, b, more, true)
  {
    BetweenWider(e, quiet, a, b, ks, more);
  }

  lemma RolledBefore(e: Setup, quiet: bool, m: Mint, a: World, b: World, c: World, first: set<Kind>,
      second: set<Kind>, failed: bool)
    requires InPass(a, m) && first !! second
    requires Applied(e, quiet, m, a, b, first, false) && Rolled(e, quiet, m, b, c, second, failed)
    ensures Rolled(e, quiet, m, a, c, first + second, failed)
  {
    BetweenThen(e, quiet, a, b, c, first, second);
    PassStays(e, m, a, b, first);
    PlacedStays(e, m, b, c, second, first);
    PlacedParts(a, m, first, second);
    PlacedParts(c, m, first, second);
    if quiet && Placed(a, m, first + second) {
      PlacedElsewhere(a, b, m, second);
    }
  }

  lemma RolledAfter(e: Setup, quiet: bool, m: Mint, a: World, b: World, c: World, first: set<Kind>, second: set<Kind>,
      failed: bool)
    requires InPass(a, m) && first !! second && ConfigMap !in second && Deployment !in second
    requires Rolled(e, quiet, m, a, b, first, false) && Applied(e, quiet, m, b, c, second, failed)
    ensures Rolled(e, quiet, m, a, c, first + second, failed)
  {
    BetweenThen(e, quiet, a, b, c, first, second);
    PassStays(e, m, a, b, first);
    PlacedStays(e, m, b, c, second, first);
    PlacedParts(a, m, first, second);
    PlacedParts(c, m, first, second);
    if quiet {
      HashedStays(e, m, b, c, second);
      if Placed(a, m, first + second) && Hashed(e, a, m) {
        PlacedElsewhere(a, b, m, second);
      }
    }
  }

  lemma RolloutThenIngress(e: Setup, quiet: bool, m: Mint, a: World, b: World, c: World, failed: bool)
    requires InPass(a, m) && Rolled(e, quiet, m, a, b, ROLLOUT, false)
    requires Applied(e, quiet, m, b, c, INGRESSES + CERTIFICATES, failed)
    ensures Rolled(e, quiet, m, a, c, LATE, failed)
  {
    RolledAfter(e, quiet, m, a, b, c, ROLLOUT, INGRESSES + CERTIFICATES, failed);
  }

  // ---------------------------------------------------------------- the three parts of a pass

  /** The mnemonic, postgres and the backup. */
  ghost predicate Prepared(e: Setup, quiet: bool, m: Mint, w: World, w': World, failed: bool) {
    && Between(e, quiet, w, w', EARLY) && w'.pass == w.pass
    && (!failed ==> Placed(w', m, EARLY) && SupplyNotes(e, m.spec) <= w'.notes)
    && (quiet ==>
        !failed && MnemonicIn(e, w', m) && PostgresIn(e, w', m))
    && (quiet && Placed(w, m, EARLY) && MnemonicIn(e, w, m) && PostgresIn(e, w, m) ==> SameCluster(w, w'))
  }

  ghost predicate WhetherPrepared(b: bool, e: Setup, quiet: bool, m: Mint, w: World, w': World, failed: bool) {
    b == Prepared(e, quiet, m, w, w', failed)
  }

  /** Prepared, which the quantifier keeps out of proofs that only pass the fact on. */
  ghost predicate FirstPart(e: Setup, quiet: bool, m: Mint, w: World, w': World, failed: bool) {
    forall b: bool :: WhetherPrepared(b, e, quiet, m, w, w', failed) ==> b
  }

  lemma FirstPartMeansPrepared(e: Setup, quiet: bool, m: Mint, w: World, w': World, failed: bool)
    ensures FirstPart(e, quiet, m, w, w', failed) <==> Prepared(e, quiet, m, w, w', failed)
  {
    assert WhetherPrepared(Prepared(e, quiet, m, w, w', failed), e, quiet, m, w, w', failed);
  }

  /** The management TLS bundle and config.toml. */
  ghost predicate Configured(e: Setup, quiet: bool, m: Mint, w: World, w': World, failed: bool) {
    && Between(e, quiet, w, w', {ConfigMap})
    && (!failed ==> ConfigHeld(w', m) && PlacedOne(w', m, ConfigMap) && BundleNotes(e, m.spec) <= w'.notes)
    && (quiet ==>
        TLSIn(e, w', m) && (!failed <==> CredentialsReady(e, w', m.spec)) && (!failed ==> ConfigExact(e, w', m)))
    && (quiet && CredentialsReady(e, w, m.spec) && TLSIn(e, w, m) && ConfigExact(e, w, m) ==> SameCluster(w, w'))
  }

  ghost predicate WhetherConfigured(b: bool, e: Setup, quiet: bool, m: Mint, w: World, w': World, failed: bool) {
    b == Configured(e, quiet, m, w, w', failed)
  }

  /** Configured, which the quantifier keeps out of proofs that only pass the fact on. */
  ghost predicate SecondPart(e: Setup, quiet: bool, m: Mint, w: World, w': World, failed: bool) {
    forall b: bool :: WhetherConfigured(b, e, quiet, m, w, w', failed) ==> b
  }

  lemma SecondPartMeansConfigured(e: Setup, quiet: bool, m: Mint, w: World, w': World, failed: bool)
    ensures SecondPart(e, quiet, m, w, w', failed) <==> Configured(e, quiet, m, w, w', failed)
  {
    assert WhetherConfigured(Configured(e, quiet, m, w, w', failed), e, quiet, m, w, w', failed);
  }

  /** Everything a pass makes for the mint is there, up to date. */
  ghost predicate Done(e: Setup, w: World, m: Mint) {
    && AllIn(e, w, m) && CredentialsReady(e, w, m.spec)
    && Placed(w, m, ALL_KINDS) && ConfigExact(e, w, m) && Hashed(e, w, m)
  }

  /** A pass that nobody disturbs fails exactly if a credential is missing at its end, which could be told
      from its beginning. */
  ghost predicate Decided(e: Setup, m: Mint, w: World, w': World, failed: bool) {
    && AllIn(e, w', m)
    && (!failed <==> CredentialsReady(e, w', m.spec)) && (!failed <==> Willing(e, w, m.spec))
    && (!failed ==> Done(e, w', m))
  }

  ghost predicate Passed(e: Setup, quiet: bool, m: Mint, w: World, w': World, failed: bool) {
    && (!failed ==> Placed(w', m, ALL_KINDS))
    && (quiet ==> Grown(w, w') && Decided(e, m, w, w', failed))
    && (quiet && Done(e, w, m) ==> !failed && SameCluster(w, w'))
  }

  ghost predicate WhetherPassed(b: bool, e: Setup, quiet: bool, m: Mint, w: World, w': World, failed: bool) {
    b == Passed(e, quiet, m, w, w', failed)
  }

  /** Passed, which the quantifier keeps out of proofs that only pass the fact on. */
  ghost predicate WholePass(e: Setup, quiet: bool, m: Mint, w: World, w': World, failed: bool) {
    forall b: bool :: WhetherPassed(b, e, quiet, m, w, w', failed) ==> b
  }

  lemma WholePassMeansPassed(e: Setup, quiet: bool, m: Mint, w: World, w': World, failed: bool)
    ensures WholePass(e, quiet, m, w, w', failed) <==> Passed(e, quiet, m, w, w', failed)
  {
    assert WhetherPassed(Passed(e, quiet, m, w, w', failed), e, quiet, m, w, w', failed);
  }

  lemma AllPlaced(w: World, m: Mint)
    ensures Placed(w, m, ALL_KINDS) <==> Placed(w, m, EARLY) && PlacedOne(w, m, ConfigMap) && Placed(w, m, LATE)
  {
    KindsCovered();
    PlacedParts(w, m, EARLY + {ConfigMap}, LATE);
    PlacedParts(w, m, EARLY, {ConfigMap});
  }

  lemma PlacedAtTheEnd(e: Setup, quiet: bool, m: Mint, w1: World, w2: World, w3: World)
    requires InPass(w1, m) && InPass(w2, m) && Placed(w1, m, EARLY)
    requires Configured(e, quiet, m, w1, w2, false) && Rolled(e, quiet, m, w2, w3, LATE, false)
    ensures Placed(w3, m, ALL_KINDS)
  {
    KindsCovered();
    PlacedStays(e, m, w1, w2, {ConfigMap}, EARLY);
    PlacedStays(e, m, w2, w3, LATE, EARLY);
    PlacedStays(e, m, w2, w3, LATE, {ConfigMap});
    AllPlaced(w3, m);
  }

  lemma QuietlyDone(e: Setup, m: Mint, w0: World, w1: World, w2: World, w3: World)
    requires InPass(w1, m) && InPass(w2, m)
    requires Prepared(e, true, m, w0, w1, false) && Configured(e, true, m, w1, w2, false)
    requires Rolled(e, true, m, w2, w3, LATE, false)
    ensures Done(e, w3, m)
  {
    PlacedAtTheEnd(e, true, m, w1, w2, w3);
    SecretsGrow(e, w1, w2, m);
    SecretsGrow(e, w2, w3, m);
    CredentialsGrow(e, w2, w3, m.spec);
    KindsCovered();
    ObjStays(e, m, w2, w3, LATE, ConfigMap);
  }

  lemma DoneElsewhere(e: Setup, w: World, w': World, m: Mint)
    requires SameCluster(w, w')
    ensures Hashed(e, w, m) == Hashed(e, w', m) && (Placed(w, m, LATE) ==> Placed(w', m, LATE))
  {
    if Placed(w, m, LATE) {
      PlacedElsewhere(w, w', m, LATE);
    }
  }

  lemma QuietlySame(e: Setup, m: Mint, w0: World, w1: World, w2: World, w3: World)
    requires Prepared(e, true, m, w0, w1, false) && Configured(e, true, m, w1, w2, false)
    requires Rolled(e, true, m, w2, w3, LATE, false) && Done(e, w0, m)
    ensures SameCluster(w0, w3)
  {
    AllPlaced(w0, m);
    DoneElsewhere(e, w0, w2, m);
  }

  /** The three parts make a pass. */
  lemma PartsMakePass(e: Setup, quiet: bool, m: Mint, w0: World, w1: World, w2: World, w3: World, failed: bool)
    requires InPass(w0, m) && InPass(w1, m) && InPass(w2, m)
    requires FirstPart(e, quiet, m, w0, w1, false) && SecondPart(e, quiet, m, w1, w2, false)
    requires Rolled(e, quiet, m, w2, w3, LATE, failed)
    ensures WholePass(e, quiet, m, w0, w3, failed)
    ensures !failed ==> Placed(w3, m, ALL_KINDS)
  {
    FirstPartMeansPrepared(e, quiet, m, w0, w1, false);
    SecondPartMeansConfigured(e, quiet, m, w1, w2, false);
    WholePassMeansPassed(e, quiet, m, w0, w3, failed);
    if !failed {
      PlacedAtTheEnd(e, quiet, m, w1, w2, w3);
    }
    if quiet {
      QuietlyDone(e, m, w0, w1, w2, w3);
      BetweenThen(e, quiet, w0, w1, w2, EARLY, {ConfigMap});
      BetweenThen(e, quiet, w0, w2, w3, EARLY + {ConfigMap}, LATE);
      WillingDecides(e, w0, w3, m);
      if Done(e, w0, m) {
        QuietlySame(e, m, w0, w1, w2, w3);
      }
    }
  }

  // ---------------------------------------------------------------- the stages make the parts

  /** The mnemonic and postgres. */
  ghost predicate Supplied(e: Setup, quiet: bool, m: Mint, w: World, w': World, failed: bool) {
    && Between(e, quiet, w, w', POSTGRES) && w'.pass == w.pass
    && (!failed ==> Placed(w', m, POSTGRES) && SupplyNotes(e, m.spec) <= w'.notes)
    && (quiet ==>
        !failed && MnemonicIn(e, w', m) && PostgresIn(e, w', m))
    && (quiet && Placed(w, m, POSTGRES) && MnemonicIn(e, w, m) && PostgresIn(e, w, m) ==> SameCluster(w, w'))
  }

  /** The mnemonic Secret is there and noted, the rest as it was. */
  ghost predicate MnemonicMade(e: Setup, quiet: bool, m: Mint, w: World, w': World) {
    && Between(e, quiet, w, w', {}) && w'.pass == w.pass
    && (WantsMnemonic(m.spec) ==> SawSecret(Env.MnemonicSecretName(e.name)) in w'.notes)
    && (quiet ==> MnemonicIn(e, w', m))
    && (quiet && MnemonicIn(e, w, m) ==> SameCluster(w, w'))
  }

  ghost predicate PostgresMade(e: Setup, quiet: bool, m: Mint, w: World, w': World, failed: bool) {
    && Between(e, quiet, w, w', POSTGRES) && w'.pass == w.pass
    && (!failed ==> Placed(w', m, POSTGRES))
    && (!failed && AutoProvision(m.spec) ==> SawSecret(PostgresSecretName(e.name)) in w'.notes)
    && (quiet ==> !failed && PostgresIn(e, w', m))
    && (quiet && Placed(w, m, POSTGRES) && PostgresIn(e, w, m) ==> SameCluster(w, w'))
  }

  lemma SuppliesMade(e: Setup, quiet: bool, m: Mint, a: World, b: World, c: World, failed: bool)
    requires MnemonicMade(e, quiet, m, a, b) && PostgresMade(e, quiet, m, b, c, failed)
    ensures Supplied(e, quiet, m, a, c, failed)
  {
    BetweenAfterWait(e, quiet, a, b, c, POSTGRES);
    if quiet {
      SecretsGrow(e, b, c, m);
      if Placed(a, m, POSTGRES) && MnemonicIn(e, a, m) {
        PlacedElsewhere(a, b, m, POSTGRES);
      }
    }
  }

  lemma FirstPartFails(e: Setup, quiet: bool, m: Mint, w: World, w': World)
    requires Supplied(e, quiet, m, w, w', true)
    ensures FirstPart(e, quiet, m, w, w', true)
  {
    FirstPartMeansPrepared(e, quiet, m, w, w', true);
    BetweenWider(e, quiet, w, w', POSTGRES, EARLY);
  }

  lemma FirstPartDone(e: Setup, quiet: bool, m: Mint, a: World, b: World, c: World, failed: bool)
    requires InPass(a, m) && InPass(b, m)
    requires Supplied(e, quiet, m, a, b, false) && Applied(e, quiet, m, b, c, {BackupCronJob}, failed)
    ensures FirstPart(e, quiet, m, a, c, failed)
  {
    FirstPartMeansPrepared(e, quiet, m, a, c, failed);
    BetweenThen(e, quiet, a, b, c, POSTGRES, {BackupCronJob});
    PlacedStays(e, m, b, c, {BackupCronJob}, POSTGRES);
    PlacedParts(a, m, POSTGRES, {BackupCronJob});
    PlacedParts(c, m, POSTGRES, {BackupCronJob});
    if quiet {
      SecretsGrow(e, b, c, m);
      if Placed(a, m, EARLY) && MnemonicIn(e, a, m) && PostgresIn(e, a, m) {
        PlacedElsewhere(a, b, m, {BackupCronJob});
      }
    }
  }

  lemma ConfigurationDone(e: Setup, m: Mint, w0: World, w1: World, w2: World)
    requires Grown(w0, w1) && TLSIn(e, w1, m) && CredentialsReady(e, w1, m.spec)
    requires SameCluster(w2, WithConfig(e, w1, m))
    requires TLSIn(e, w0, m) ==> SameCluster(w0, w1)
    ensures TLSIn(e, w2, m) && CredentialsReady(e, w2, m.spec) && ConfigExact(e, w2, m)
    ensures CredentialsReady(e, w0, m.spec) && TLSIn(e, w0, m) && ConfigExact(e, w0, m) ==> SameCluster(w0, w2)
  {
    if CredentialsReady(e, w0, m.spec) && TLSIn(e, w0, m) && ConfigExact(e, w0, m) {
      CredentialsGrow(e, w0, w1, m.spec);
      assert w0.objs[ConfigMap := Obj(m.uid, m.spec, ExpectedConfig(e, w0, m.spec))] == w0.objs;
    }
  }

  /** Without its credentials a pass stops here, alone. */
  lemma ConfigurationStops(e: Setup, m: Mint, w0: World, w1: World, w2: World)
    requires Grown(w0, w1) && TLSIn(e, w1, m) && !CredentialsReady(e, w1, m.spec) && SameCluster(w2, w1)
    ensures TLSIn(e, w2, m) && !CredentialsReady(e, w2, m.spec) && !CredentialsReady(e, w0, m.spec)
  {
    if CredentialsReady(e, w0, m.spec) {
      CredentialsGrow(e, w0, w1, m.spec);
    }
  }

  // ---------------------------------------------------------------- a pass that stops early, and the last look

  lemma FirstFails(e: Setup, quiet: bool, m: Mint, w: World, w': World)
    requires FirstPart(e, quiet, m, w, w', true)
    ensures WholePass(e, quiet, m, w, w', true)
  {
    FirstPartMeansPrepared(e, quiet, m, w, w', true);
    WholePassMeansPassed(e, quiet, m, w, w', true);
  }

  lemma SecondFails(e: Setup, quiet: bool, m: Mint, w0: World, w1: World, w2: World)
    requires InPass(w0, m)
    requires FirstPart(e, quiet, m, w0, w1, false) && SecondPart(e, quiet, m, w1, w2, true)
    ensures WholePass(e, quiet, m, w0, w2, true)
  {
    FirstPartMeansPrepared(e, quiet, m, w0, w1, false);
    SecondPartMeansConfigured(e, quiet, m, w1, w2, true);
    WholePassMeansPassed(e, quiet, m, w0, w2, true);
    if quiet {
      SecretsGrow(e, w1, w2, m);
      BetweenThen(e, quiet, w0, w1, w2, EARLY, {ConfigMap});
      WillingDecides(e, w0, w2, m);
      if AllIn(e, w0, m) {
        NothingMoreComes(e, w0, m);
      }
    }
  }

  lemma DoneOn(e: Setup, w: World, w': World, m: Mint)
    requires SameCluster(w, w') && Done(e, w, m)
    ensures Done(e, w', m)
  {
    PlacedElsewhere(w, w', m, ALL_KINDS);
  }

  lemma LastLook(e: Setup, quiet: bool, m: Mint, w0: World, w1: World, w2: World, failed: bool)
    requires WholePass(e, quiet, m, w0, w1, false)
    requires !failed ==> Placed(w2, m, ALL_KINDS)
    requires quiet ==> !failed && SameCluster(w1, w2)
    ensures WholePass(e, quiet, m, w0, w2, failed)
  {
    WholePassMeansPassed(e, quiet, m, w0, w1, false);
    WholePassMeansPassed(e, quiet, m, w0, w2, failed);
    if quiet {
      DoneOn(e, w1, w2, m);
    }
  }

  lemma PassKeepsMint(e: Setup, m: Mint, w: World, w': World, failed: bool)
    requires WholePass(e, true, m, w, w', failed)
    ensures w'.cr == w.cr
  {
    WholePassMeansPassed(e, true, m, w, w', failed);
  }

  /** What updateStatus sees when every read succeeds. */
  function SeenIn(w: World, c: Mint): Seen {
    Seen(if Deployment in w.objs then Some(w.deployment.ready) else None,
         MintService in w.objs,
         if c.spec.ingress.Some? && c.spec.ingress.value.enabled && MintIngressKind in w.objs
         then Some((w.addressed, TLSOf(w.objs[MintIngressKind]))) else None,
         ConfigMap in w.objs)
  }

  /** The Ingress object has a TLS entry. */
  predicate TLSOf(o: Obj) {
    o.spec.ingress.Some? && o.spec.ingress.value.tls.Some? && o.spec.ingress.value.tls.value.enabled
  }

  // ---------------------------------------------------------------- at rest

  /** Nothing is left to do: the objects are there and the status is what a pass would work out again. */
  ghost predicate AtRest(e: Setup, w: World) {
    && w.cr.Some? && w.cr.value.finalizer && !w.cr.value.deleting
    && Done(e, w, w.cr.value)
    && Settled(w.cr.value, w.cr.value.status, IsReady(w.statefulSet, 1), DeploymentReady(w), e.name,
        SeenIn(w, w.cr.value))
  }

  /** A store at rest has every object of its mint, the hash of its ConfigMap on its Deployment and its
      Secrets; its status is of the present generation, and Ready exactly if all replicas are. */
  lemma RestIsComplete(e: Setup, w: World)
    requires AtRest(e, w)
    ensures w.cr.value.status.observedGeneration == w.cr.value.generation
    ensures var s, st := w.cr.value.spec, w.cr.value.status;
            var n := if s.replicas.Some? then s.replicas.value else 1;
            && ReadyCondition in st.conditions
            && (st.conditions[ReadyCondition].status <==>
                w.deployment.ready == w.deployment.updated == w.deployment.available == n)
            && (st.conditions[ReadyCondition].status ==> st.phase == Ready)
    ensures Complete(w, w.cr.value) && w.objs[Deployment].text == e.hash(w.objs[ConfigMap].text)
    ensures w.cr.value.spec.database.postgres.Some? && w.cr.value.spec.database.postgres.value.autoProvision ==>
              e.name + "-postgres-secret" in w.secrets
    ensures w.cr.value.spec.mintInfo.autoGenerateMnemonic && w.cr.value.spec.mintInfo.mnemonicSecretRef.None? ==>
              e.name + "-mnemonic" in w.secrets
  {
    PlacedIsComplete(w, w.cr.value);
    ReadyMeansReplicas(w, w.cr.value);
  }

  /** And its status tells what is there. */
  lemma RestIsTold(e: Setup, w: World)
    requires AtRest(e, w)
    ensures var st := w.cr.value.status;
            && st.deployment == e.name && st.service == e.name && st.configMap == e.name + "-config"
            && st.readyReplicas == w.deployment.ready
    ensures var st, ingress := w.cr.value.status, w.cr.value.spec.ingress;
            ingress.Some? && ingress.value.enabled ==>
              && st.ingress == e.name && IngressReady in st.conditions
              && st.conditions[IngressReady].status == w.addressed
              && (w.addressed ==>
                  st.url == (if ingress.value.tls.Some? && ingress.value.tls.value.enabled then "https://"
                             else "http://") + ingress.value.host)
  {
    var c := w.cr.value;
    PlacedIsComplete(w, c);
    ObservedSays(c.status, c, e.name, SeenIn(w, c));
    ObservedSaysIngress(c.status, c, e.name, SeenIn(w, c));
  }

  /** The status write that ends a quiet pass brings the store to rest. */
  lemma ComesToRest(e: Setup, w: World, up: bool)
    requires w.cr.Some? && w.cr.value.finalizer && !w.cr.value.deleting && w.cr.value.status.phase != NoPhase
    requires Done(e, w, w.cr.value) && up == IsReady(w.statefulSet, 1)
    ensures var c := w.cr.value;
            var st := Observed(AfterPass(c, up, DeploymentReady(w)), c, e.name, SeenIn(w, c));
            AtRest(e, OpEffect(e, w, WriteStatus(c.version, st)))
  {
    var c := w.cr.value;
    var st := Observed(AfterPass(c, up, DeploymentReady(w)), c, e.name, SeenIn(w, c));
    PassSettles(c, up, DeploymentReady(w), e.name, SeenIn(w, c));
    SettledComesToRest(e, w, OpEffect(e, w, WriteStatus(c.version, st)), up, st);
  }

  /** `w'` is `w` with this status. */
  predicate StatusReplaced(w: World, w': World, st: Status) {
    && w.cr.Some? && w'.cr.Some? && w'.cr.value.status == st
    && w'.cr.value == w.cr.value.(version := w'.cr.value.version, status := st)
    && w'.secrets == w.secrets && w'.objs == w.objs && w'.deployment == w.deployment
    && w'.statefulSet == w.statefulSet && w'.addressed == w.addressed
  }

  /** A status that a pass would work out again. */
  lemma SettledComesToRest(e: Setup, w: World, w': World, up: bool, st: Status)
    requires StatusReplaced(w, w', st) && w.cr.value.finalizer && !w.cr.value.deleting
    requires Done(e, w, w.cr.value) && up == IsReady(w.statefulSet, 1)
    requires Settled(w.cr.value, st, up, DeploymentReady(w), e.name, SeenIn(w, w.cr.value))
    ensures AtRest(e, w')
  {
    DoneForStatus(e, w, w', w.cr.value, w'.cr.value);
    SettledForStatus(w.cr.value, w'.cr.value, st, up, DeploymentReady(w), e.name, SeenIn(w, w.cr.value));
  }

  /** Done does not look at the status. */
  lemma DoneForStatus(e: Setup, w: World, w': World, m: Mint, m': Mint)
    requires Done(e, w, m) && w'.secrets == w.secrets && w'.objs == w.objs && m'.uid == m.uid && m'.spec == m.spec
    ensures Done(e, w', m')
  {
    forall k | k in ALL_KINDS ensures PlacedOne(w', m', k) {
      PlacedMeansInPlace(w, m, k);
      PlacedMeansInPlace(w', m', k);
    }
  }

  lemma SettledForStatus(m: Mint, m': Mint, st: Status, up: bool, ready: bool, name: string, seen: Seen)
    requires Settled(m, st, up, ready, name, seen) && m'.spec == m.spec && m'.generation == m.generation
    ensures Settled(m', st, up, ready, name, seen)
  {}

  lemma RestElsewhere(e: Setup, w: World, w': World)
    requires AtRest(e, w) && SameCluster(w, w')
    ensures AtRest(e, w')
  {
    DoneOn(e, w, w', w.cr.value);
  }

  /** At rest, the status a pass works out is the one that is stored. */
  lemma RestStays(e: Setup, w: World, up: bool, ready: bool)
    requires AtRest(e, w) && up == IsReady(w.statefulSet, 1) && ready == DeploymentReady(w)
    ensures var c := w.cr.value;
            var st := Observed(AfterPass(c, up, ready), c, e.name, SeenIn(w, c));
            OpEffect(e, w, WriteStatus(c.version, st)) == w
  {
    SettledStays(w.cr.value, up, ready, e.name, SeenIn(w, w.cr.value));
  }

  lemma StatusIsWritten(e: Setup, w: World, version: nat, st: Status)
    requires Matches(w, version)
    ensures var c := OpEffect(e, w, WriteStatus(version, st)).cr; c.Some? && c.value.status == st
  {}

  /** A quiet pass and the status write behind it: to rest, where there was something to do. */
  lemma PassComesToRest(e: Setup, m: Mint, w0: World, w1: World, up: bool, ready: bool)
    requires w0.cr == Some(m) && m.finalizer && !m.deleting && m.status.phase != NoPhase
    requires Passed(e, true, m, w0, w1, false) && up == IsReady(w0.statefulSet, 1) && ready == DeploymentReady(w1)
    ensures w1.cr == Some(m)
    ensures var st := Observed(AfterPass(m, up, ready), m, e.name, SeenIn(w1, m));
            var w2 := OpEffect(e, w1, WriteStatus(m.version, st));
            AtRest(e, w2) && w2.cr.value.status.phase == st.phase
  {
    ComesToRest(e, w1, up);
    StatusIsWritten(e, w1, m.version, Observed(AfterPass(m, up, ready), m, e.name, SeenIn(w1, m)));
  }

  /** And nothing changes, where there was nothing to do. */
  lemma PassStaysAtRest(e: Setup, m: Mint, w0: World, w1: World, up: bool, ready: bool)
    requires w0.cr == Some(m) && AtRest(e, w0)
    requires Passed(e, true, m, w0, w1, false) && up == IsReady(w0.statefulSet, 1) && ready == DeploymentReady(w1)
    ensures w1.cr == Some(m)
    ensures var st := Observed(AfterPass(m, up, ready), m, e.name, SeenIn(w1, m));
            SameCluster(w0, OpEffect(e, w1, WriteStatus(m.version, st)))
  {
    RestElsewhere(e, w0, w1);
    RestStays(e, w1, up, ready);
  }
}
