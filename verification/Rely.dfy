/** What a Reconcile can count on between two of its calls, however the others interfere. */
module Rely {
  import opened Options
  import opened MintTypes
  import opened Plan
  import opened Cluster
  import Env

  /** `c` is a later state of `m`, whose status only the operator writes. */
  predicate Continues(m: Mint, c: Option<Mint>) {
    && c.Some? && c.value.uid == m.uid && c.value.finalizer && c.value.status == m.status
    && m.generation <= c.value.generation && (m.deleting ==> c.value.deleting)
    && m.version <= c.value.version && (c.value.version == m.version ==> c.value == m)
  }

  predicate Live(w: World) {
    w.cr.Some? && w.cr.value.finalizer && w.cr.value.version < w.clock
  }

  /** The object belongs to the mint that is there, and to one that nobody but the operator can let go. */
  predicate Owned(w: World, k: Kind) {
    Live(w) && k in w.objs && w.objs[k].owner == w.cr.value.uid
  }

  /** A Secret nobody but the operator can take away. */
  predicate Held(e: Setup, w: World, name: string) {
    && name in w.secrets && OperatorSecret(e, name)
    && (w.secrets[name].owner.None? || (Live(w) && w.secrets[name].owner == Some(w.cr.value.uid)))
  }

  predicate SameObjs(w: World, w': World, touched: set<Kind>) {
    forall k: Kind | k !in touched ::
      (k in w'.objs ==> k in w.objs && w'.objs[k] == w.objs[k]) && (Owned(w, k) ==> k in w'.objs)
  }

  predicate SameSecrets(e: Setup, w: World, w': World) {
    forall n | n in w.secrets :: Held(e, w, n) ==> n in w'.secrets && w'.secrets[n] == w.secrets[n]
  }

  // SameObjs and SameSecrets, which the quantifier keeps out of proofs that only pass them on.

  ghost predicate WhetherSameObjs(b: bool, w: World, w': World, touched: set<Kind>) {
    b == SameObjs(w, w', touched)
  }

  ghost predicate ObjsKept(w: World, w': World, touched: set<Kind>) {
    forall b: bool :: WhetherSameObjs(b, w, w', touched) ==> b
  }

  lemma ObjsKeptMeansSame(w: World, w': World, touched: set<Kind>)
    ensures ObjsKept(w, w', touched) <==> SameObjs(w, w', touched)
  {
    assert WhetherSameObjs(SameObjs(w, w', touched), w, w', touched);
  }

  ghost predicate WhetherSameSecrets(b: bool, e: Setup, w: World, w': World) {
    b == SameSecrets(e, w, w')
  }

  ghost predicate SecretsKept(e: Setup, w: World, w': World) {
    forall b: bool :: WhetherSameSecrets(b, e, w, w') ==> b
  }

  lemma SecretsKeptMeansSame(e: Setup, w: World, w': World)
    ensures SecretsKept(e, w, w') <==> SameSecrets(e, w, w')
  {
    assert WhetherSameSecrets(SameSecrets(e, w, w'), e, w, w');
  }

  /** Nobody but the operator creates the operator's Secrets. */
  predicate NoNewSecrets(e: Setup, w: World, w': World) {
    forall n | n in w'.secrets :: OperatorSecret(e, n) ==> n in w.secrets && w'.secrets[n] == w.secrets[n]
  }

  lemma NoNewSecretsThen(e: Setup, a: World, b: World, c: World)
    requires NoNewSecrets(e, a, b) && NoNewSecrets(e, b, c)
    ensures NoNewSecrets(e, a, c)
  {}

  lemma EnvNoNewSecrets(e: Setup, w: World, a: EnvAction)
    ensures NoNewSecrets(e, w, EnvEffect(e, w, a))
  {}

  /** From `w` to `w'` the mint lives on with its status, and the operator's Secrets and objects other than
      the touched ones are as they were. */
  ghost predicate Steady(e: Setup, w: World, w': World, touched: set<Kind>) {
    && (Live(w) ==> Continues(w.cr.value, w'.cr) && Live(w'))
    && ObjsKept(w, w', touched) && SecretsKept(e, w, w')
  }

  lemma SteadyMeansKept(e: Setup, w: World, w': World, touched: set<Kind>)
    ensures Steady(e, w, w', touched)
       <==> (Live(w) ==> Continues(w.cr.value, w'.cr) && Live(w')) && SameObjs(w, w', touched) && SameSecrets(e, w, w')
  {
    ObjsKeptMeansSame(w, w', touched);
    SecretsKeptMeansSame(e, w, w');
  }

  lemma SteadySelf(e: Setup, w: World, touched: set<Kind>)
    ensures Steady(e, w, w, touched)
  {
    SteadyMeansKept(e, w, w, touched);
  }

  lemma SteadyThen(e: Setup, a: World, b: World, c: World, first: set<Kind>, second: set<Kind>)
    requires Steady(e, a, b, first) && Steady(e, b, c, second)
    ensures Steady(e, a, c, first + second)
  {
    SteadyMeansKept(e, a, b, first);
    SteadyMeansKept(e, b, c, second);
    SteadyMeansKept(e, a, c, first + second);
  }

  lemma SteadyAfterWait(e: Setup, a: World, b: World, c: World, touched: set<Kind>)
    requires Steady(e, a, b, {}) && Steady(e, b, c, touched)
    ensures Steady(e, a, c, touched)
  {
    SteadyThen(e, a, b, c, {}, touched);
    assert {} + touched == touched;
  }

  lemma SteadyWider(e: Setup, a: World, b: World, touched: set<Kind>, more: set<Kind>)
    requires Steady(e, a, b, touched) && touched <= more
    ensures Steady(e, a, b, more)
  {
    SteadyMeansKept(e, a, b, touched);
    SteadyMeansKept(e, a, b, more);
  }

  /** The operator is in a Reconcile of a mint that is still there. */
  predicate InPass(w: World, m: Mint) {
    && Live(w) && m.finalizer && Continues(m, w.cr)
    && w.pass.Some? && w.pass.value.mint == m
  }

  lemma PassStays(e: Setup, m: Mint, a: World, b: World, touched: set<Kind>)
    requires InPass(a, m) && Steady(e, a, b, touched) && b.pass.Some? && b.pass.value.mint == m
    ensures InPass(b, m)
  {}

  /** Objects that are in place stay in place. */
  lemma PlacedStays(e: Setup, m: Mint, a: World, b: World, touched: set<Kind>, ks: set<Kind>)
    requires InPass(a, m) && Steady(e, a, b, touched) && Placed(a, m, ks) && ks !! touched
    ensures Placed(b, m, ks)
  {
    ObjsKeptMeansSame(a, b, touched);
    forall k | k in ks ensures PlacedOne(b, m, k) {
      PlacedMeansInPlace(a, m, k);
      PlacedMeansInPlace(b, m, k);
    }
  }

  /** Objects nobody asked for are in place. */
  lemma NothingToPlace(w: World, m: Mint, ks: set<Kind>)
    requires forall k | k in ks :: k != PodMonitor && !Generates(m.spec, k)
    ensures Placed(w, m, ks)
  {
    forall k | k in ks ensures PlacedOne(w, m, k) {
      PlacedMeansInPlace(w, m, k);
    }
  }

  lemma EnvSteady(e: Setup, w: World, a: EnvAction)
    ensures Steady(e, w, EnvEffect(e, w, a), {})
    ensures EnvEffect(e, w, a).pass == w.pass && EnvEffect(e, w, a).notes == w.notes
  {
    EnvMint(e, w, a);
    EnvObjs(e, w, a);
    EnvSecrets(e, w, a);
    SteadyMeansKept(e, w, EnvEffect(e, w, a), {});
  }

  lemma EnvMint(e: Setup, w: World, a: EnvAction)
    ensures Live(w) ==> Continues(w.cr.value, EnvEffect(e, w, a).cr) && Live(EnvEffect(e, w, a))
    ensures EnvEffect(e, w, a).pass == w.pass && EnvEffect(e, w, a).notes == w.notes
  {}

  lemma EnvObjs(e: Setup, w: World, a: EnvAction)
    ensures SameObjs(w, EnvEffect(e, w, a), {})
  {}

  lemma EnvSecrets(e: Setup, w: World, a: EnvAction)
    ensures SameSecrets(e, w, EnvEffect(e, w, a))
  {}

  // ---------------------------------------------------------------- the operator's own writes

  lemma CreateSteady(e: Setup, w: World, name: string, owner: Option<nat>, data: map<string, string>)
    ensures Steady(e, w, OpEffect(e, w, CreateSecret(name, owner, data)), {})
  {
    SteadyMeansKept(e, w, OpEffect(e, w, CreateSecret(name, owner, data)), {});
  }

  lemma ApplySteady(e: Setup, w: World, k: Kind, built: Obj)
    ensures Steady(e, w, OpEffect(e, w, Apply(k, built)), {k})
  {
    SteadyMeansKept(e, w, OpEffect(e, w, Apply(k, built)), {k});
  }

  lemma ConfigSteady(e: Setup, w: World, built: Obj, url: string, authURL: string)
    ensures Steady(e, w, OpEffect(e, w, ApplyConfig(built, url, authURL)), {ConfigMap})
  {
    SteadyMeansKept(e, w, OpEffect(e, w, ApplyConfig(built, url, authURL)), {ConfigMap});
  }

  lemma MonitorSteady(e: Setup, w: World)
    ensures Steady(e, w, OpEffect(e, w, DeletePodMonitor), {PodMonitor})
  {
    SteadyMeansKept(e, w, OpEffect(e, w, DeletePodMonitor), {PodMonitor});
  }

  lemma NotedSteady(e: Setup, w: World, note: Note)
    ensures Steady(e, w, OpEffect(e, w, Noted(note)), {})
  {
    SteadyMeansKept(e, w, OpEffect(e, w, Noted(note)), {});
  }

  lemma SawReadySteady(e: Setup, w: World)
    ensures Steady(e, w, OpEffect(e, w, SawReady), {})
  {
    SteadyMeansKept(e, w, OpEffect(e, w, SawReady), {});
  }

  /** A password that was read is the password until the config.toml made from it is applied. */
  lemma ConfigStaysAllowed(e: Setup, w: World, w': World, p: Pass, built: Obj, url: string, authURL: string)
    requires ConfigAllowed(e, w, p, built, url, authURL) && SecretsKept(e, w, w') && w.notes <= w'.notes
    requires ProvisionedConfig(built.spec) ==> Held(e, w, PostgresSecretName(e.name))
    ensures ConfigAllowed(e, w', p, built, url, authURL)
  {
    SecretsKeptMeansSame(e, w, w');
  }

  // ---------------------------------------------------------------- the store without the operator's memory

  predicate SameCluster(w: World, w': World) {
    w.(pass := None, notes := {}) == w'.(pass := None, notes := {})
  }

  lemma MintWriteElsewhere(e: Setup, w: World, w': World, a: OpAction)
    requires SameCluster(w, w') && (a.AddFinalizer? || a.WriteStatus?)
    ensures SameCluster(OpEffect(e, w, a), OpEffect(e, w', a))
  {}

  /** Others left everything as it was, and the operator only added Secrets and applied objects. */
  predicate Grown(w: World, w': World) {
    && w'.cr == w.cr && w'.deployment == w.deployment && w'.statefulSet == w.statefulSet && w'.addressed == w.addressed
    && forall n | n in w.secrets :: n in w'.secrets && w'.secrets[n] == w.secrets[n]
  }

  predicate Filled(data: map<string, string>) {
    forall key | key in data :: data[key] != ""
  }

  /** The keys of the Secret a pass makes under this name when there is none. */
  function MadeKeys(e: Setup, s: Spec, name: string): set<string> {
    if WantsMnemonic(s) && name == Env.MnemonicSecretName(e.name) then {"mnemonic"}
    else if AutoProvision(s) && name == PostgresSecretName(e.name) then {"password", "database-url"}
    else if ManagementTLSOn(s) && name == ManagementTLSSecretName(s, e.name) then TLS_KEYS
    else {}
  }

  predicate Made(e: Setup, s: Spec, name: string, data: map<string, string>) {
    data.Keys == MadeKeys(e, s, name) && Filled(data)
  }

  /** Every Secret that was added is one the Reconcile makes. */
  predicate OnlySupplies(e: Setup, w: World, w': World) {
    w.pass.Some? ==>
      forall n | n in w'.secrets && n !in w.secrets :: Made(e, w.pass.value.mint.spec, n, w'.secrets[n].data)
  }

  ghost predicate WhetherOnlySupplies(b: bool, e: Setup, w: World, w': World) {
    b == OnlySupplies(e, w, w')
  }

  /** OnlySupplies, which the quantifier keeps out of proofs that only pass the fact on. */
  ghost predicate Supplies(e: Setup, w: World, w': World) {
    forall b: bool :: WhetherOnlySupplies(b, e, w, w') ==> b
  }

  lemma SuppliesMeansOnly(e: Setup, w: World, w': World)
    ensures Supplies(e, w, w') <==> OnlySupplies(e, w, w')
  {
    assert WhetherOnlySupplies(OnlySupplies(e, w, w'), e, w, w');
  }

  lemma NothingSupplied(e: Setup, w: World, w': World)
    requires w'.secrets == w.secrets
    ensures Supplies(e, w, w')
  {
    SuppliesMeansOnly(e, w, w');
  }

  lemma SuppliesThen(e: Setup, a: World, b: World, c: World)
    requires Supplies(e, a, b) && Supplies(e, b, c) && Grown(b, c) && Remembers(a, b)
    ensures Supplies(e, a, c)
  {
    SuppliesMeansOnly(e, a, b);
    SuppliesMeansOnly(e, b, c);
    SuppliesMeansOnly(e, a, c);
  }

  lemma GrownThen(a: World, b: World, c: World)
    requires Grown(a, b) && Grown(b, c)
    ensures Grown(a, c)
  {}

  lemma ContinuesOn(e: Setup, c: Mint, a: World, b: World, touched: set<Kind>)
    requires Live(a) && Continues(c, a.cr) && Steady(e, a, b, touched)
    ensures Live(b) && Continues(c, b.cr)
  {}

  /** Deleting the postgres Secret leaves the mint and the objects alone. */
  lemma DeleteKeepsMint(e: Setup, w: World, name: string)
    requires Live(w)
    ensures var w' := OpEffect(e, w, DeleteSecret(name));
            Live(w') && w'.cr == w.cr && w'.objs == w.objs && w'.pass == w.pass && name !in w'.secrets
  {}

  /** What the operator remembers of its Reconcile only grows. */
  predicate Remembers(w: World, w': World) {
    && w.notes <= w'.notes
    && (w.pass.Some? ==>
        w'.pass.Some? && w'.pass.value.mint == w.pass.value.mint
        && (w.pass.value.config.Some? ==> w'.pass.value.config.Some?))
  }

  /** From `w` to `w'` the operator worked on the touched kinds, alone if it was quiet. */
  ghost predicate Between(e: Setup, quiet: bool, w: World, w': World, touched: set<Kind>) {
    Steady(e, w, w', touched) && (quiet ==> Grown(w, w') && Supplies(e, w, w')) && Remembers(w, w')
  }

  lemma BetweenThen(e: Setup, quiet: bool, a: World, b: World, c: World, first: set<Kind>, second: set<Kind>)
    requires Between(e, quiet, a, b, first) && Between(e, quiet, b, c, second)
    ensures Between(e, quiet, a, c, first + second)
  {
    SteadyThen(e, a, b, c, first, second);
    if quiet {
      SuppliesThen(e, a, b, c);
    }
  }

  lemma BetweenAfterWait(e: Setup, quiet: bool, a: World, b: World, c: World, touched: set<Kind>)
    requires Between(e, quiet, a, b, {}) && Between(e, quiet, b, c, touched)
    ensures Between(e, quiet, a, c, touched)
  {
    BetweenThen(e, quiet, a, b, c, {}, touched);
    assert {} + touched == touched;
  }

  lemma BetweenWider(e: Setup, quiet: bool, a: World, b: World, touched: set<Kind>, more: set<Kind>)
    requires Between(e, quiet, a, b, touched) && touched <= more
    ensures Between(e, quiet, a, b, more)
  {
    SteadyWider(e, a, b, touched, more);
  }

  lemma BetweenSelf(e: Setup, quiet: bool, w: World, touched: set<Kind>)
    ensures Between(e, quiet, w, w, touched)
  {
    SteadySelf(e, w, touched);
    NothingSupplied(e, w, w);
  }

  /** The postgres Secret, if there is one, has a password. */
  predicate PasswordFine(e: Setup, w: World) {
    PostgresSecretName(e.name) in w.secrets ==> Password(e, w) != ""
  }

  /** config.toml comes first. */
  predicate ConfigFirst(p: Option<Pass>, k: Kind) {
    p.Some? && (BeforeConfig(k) || p.value.config.Some?)
  }

  ghost predicate WhetherConfigFirst(b: bool, p: Option<Pass>, k: Kind) {
    b == ConfigFirst(p, k)
  }

  /** ConfigFirst, which the quantifier keeps out of proofs that only pass the fact on. */
  ghost predicate InOrder(p: Option<Pass>, k: Kind) {
    forall b: bool :: WhetherConfigFirst(b, p, k) ==> b
  }

  lemma InOrderMeansConfigFirst(p: Option<Pass>, k: Kind)
    ensures InOrder(p, k) <==> ConfigFirst(p, k)
  {
    assert WhetherConfigFirst(ConfigFirst(p, k), p, k);
  }

  // ---------------------------------------------------------------- one stage of objects

  /** A stage for the mint `m` that touches the kinds `ks`: if it succeeds they are in place, alone it
      succeeds, and alone it changes nothing when they are in place already. */
  ghost predicate Applied(e: Setup, quiet: bool, m: Mint, w: World, w': World, ks: set<Kind>, failed: bool) {
    && Between(e, quiet, w, w', ks) && w'.pass == w.pass
    && (!failed ==> Placed(w', m, ks)) && (quiet ==> !failed) && (quiet && Placed(w, m, ks) ==> SameCluster(w, w'))
  }

  lemma PlacedParts(w: World, m: Mint, first: set<Kind>, second: set<Kind>)
    ensures Placed(w, m, first + second) <==> Placed(w, m, first) && Placed(w, m, second)
  {}

  lemma PlacedElsewhere(w: World, w': World, m: Mint, ks: set<Kind>)
    requires SameCluster(w, w') && Placed(w, m, ks)
    ensures Placed(w', m, ks)
  {
    forall k | k in ks ensures PlacedOne(w', m, k) {
      PlacedMeansInPlace(w, m, k);
      PlacedMeansInPlace(w', m, k);
    }
  }

  lemma AppliedThen(e: Setup, quiet: bool, m: Mint, a: World, b: World, c: World, first: set<Kind>, second: set<Kind>,
      failed: bool)
    requires InPass(a, m) && first !! second
    requires Applied(e, quiet, m, a, b, first, false) && Applied(e, quiet, m, b, c, second, failed)
    ensures Applied(e, quiet, m, a, c, first + second, failed)
  {
    BetweenThen(e, quiet, a, b, c, first, second);
    PassStays(e, m, a, b, first);
    PlacedStays(e, m, b, c, second, first);
    PlacedParts(a, m, first, second);
    PlacedParts(c, m, first, second);
    if quiet && Placed(a, m, first + second) {
      PlacedElsewhere(a, b, m, second);
    }
  }

  lemma AppliedFails(e: Setup, quiet: bool, m: Mint, a: World, b: World, ks: set<Kind>, more: set<Kind>)
    requires Applied(e, quiet, m, a, b, ks, true) && ks <= more
    ensures Applied(e, quiet, m, a, b, more, true)
  {
    BetweenWider(e, quiet, a, b, ks, more);
  }

  /** Nothing to do. */
  lemma AppliedNothing(e: Setup, quiet: bool, m: Mint, w: World, ks: set<Kind>)
    requires Placed(w, m, ks)
    ensures Applied(e, quiet, m, w, w, ks, false)
  {
    BetweenSelf(e, quiet, w, ks);
  }

  /** One object applied. */
  lemma AppliedOne(e: Setup, quiet: bool, m: Mint, w: World, w': World, k: Kind, failed: bool)
    requires Between(e, quiet, w, w', {k}) && w'.pass == w.pass && PlainText(k) && Generates(m.spec, k)
    requires !failed ==> k in w'.objs && w'.objs[k] == Obj(m.uid, m.spec, "")
    requires quiet ==> !failed && SameCluster(w', w.(objs := w.objs[k := Obj(m.uid, m.spec, "")]))
    ensures Applied(e, quiet, m, w, w', {k}, failed)
  {
    PlacedMeansInPlace(w, m, k);
    PlacedMeansInPlace(w', m, k);
    if InPlace(w, m, k) {
      assert w.objs[k := Obj(m.uid, m.spec, "")] == w.objs;
    }
  }

  /** The PodMonitor removed. */
  lemma MonitorGone(e: Setup, quiet: bool, m: Mint, w: World, w': World, failed: bool)
    requires Between(e, quiet, w, w', {PodMonitor}) && w'.pass == w.pass && !Generates(m.spec, PodMonitor)
    requires !failed ==> PodMonitor !in w'.objs
    requires quiet ==> !failed && w' == w.(objs := w.objs - {PodMonitor})
    ensures Applied(e, quiet, m, w, w', {PodMonitor}, failed)
  {
    PlacedMeansInPlace(w, m, PodMonitor);
    PlacedMeansInPlace(w', m, PodMonitor);
    if InPlace(w, m, PodMonitor) {
      assert w.objs - {PodMonitor} == w.objs;
    }
  }

  /** The ConfigMap is the one this Reconcile applied. */
  predicate ConfigHeld(w: World, m: Mint) {
    ConfigMap in w.objs && w.objs[ConfigMap].owner == m.uid && w.pass.Some?
        && w.pass.value.config == Some(w.objs[ConfigMap].text)
  }

  lemma ConfigHeldStays(e: Setup, m: Mint, a: World, b: World, touched: set<Kind>)
    requires InPass(a, m) && ConfigHeld(a, m) && Steady(e, a, b, touched) && ConfigMap !in touched && b.pass == a.pass
    ensures ConfigHeld(b, m) && b.objs[ConfigMap] == a.objs[ConfigMap]
  {
    ObjsKeptMeansSame(a, b, touched);
  }

  /** A wait and then an apply. */
  lemma WaitThenApply(e: Setup, quiet: bool, a: World, b: World, k: Kind, built: Obj)
    requires Steady(e, a, b, {}) && b.pass == a.pass && b.notes == a.notes && (quiet ==> b == a)
    ensures Between(e, quiet, a, OpEffect(e, b, Apply(k, built)), {k})
  {
    ApplySteady(e, b, k, built);
    SteadyAfterWait(e, a, b, OpEffect(e, b, Apply(k, built)), {k});
    if quiet {
      NothingSupplied(e, a, OpEffect(e, b, Apply(k, built)));
    }
  }

  lemma WaitThenCreate(e: Setup, quiet: bool, a: World, b: World, name: string, owner: Option<nat>,
      data: map<string, string>)
    requires Steady(e, a, b, {}) && b.pass == a.pass && b.notes == a.notes && a.pass.Some? && (quiet ==> b == a)
    requires name !in b.secrets && (quiet ==> Made(e, a.pass.value.mint.spec, name, data))
    ensures Between(e, quiet, a, OpEffect(e, b, CreateSecret(name, owner, data)), {})
  {
    CreateSteady(e, b, name, owner, data);
    SteadyAfterWait(e, a, b, OpEffect(e, b, CreateSecret(name, owner, data)), {});
    if quiet {
      SuppliesMeansOnly(e, a, OpEffect(e, b, CreateSecret(name, owner, data)));
    }
  }

  lemma WaitThenApplyConfig(e: Setup, quiet: bool, a: World, b: World, built: Obj, url: string, authURL: string)
    requires Steady(e, a, b, {}) && b.pass == a.pass && b.notes == a.notes && a.pass.Some? && (quiet ==> b == a)
    ensures Between(e, quiet, a, OpEffect(e, b, ApplyConfig(built, url, authURL)), {ConfigMap})
  {
    ConfigSteady(e, b, built, url, authURL);
    SteadyAfterWait(e, a, b, OpEffect(e, b, ApplyConfig(built, url, authURL)), {ConfigMap});
    if quiet {
      NothingSupplied(e, a, OpEffect(e, b, ApplyConfig(built, url, authURL)));
    }
  }

  lemma ConfigMakes(e: Setup, w: World, built: Obj, url: string, authURL: string)
    requires w.pass.Some?
    ensures var w' := OpEffect(e, w, ApplyConfig(built, url, authURL));
            && ConfigMap in w'.objs && w'.objs[ConfigMap] == built
            && w'.pass == Some(w.pass.value.(config := Some(built.text)))
            && SameCluster(w', w.(objs := w.objs[ConfigMap := built]))
  {}

  lemma WaitOnly(e: Setup, quiet: bool, a: World, b: World, ks: set<Kind>)
    requires Steady(e, a, b, {}) && b.pass == a.pass && b.notes == a.notes && (quiet ==> b == a)
    ensures Between(e, quiet, a, b, ks)
  {
    SteadyWider(e, a, b, {}, ks);
    if quiet {
      NothingSupplied(e, a, b);
    }
  }

  ghost predicate WhetherAllowed(b: bool, e: Setup, p: Option<Pass>, notes: set<Note>, k: Kind, built: Obj) {
    b == (p.Some? && k != ConfigMap && ApplyAllowed(e, p.value, notes, k, built))
  }

  /** The apply is allowed. (The quantifier keeps what that means out of proofs that only pass the fact on.) */
  ghost predicate MayApply(e: Setup, p: Option<Pass>, notes: set<Note>, k: Kind, built: Obj) {
    forall b: bool :: WhetherAllowed(b, e, p, notes, k, built) ==> b
  }

  lemma MayApplyMeansAllowed(e: Setup, p: Option<Pass>, notes: set<Note>, k: Kind, built: Obj)
    ensures MayApply(e, p, notes, k, built)
       <==> p.Some? && k != ConfigMap && ApplyAllowed(e, p.value, notes, k, built)
  {
    var b := p.Some? && k != ConfigMap && ApplyAllowed(e, p.value, notes, k, built);
    assert WhetherAllowed(b, e, p, notes, k, built);
  }

  lemma GeneratedMayBeApplied(e: Setup, w: World, m: Mint, k: Kind)
    requires w.pass.Some? && w.pass.value.mint == m && Building(m) && PlainText(k) && Generates(m.spec, k)
             && InOrder(w.pass, k)
    ensures MayApply(e, w.pass, w.notes, k, Obj(m.uid, m.spec, ""))
  {
    InOrderMeansConfigFirst(w.pass, k);
    MayApplyMeansAllowed(e, w.pass, w.notes, k, Obj(m.uid, m.spec, ""));
  }

  lemma DeploymentMayBeApplied(e: Setup, w: World, m: Mint)
    requires w.pass.Some? && w.pass.value.mint == m && Building(m) && ConfigHeld(w, m)
             && RolloutNotes(e, m.spec) <= w.notes
    ensures MayApply(e, w.pass, w.notes, Deployment, Obj(m.uid, m.spec, e.hash(w.objs[ConfigMap].text)))
  {
    MayApplyMeansAllowed(e, w.pass, w.notes, Deployment, Obj(m.uid, m.spec, e.hash(w.objs[ConfigMap].text)));
  }

  // ---------------------------------------------------------------- credentials

  function MainURLIn(w: World, s: Spec): string {
    if NeedsURL(s) then RefValue(w, s.database.postgres.value.urlSecretRef.value) else ""
  }

  function AuthURLIn(w: World, s: Spec): string {
    if NeedsAuthURL(s) then RefValue(w, s.auth.value.postgres.value.urlSecretRef.value) else ""
  }

  /** The keys the user named for the two database urls can be read. */
  predicate UserKeysReady(w: World, s: Spec) {
    MainKeyReady(w, s) && AuthKeyReady(w, s)
  }

  predicate MainKeyReady(w: World, s: Spec) {
    NeedsURL(s) ==> RefReady(w, s.database.postgres.value.urlSecretRef.value)
  }

  predicate AuthKeyReady(w: World, s: Spec) {
    NeedsAuthURL(s) ==> RefReady(w, s.auth.value.postgres.value.urlSecretRef.value)
  }

  predicate CredentialsReady(e: Setup, w: World, s: Spec) {
    (ProvisionedConfig(s) ==> Password(e, w) != "") && UserKeysReady(w, s)
  }

  function ExpectedConfig(e: Setup, w: World, s: Spec): string {
    e.render(Resolve(s, MainURLIn(w, s), AuthURLIn(w, s)), ConfigPassword(e, w, s))
  }

  function WithConfig(e: Setup, w: World, m: Mint): World {
    w.(objs := w.objs[ConfigMap := Obj(m.uid, m.spec, ExpectedConfig(e, w, m.spec))])
  }

  function WithHashedDeployment(e: Setup, w: World, m: Mint): World
    requires ConfigMap in w.objs
  {
    w.(objs := w.objs[Deployment := Obj(m.uid, m.spec, e.hash(w.objs[ConfigMap].text))])
  }

  /** The ConfigMap is what the credentials of the moment make of the spec. */
  predicate ConfigExact(e: Setup, w: World, m: Mint) {
    ConfigMap in w.objs && w.objs[ConfigMap] == Obj(m.uid, m.spec, ExpectedConfig(e, w, m.spec))
  }

  lemma ReadElsewhere(e: Setup, w: World, w': World, m: Mint)
    requires SameCluster(w, w')
    ensures WithConfig(e, w', m).(pass := None, notes := {}) == WithConfig(e, w, m).(pass := None, notes := {})
    ensures CredentialsReady(e, w', m.spec) == CredentialsReady(e, w, m.spec)
  {}

  lemma CredentialsGrow(e: Setup, w: World, w': World, s: Spec)
    requires Grown(w, w') && CredentialsReady(e, w, s)
    ensures CredentialsReady(e, w', s) && ExpectedConfig(e, w', s) == ExpectedConfig(e, w, s)
  {}

  /** The password of a Secret that stays is the password of every later moment. */
  lemma PasswordKept(e: Setup, s: Spec, a: World, b: World, touched: set<Kind>)
    requires Steady(e, a, b, touched) && (ProvisionedConfig(s) ==> Held(e, a, PostgresSecretName(e.name)))
    ensures ConfigPassword(e, b, s) == ConfigPassword(e, a, s)
  {
    SteadyMeansKept(e, a, b, touched);
  }

  /** A password that was read stays the password. */
  lemma PasswordStays(e: Setup, s: Spec, a: World, b: World, c: World)
    requires Steady(e, a, b, {}) && Steady(e, b, c, {})
    ensures ProvisionedConfig(s) && Held(e, a, PostgresSecretName(e.name)) && Live(a) ==>
              Held(e, c, PostgresSecretName(e.name)) && ConfigPassword(e, c, s) == ConfigPassword(e, a, s)
    ensures !ProvisionedConfig(s) ==> ConfigPassword(e, c, s) == ConfigPassword(e, a, s)
  {
    SteadyMeansKept(e, a, b, {});
    SteadyMeansKept(e, b, c, {});
  }
}
