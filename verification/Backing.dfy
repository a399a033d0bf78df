/** What the Deployment refers to is there: the ConfigMap, the claims and the Secrets of its pod are in
    place before it is applied, in the same Reconcile. */
module Backing {
  import opened Options
  import opened MintTypes
  import opened Pod
  import opened Plan
  import opened Cluster
  import opened Runs
  import opened Rely
  import opened Rest
  import opened Rollout
  import opened Evidence
  import Credentials
  import Env
  import Mnemonic

  // ---------------------------------------------------------------- what stays for the rest of a Reconcile

  /** The operator is in a Reconcile that may create and apply. */
  predicate Busy(w: World, m: Mint) {
    w.pass.Some? && w.pass.value.mint == m && Building(m)
  }

  lemma BusyIsLive(e: Setup, w: World, m: Mint)
    requires Inv(e, w) && Busy(w, m)
    ensures Live(w) && w.cr.value.uid == m.uid
  {}

  /** An object of the mint, generated from the spec that was read. */
  predicate Stands(w: World, m: Mint, k: Kind) {
    k in w.objs && w.objs[k].owner == m.uid && w.objs[k].spec == m.spec
  }

  lemma EnvKeepsStanding(e: Setup, w: World, a: EnvAction, m: Mint, k: Kind)
    requires Live(w) && w.cr.value.uid == m.uid && Stands(w, m, k)
    ensures Stands(EnvEffect(e, w, a), m, k)
  {}

  lemma OpKeepsStanding(e: Setup, w: World, a: OpAction, m: Mint, k: Kind)
    requires Busy(w, m) && Allowed(e, w, a) && Stands(w, m, k) && k != PodMonitor
    ensures Stands(OpEffect(e, w, a), m, k)
  {}

  lemma EnvKeepsHeld(e: Setup, w: World, a: EnvAction, name: string)
    requires Live(w) && Held(e, w, name)
    ensures Held(e, EnvEffect(e, w, a), name) && EnvEffect(e, w, a).secrets[name] == w.secrets[name]
  {
    EnvSteady(e, w, a);
    SteadyMeansKept(e, w, EnvEffect(e, w, a), {});
  }

  lemma OpKeepsHeld(e: Setup, w: World, a: OpAction, m: Mint, name: string)
    requires Inv(e, w) && Busy(w, m) && Allowed(e, w, a) && !a.Began? && Held(e, w, name)
    requires Busy(OpEffect(e, w, a), m) && Inv(e, OpEffect(e, w, a))
    ensures Held(e, OpEffect(e, w, a), name) && OpEffect(e, w, a).secrets[name] == w.secrets[name]
  {
    BusyIsLive(e, w, m);
    BusyIsLive(e, OpEffect(e, w, a), m);
  }

  predicate Begins(a: Action) {
    a.Op? && a.op.Began?
  }

  lemma StandsNext(e: Setup, w: World, log: seq<Action>, n: nat, m: Mint, k: Kind)
    requires Inv(e, w) && Good(e, w, log) && n < |log| && !Begins(log[n]) && k != PodMonitor
    requires Busy(At(e, w, log, n), m) && Stands(At(e, w, log, n), m, k)
    ensures Busy(At(e, w, log, n + 1), m) && Stands(At(e, w, log, n + 1), m, k)
  {
    var v := At(e, w, log, n);
    StepAt(e, w, log, n);
    PassGoesOn(e, v, log[n]);
    BusyIsLive(e, v, m);
    if log[n].Env? {
      EnvKeepsStanding(e, v, log[n].env, m, k);
    } else {
      OpKeepsStanding(e, v, log[n].op, m, k);
    }
  }

  lemma HeldNext(e: Setup, w: World, log: seq<Action>, n: nat, m: Mint, name: string)
    requires Inv(e, w) && Good(e, w, log) && n < |log| && !Begins(log[n])
    requires Busy(At(e, w, log, n), m) && Held(e, At(e, w, log, n), name)
    ensures Busy(At(e, w, log, n + 1), m) && Held(e, At(e, w, log, n + 1), name)
    ensures At(e, w, log, n + 1).secrets[name] == At(e, w, log, n).secrets[name]
  {
    var v := At(e, w, log, n);
    StepAt(e, w, log, n);
    PassGoesOn(e, v, log[n]);
    BusyIsLive(e, v, m);
    if log[n].Env? {
      EnvKeepsHeld(e, v, log[n].env, name);
    } else {
      OpKeepsHeld(e, v, log[n].op, m, name);
    }
  }

  lemma SamePassBefore(log: seq<Action>, i: nat, j: nat)
    requires i < j <= |log| && SamePass(log[..j], i)
    ensures SamePass(log[..j - 1], i) && !(log[j - 1].Op? && log[j - 1].op.Began?)
  {
    assert log[..j][j - 1] == log[j - 1] && forall n | i <= n < j - 1 :: log[..j - 1][n] == log[..j][n];
  }

  /** An object of the mint is still there at every later moment of the Reconcile. */
  lemma {:induction false} StandsOn(e: Setup, w: World, log: seq<Action>, i: nat, j: nat, m: Mint, k: Kind)
    requires Inv(e, w) && Good(e, w, log) && i <= j <= |log| && SamePass(log[..j], i) && k != PodMonitor
    requires Busy(At(e, w, log, i), m) && Stands(At(e, w, log, i), m, k)
    ensures Busy(At(e, w, log, j), m) && Stands(At(e, w, log, j), m, k)
    decreases j
  {
    if i < j {
      SamePassBefore(log, i, j);
      StandsOn(e, w, log, i, j - 1, m, k);
      StandsNext(e, w, log, j - 1, m, k);
    }
  }

  /** So is a Secret that is held. */
  lemma {:induction false} HeldOn(e: Setup, w: World, log: seq<Action>, i: nat, j: nat, m: Mint, name: string)
    requires Inv(e, w) && Good(e, w, log) && i <= j <= |log| && SamePass(log[..j], i)
    requires Busy(At(e, w, log, i), m) && Held(e, At(e, w, log, i), name)
    ensures Busy(At(e, w, log, j), m) && Held(e, At(e, w, log, j), name)
    ensures At(e, w, log, j).secrets[name] == At(e, w, log, i).secrets[name]
    decreases j
  {
    if i < j {
      SamePassBefore(log, i, j);
      HeldOn(e, w, log, i, j - 1, m, name);
      HeldNext(e, w, log, j - 1, m, name);
    }
  }

  /** Being held is exactly being out of everybody else's reach. */
  lemma HeldIsOutOfReach(e: Setup, w: World, name: string)
    requires Live(w) && name in w.secrets
    ensures Held(e, w, name) <==>
            forall a: EnvAction ::
              name in EnvEffect(e, w, a).secrets && EnvEffect(e, w, a).secrets[name] == w.secrets[name]
  {
    if Held(e, w, name) {
      forall a: EnvAction
        ensures name in EnvEffect(e, w, a).secrets && EnvEffect(e, w, a).secrets[name] == w.secrets[name]
      {
        EnvKeepsHeld(e, w, a, name);
      }
    } else if OperatorSecret(e, name) {
      assert name !in EnvEffect(e, w, CollectSecret(name)).secrets;
    } else {
      assert name !in EnvEffect(e, w, DropUserSecret(name)).secrets;
    }
  }

  // ---------------------------------------------------------------- the Deployment

  predicate AppliesDeployment(log: seq<Action>, j: nat) {
    j < |log| && log[j].Op? && log[j].op.Apply? && log[j].op.kind == Deployment
  }

  /** The object behind a source of the pod's volumes. */
  function KindOf(e: Setup, source: Source): Option<Kind> {
    match source
    case FromConfigMap(_) => Some(ConfigMap)
    case FromClaim(name) =>
      if name == e.name + "-data" then Some(MintPVC)
      else if name == e.name + "-orchard-data" then Some(OrchardPVC) else None
    case _ => None
  }

  /** A step that applies an object of this kind leaves it standing. */
  lemma PutStands(e: Setup, w: World, a: OpAction, m: Mint, k: Kind)
    requires Allowed(e, w, a) && w.pass.Some? && w.pass.value.mint == m
    requires (a.Apply? && a.kind == k) || (a.ApplyConfig? && k == ConfigMap)
    ensures Busy(OpEffect(e, w, a), m) && Stands(OpEffect(e, w, a), m, k)
  {}

  /** The ConfigMap and every claim the pod mounts were put there by this Reconcile and are there when the
      Deployment is applied. */
  lemma DeploymentHasObjects(e: Setup, w: World, log: seq<Action>, j: nat, source: Source) returns (n: nat)
    requires Inv(e, w) && Good(e, w, log) && w.pass.None? && AppliesDeployment(log, j)
    requires source in CreatedBefore(log[j].op.built.spec, e.name) && !source.FromSecret?
    ensures At(e, w, log, j).pass.Some? && n < j && SamePass(log[..j], n)
    ensures var m := At(e, w, log, j).pass.value.mint;
            && KindOf(e, source).Some?
            && Stands(At(e, w, log, n + 1), m, KindOf(e, source).value)
            && Stands(At(e, w, log, j), m, KindOf(e, source).value)
  {
    StepAt(e, w, log, j);
    var m := At(e, w, log, j).pass.value.mint;
    if source.FromConfigMap? {
      var text;
      n, text := NoRolloutWithoutConfig(e, w, log, j);
    } else {
      var k := KindOf(e, source).value;
      n := NoteBefore(e, w, log, j, Put(k));
    }
    assert log[..j][n] == log[n] && log[..j][..n] == log[..n];
    StepAt(e, w, log, n);
    PutStands(e, At(e, w, log, n), log[n].op, m, KindOf(e, source).value);
    StandsOn(e, w, log, n + 1, j, m, KindOf(e, source).value);
  }

  ghost predicate RefersTo(e: Setup, s: Spec, name: string) {
    || FromSecret(name) in CreatedBefore(s, e.name)
    || exists key :: SecretKey(name, key) in CreatedKeys(s, e.name)
  }

  lemma RolloutNotesSecret(e: Setup, s: Spec, name: string)
    requires RefersTo(e, s, name)
    ensures SawSecret(name) in RolloutNotes(e, s)
  {}

  /** Every Secret of the operator the pod refers to was there at an earlier moment of this Reconcile, and
      one that was held then is there, with the same data, when the Deployment is applied. */
  lemma DeploymentHasSecrets(e: Setup, w: World, log: seq<Action>, j: nat, name: string) returns (n: nat)
    requires Inv(e, w) && Good(e, w, log) && w.pass.None? && AppliesDeployment(log, j)
    requires RefersTo(e, log[j].op.built.spec, name)
    ensures At(e, w, log, j).pass.Some? && n < j && SamePass(log[..j], n)
    ensures name in At(e, w, log, n).secrets
    ensures Held(e, At(e, w, log, n), name) ==>
              Held(e, At(e, w, log, j), name)
              && At(e, w, log, j).secrets[name] == At(e, w, log, n).secrets[name]
  {
    StepAt(e, w, log, j);
    var m := At(e, w, log, j).pass.value.mint;
    RolloutNotesSecret(e, m.spec, name);
    n := NoteBefore(e, w, log, j, SawSecret(name));
    if Held(e, At(e, w, log, n), name) {
      assert log[..j][..n] == log[..n];
      HeldOn(e, w, log, n, j, m, name);
    }
  }

  /** The Secret has the key the pod reads, exactly unless it is a TLS bundle a spec gave this name. */
  lemma KeyIsThere(e: Setup, w: World, s: Spec, key: SecretKey)
    requires Inv(e, w) && key in CreatedKeys(s, e.name) && key.name in w.secrets
    ensures key.key in w.secrets[key.name].data <==> !Bundle(w.secrets[key.name].data)
  {
    NamesDiffer(e);
    assert Shaped(e, key.name, w.secrets[key.name]);
  }

  /** Every key of the operator's Secrets an environment variable of the pod reads: its Secret was there
      earlier in this Reconcile, with the key in it unless it is such a bundle. */
  lemma DeploymentHasKeys(e: Setup, w: World, log: seq<Action>, j: nat, key: SecretKey) returns (n: nat)
    requires Inv(e, w) && Good(e, w, log) && w.pass.None? && AppliesDeployment(log, j)
    requires key in CreatedKeys(log[j].op.built.spec, e.name)
    ensures At(e, w, log, j).pass.Some? && n < j && SamePass(log[..j], n)
    ensures var seen := At(e, w, log, n).secrets;
            key.name in seen && (key.key in seen[key.name].data <==> !Bundle(seen[key.name].data))
    ensures Held(e, At(e, w, log, n), key.name) ==>
              key.name in At(e, w, log, j).secrets
              && At(e, w, log, j).secrets[key.name] == At(e, w, log, n).secrets[key.name]
  {
    assert key == SecretKey(key.name, key.key);
    n := DeploymentHasSecrets(e, w, log, j, key.name);
    StepAt(e, w, log, n);
    KeyIsThere(e, At(e, w, log, n), log[j].op.built.spec, key);
  }

  /** A config.toml made with the password leaves the postgres Secret in place for the rest of the Reconcile. */
  lemma PasswordStaysHeld(e: Setup, w: World, log: seq<Action>, n: nat, j: nat, m: Mint, text: string)
    requires Inv(e, w) && Good(e, w, log) && j <= |log| && ConfigAt(e, w, log[..j], n, m, text)
    requires ProvisionedConfig(m.spec)
    ensures var v, name := At(e, w, log, j), PostgresSecretName(e.name);
            Held(e, v, name) && v.secrets[name].owner.None? && PostgresData(e, v.secrets[name].data)
  {
    var name := PostgresSecretName(e.name);
    assert log[..j][n] == log[n] && log[..j][..n] == log[..n];
    StepAt(e, w, log, n);
    PasswordUnowned(e, At(e, w, log, n));
    HeldOn(e, w, log, n, j, m, name);
    InvAt(e, w, log, j);
    assert Shaped(e, name, At(e, w, log, j).secrets[name]);
  }

  /** With a provisioned config there is no exception and nothing that had to be held: whenever the Deployment
      is applied, the postgres Secret is there, out of everybody else's reach, with a password that is not
      empty and the url made of it. */
  lemma DeploymentHasPassword(e: Setup, w: World, log: seq<Action>, j: nat)
    requires Inv(e, w) && Good(e, w, log) && w.pass.None? && AppliesDeployment(log, j)
    requires ProvisionedConfig(log[j].op.built.spec)
    ensures var v, name := At(e, w, log, j), PostgresSecretName(e.name);
            Held(e, v, name) && v.secrets[name].owner.None? && PostgresData(e, v.secrets[name].data)
  {
    var n, text := NoRolloutWithoutConfig(e, w, log, j);
    StepAt(e, w, log, j);
    PasswordStaysHeld(e, w, log, n, j, At(e, w, log, j).pass.value.mint, text);
  }

  // A run that shows a Secret has to be held.

  predicate OnlyMnemonic(s: Spec) {
    && WantsMnemonic(s) && !AutoProvision(s) && !ManagementTLSOn(s) && !NeedsURL(s) && !NeedsAuthURL(s)
    && !LocalEngine(s) && !OrchardOn(s)
  }

  function Inherited(e: Setup, s: Spec, phrase: string): World {
    World(Some(Mint(5, s, 1, 5, true, false, NoStatus())),
          map[Env.MnemonicSecretName(e.name) := Secret(0, Some(1), map["mnemonic" := phrase])], map[],
          Counts(0, 0, 0), Counts(0, 0, 0), false, None, NoPod, 6, None, {})
  }

  lemma InheritedIsSound(e: Setup, s: Spec, phrase: string)
    requires e.phrase(phrase)
    ensures Inv(e, Inherited(e, s, phrase))
  {
    NamesDiffer(e);
  }

  lemma InheritedIsCollected(e: Setup, s: Spec, phrase: string) returns (log: seq<Action>, v: World)
    requires OnlyMnemonic(s) && e.phrase(phrase)
    ensures var w := Inherited(e, s, phrase);
            && Inv(e, w) && Good(e, w, log) && |log| == 3 && v == Run(e, w, log)
            && v == w.(secrets := map[], pass := Some(Pass(w.cr.value, None, false)),
                       notes := {SawSecret(Env.MnemonicSecretName(e.name))})
  {
    InheritedIsSound(e, s, phrase);
    var w, name := Inherited(e, s, phrase), Env.MnemonicSecretName(e.name);
    log, v := Next(e, w, [], w, Op(Began(w.cr.value)));
    log, v := Next(e, w, log, v, Op(Noted(SawSecret(name))));
    log, v := Next(e, w, log, v, Env(CollectSecret(name)));
  }

  /** The mnemonic Secret of an earlier CashuMint of the same name is found and kept, then collected with its
      owner, and the Deployment that refers to it is applied all the same. */
  lemma SecretMayGo(e: Setup, s: Spec, phrase: string) returns (w: World, log: seq<Action>)
    requires OnlyMnemonic(s) && e.phrase(phrase)
    ensures Inv(e, w) && Good(e, w, log) && w.pass.None? && |log| == 5 && AppliesDeployment(log, 4)
    ensures SecretKey(Env.MnemonicSecretName(e.name), "mnemonic") in CreatedKeys(log[4].op.built.spec, e.name)
    ensures Env.MnemonicSecretName(e.name) in w.secrets && Env.MnemonicSecretName(e.name) !in Run(e, w, log).secrets
  {
    w := Inherited(e, s, phrase);
    var text := e.render(Resolve(s, "", ""), "");
    var v;
    log, v := InheritedIsCollected(e, s, phrase);
    log, v := Next(e, w, log, v, Op(ApplyConfig(Obj(5, s, text), "", "")));
    log, v := Next(e, w, log, v, Op(Apply(Deployment, Obj(5, s, e.hash(text)))));
  }

  // ---------------------------------------------------------------- bundles under another name

  // Runs that show what a bundle under the name of a credential does: the spec asks for one, then is edited.

  /** `s` with the management RPC on, its TLS Secret called `name` and no credentials of its own. */
  function Borrowing(s: Spec, name: string): Spec {
    s.(mintInfo := s.mintInfo.(autoGenerateMnemonic := false), database := s.database.(postgres := None),
       managementRPC := Some(ManagementRPC(true, "", 0, Some(name))))
  }

  function Empty(s: Spec): World {
    World(Some(Mint(0, s, 1, 0, true, false, NoStatus())), map[], map[], Counts(0, 0, 0), Counts(0, 0, 0), false,
          None, NoPod, 1, None, {})
  }

  /** The edited mint, with a bundle under that name. */
  function Edited(s: Spec, name: string, bundle: map<string, string>): World {
    Empty(Borrowing(s, name)).(
      cr := Some(Mint(0, s, 2, 2, true, false, NoStatus())), secrets := map[name := Secret(1, Some(0), bundle)],
      clock := 3,
      pass := Some(Pass(Mint(0, Borrowing(s, name), 1, 0, true, false, NoStatus()), None, false)))
  }

  lemma BundleUnderAnotherName(e: Setup, s: Spec, name: string, bundle: map<string, string>)
      returns (w: World, log: seq<Action>)
    requires Bundle(bundle) && name != "" && s != Borrowing(s, name)
    ensures w == Empty(Borrowing(s, name)) && Inv(e, w) && Good(e, w, log) && |log| == 3
    ensures Run(e, w, log) == Edited(s, name, bundle)
  {
    w := Empty(Borrowing(s, name));
    var v;
    log, v := Next(e, w, [], w, Op(Began(w.cr.value)));
    log, v := Next(e, w, log, v, Op(CreateSecret(name, Some(0), bundle)));
    log, v := Next(e, w, log, v, Env(EditSpec(s)));
  }

  lemma BundleIsKept(e: Setup, s: Spec, bundle: map<string, string>) returns (w: World, log: seq<Action>)
    requires OnlyMnemonic(s) && Bundle(bundle)
    ensures Inv(e, w) && Good(e, w, log) && w.pass.None? && w.secrets == map[] && |log| == 5
    ensures var name, m := Env.MnemonicSecretName(e.name), Mint(0, s, 2, 2, true, false, NoStatus());
            Run(e, w, log)
              == Edited(s, name, bundle).(pass := Some(Pass(m, None, false)), notes := {SawSecret(name)})
  {
    var name, m := Env.MnemonicSecretName(e.name), Mint(0, s, 2, 2, true, false, NoStatus());
    w, log := BundleUnderAnotherName(e, s, name, bundle);
    var v := Run(e, w, log);
    log, v := Next(e, w, log, v, Op(Began(m)));
    log, v := Next(e, w, log, v, Op(Noted(SawSecret(name))));
  }

  /** Under the name of the mnemonic Secret: the Deployment is applied, and the key its pod reads is missing. */
  lemma KeyMayBeMissing(e: Setup, s: Spec, bundle: map<string, string>) returns (w: World, log: seq<Action>)
    requires OnlyMnemonic(s) && Bundle(bundle)
    ensures Inv(e, w) && Good(e, w, log) && w.pass.None? && w.secrets == map[] && |log| == 7
    ensures AppliesDeployment(log, 6)
    ensures var key := SecretKey(Env.MnemonicSecretName(e.name), "mnemonic");
            && key in CreatedKeys(log[6].op.built.spec, e.name) && key.name in Run(e, w, log).secrets
            && key.key !in Run(e, w, log).secrets[key.name].data
  {
    w, log := BundleIsKept(e, s, bundle);
    var v, text := Run(e, w, log), e.render(Resolve(s, "", ""), "");
    log, v := Next(e, w, log, v, Op(ApplyConfig(Obj(0, s, text), "", "")));
    log, v := Next(e, w, log, v, Op(Apply(Deployment, Obj(0, s, e.hash(text)))));
  }

  /** Under the name of the postgres Secret: a run to a state that no undisturbed pass brings to rest. */
  lemma BundleForbidsRest(e: Setup, s: Spec, bundle: map<string, string>) returns (w: World, log: seq<Action>)
    requires ProvisionedConfig(s) && Bundle(bundle)
    ensures Inv(e, w) && Good(e, w, log) && w.pass.None? && w.secrets == map[]
    ensures var v := Run(e, w, log);
            v.cr.Some? && v.cr.value.spec == s && !v.cr.value.deleting && v.cr.value.finalizer && !Reconcilable(e, v)
  {
    w, log := BundleUnderAnotherName(e, s, PostgresSecretName(e.name), bundle);
  }

  // Where every bundle has a name of its own.

  /** No spec calls the management TLS Secret like one of the credentials. */
  predicate NamesApart(e: Setup, s: Spec) {
    && ManagementTLSSecretName(s, e.name) != PostgresSecretName(e.name)
    && ManagementTLSSecretName(s, e.name) != Env.MnemonicSecretName(e.name)
  }

  predicate NoBundle(e: Setup, w: World, name: string) {
    name in w.secrets ==> !Bundle(w.secrets[name].data)
  }

  predicate SpecsApart(e: Setup, w: World) {
    (w.cr.Some? ==> NamesApart(e, w.cr.value.spec)) && (w.pass.Some? ==> NamesApart(e, w.pass.value.mint.spec))
  }

  predicate Apart(e: Setup, w: World) {
    && SpecsApart(e, w)
    && NoBundle(e, w, PostgresSecretName(e.name)) && NoBundle(e, w, Env.MnemonicSecretName(e.name))
  }

  predicate SpecApart(e: Setup, a: Action) {
    && (a.Env? && a.env.EditSpec? ==> NamesApart(e, a.env.spec))
    && (a.Env? && a.env.CreateMint? ==> NamesApart(e, a.env.spec))
  }

  lemma EnvMakesNoBundle(e: Setup, w: World, a: EnvAction, name: string)
    requires NoBundle(e, w, name) && OperatorSecret(e, name)
    ensures NoBundle(e, EnvEffect(e, w, a), name)
  {}

  lemma EnvKeepsSpecsApart(e: Setup, w: World, a: EnvAction)
    requires SpecsApart(e, w) && SpecApart(e, Env(a))
    ensures SpecsApart(e, EnvEffect(e, w, a))
  {}

  lemma EnvKeepsApart(e: Setup, w: World, a: EnvAction)
    requires Apart(e, w) && SpecApart(e, Env(a))
    ensures Apart(e, EnvEffect(e, w, a))
  {
    EnvKeepsSpecsApart(e, w, a);
    EnvMakesNoBundle(e, w, a, PostgresSecretName(e.name));
    EnvMakesNoBundle(e, w, a, Env.MnemonicSecretName(e.name));
  }

  lemma OpKeepsApart(e: Setup, w: World, a: OpAction)
    requires Apart(e, w) && Allowed(e, w, a)
    ensures Apart(e, OpEffect(e, w, a))
  {
    NamesDiffer(e);
  }

  lemma {:induction false} AlwaysApart(e: Setup, w: World, log: seq<Action>)
    requires Inv(e, w) && Good(e, w, log) && Apart(e, w) && forall k | 0 <= k < |log| :: SpecApart(e, log[k])
    ensures Apart(e, Run(e, w, log))
  {
    if log != [] {
      var last := |log| - 1;
      assert log[..|log|] == log;
      AlwaysApart(e, w, log[..last]);
      StepAt(e, w, log, last);
      if log[last].Env? {
        EnvKeepsApart(e, At(e, w, log, last), log[last].env);
      } else {
        OpKeepsApart(e, At(e, w, log, last), log[last].op);
      }
    }
  }

  /** A generated password: thirty-two letters of the base64url alphabet. */
  predicate Letters32(p: string) {
    |p| == 32 && forall i | 0 <= i < 32 ::
      'A' <= p[i] <= 'Z' || 'a' <= p[i] <= 'z' || '0' <= p[i] <= '9' || p[i] == '-' || p[i] == '_'
  }

  /** Where no spec calls the management TLS Secret like one of the credentials, the credentials are
      complete in every reachable state: the postgres Secret has a password of thirty-two letters and the url
      made of it, the mnemonic Secret a phrase the decoder accepts. */
  lemma CredentialsComplete(e: Setup, table: seq<string>, checksum: seq<Mnemonic.Byte> -> Mnemonic.Byte, w: World,
      log: seq<Action>)
    requires Recognises(e, table, checksum)
    requires Inv(e, w) && Good(e, w, log) && Apart(e, w) && forall k | 0 <= k < |log| :: SpecApart(e, log[k])
    ensures var v, n := Run(e, w, log), e.name + "-postgres-secret";
            n in v.secrets ==>
              var data := v.secrets[n].data;
              v.secrets[n].owner.None? && "password" in data && Letters32(data["password"])
              && "database-url" in data && data["database-url"] == e.databaseURL(data["password"])
    ensures var v, n := Run(e, w, log), e.name + "-mnemonic";
            n in v.secrets ==>
              "mnemonic" in v.secrets[n].data
              && Mnemonic.Decode(table, checksum, v.secrets[n].data["mnemonic"]).Some?
  {
    AlwaysApart(e, w, log);
    InvHolds(e, w, log);
    var n := Env.MnemonicSecretName(e.name);
    assert n in Run(e, w, log).secrets ==> Shaped(e, n, Run(e, w, log).secrets[n]);
  }

  /** And the url it has then splits back into the parts it was made of, for the url builder of the operator
      and the names the cluster allows. */
  lemma SecretURLReadsBack(e: Setup, w: World, log: seq<Action>)
    requires Builds(e) && Credentials.ObjectName(e.name)
    requires Inv(e, w) && Good(e, w, log) && Apart(e, w) && forall k | 0 <= k < |log| :: SpecApart(e, log[k])
    ensures var v, n := Run(e, w, log), e.name + "-postgres-secret";
            n in v.secrets ==>
              var data := v.secrets[n].data;
              "password" in data && "database-url" in data
              && Credentials.ParseURL(data["database-url"])
                 == Some(Credentials.URL("cdk", data["password"], e.name + "-postgres", "5432", "cdk_mintd",
                                         "sslmode=disable"))
  {
    AlwaysApart(e, w, log);
    InvHolds(e, w, log);
    var v, n := Run(e, w, log), e.name + "-postgres-secret";
    if n in v.secrets {
      var password := v.secrets[n].data["password"];
      Credentials.SameURL(password, e.name);
      Credentials.URLOfLetters(password, e.name);
    }
  }
}
