/** The password of the database and the password of the Secret: what the init container of the postgres
    pod is there to keep together. */
module Agreement {
  import opened Options
  import opened MintTypes
  import opened Plan
  import opened Cluster
  import opened Runs
  import opened Rollout

  predicate Agree(e: Setup, w: World) {
    PostgresSecretName(e.name) in w.secrets && w.disk == Some(Password(e, w))
  }

  /** The postgres Secret has been there since the init container ran, or the data directory is empty. */
  predicate InitUpToDate(e: Setup, w: World) {
    var n := PostgresSecretName(e.name);
    w.disk.None? || (!w.pod.NoPod? && n in w.secrets && w.secrets[n].uid == w.pod.secret)
  }

  // ---------------------------------------------------------------- where the password of the directory comes from

  /** The data directory was last set up with the password of the Secret the pod remembers, as it was at
      the moment i. */
  predicate SetUpAt(e: Setup, w: World, log: seq<Action>, i: nat, v: World) {
    var n := PostgresSecretName(e.name);
    && i <= |log| && n in At(e, w, log, i).secrets
    && !v.pod.NoPod? && At(e, w, log, i).secrets[n].uid == v.pod.secret
    && v.disk == Some(Password(e, At(e, w, log, i)))
  }

  /** A step that sets the directory up does it with the Secret of the moment; every other step that leaves
      the pod running leaves both alone. */
  lemma EnvSetsUp(e: Setup, w: World, a: EnvAction)
    ensures var w', n := EnvEffect(e, w, a), PostgresSecretName(e.name);
            !w'.pod.NoPod? && w'.disk.Some? ==>
              || (n in w.secrets && w.secrets[n].uid == w'.pod.secret && w'.disk == Some(Password(e, w)))
              || (!w.pod.NoPod? && w.pod.secret == w'.pod.secret && w.disk == w'.disk)
  {}

  lemma OpSetsNothingUp(e: Setup, w: World, a: OpAction)
    ensures OpEffect(e, w, a).pod == w.pod && OpEffect(e, w, a).disk == w.disk
  {}

  lemma {:induction false} DirectoryIsSetUp(e: Setup, w: World, log: seq<Action>) returns (i: nat)
    requires Inv(e, w) && Good(e, w, log) && w.pod.NoPod?
    requires !Run(e, w, log).pod.NoPod? && Run(e, w, log).disk.Some?
    ensures SetUpAt(e, w, log, i, Run(e, w, log))
  {
    assert log != [];
    var last := |log| - 1;
    var v, before, n := Run(e, w, log), Run(e, w, log[..last]), PostgresSecretName(e.name);
    StepAt(e, w, log, last);
    assert log[..|log|] == log;
    if log[last].Env? {
      EnvSetsUp(e, before, log[last].env);
    } else {
      OpSetsNothingUp(e, before, log[last].op);
    }
    if !before.pod.NoPod? && before.pod.secret == v.pod.secret && before.disk == v.disk {
      i := DirectoryIsSetUp(e, w, log[..last]);
      assert log[..last][..i] == log[..i];
    } else {
      i := last;
    }
  }

  // ---------------------------------------------------------------- the start of the main container

  /** Whenever two postgres Secrets of the run are not the same Secret, their passwords differ. */
  ghost predicate FreshPasswords(e: Setup, w: World, log: seq<Action>) {
    forall i: nat, j: nat | i <= |log| && j <= |log| && Differ(e, At(e, w, log, i), At(e, w, log, j)) ::
      Password(e, At(e, w, log, i)) != Password(e, At(e, w, log, j))
  }

  predicate Differ(e: Setup, a: World, b: World) {
    var n := PostgresSecretName(e.name);
    n in a.secrets && n in b.secrets && a.secrets[n].uid != b.secrets[n].uid
  }

  lemma MainStarts(e: Setup, w: World)
    requires DiskSound(e, w) && !w.pod.NoPod? && PostgresSecretName(e.name) in w.secrets
    ensures var w' := EnvEffect(e, w, PodMain);
            && w'.pod.Running? && w'.secrets == w.secrets && (w.disk.Some? ==> w'.disk == w.disk)
            && (InitUpToDate(e, w) ==> Agree(e, w'))
  {}

  /** When the main container starts or restarts after its init container, the data directory has the
      password of the Secret if the init container is up to date; and in a run that generates no password
      twice, only then. */
  lemma PostgresStartsInAgreement(e: Setup, w: World, log: seq<Action>, j: nat)
    requires Inv(e, w) && Good(e, w, log) && j < |log| && log[j] == Env(PodMain)
    requires !At(e, w, log, j).pod.NoPod? && PostgresSecretName(e.name) in At(e, w, log, j).secrets
    ensures At(e, w, log, j + 1).pod.Running?
    ensures InitUpToDate(e, At(e, w, log, j)) ==> Agree(e, At(e, w, log, j + 1))
    ensures w.pod.NoPod? && FreshPasswords(e, w, log) ==>
              (Agree(e, At(e, w, log, j + 1)) <==> InitUpToDate(e, At(e, w, log, j)))
  {
    StepAt(e, w, log, j);
    MainStarts(e, At(e, w, log, j));
    if w.pod.NoPod? && FreshPasswords(e, w, log) && !InitUpToDate(e, At(e, w, log, j)) {
      GoodPrefix(e, w, log, j);
      var i := DirectoryIsSetUp(e, w, log[..j]);
      assert log[..j][..i] == log[..i];
      assert Differ(e, At(e, w, log, i), At(e, w, log, j));
    }
  }

  /** From then on only the operator's own deletion of the Secret ends the agreement. */
  lemma EnvKeepsAgreement(e: Setup, w: World, a: EnvAction)
    requires Inv(e, w) && Agree(e, w) && "password" in w.secrets[PostgresSecretName(e.name)].data
    ensures Agree(e, EnvEffect(e, w, a))
  {}

  lemma OpKeepsAgreement(e: Setup, w: World, a: OpAction)
    requires Inv(e, w) && Agree(e, w) && !a.DeleteSecret?
    ensures Agree(e, OpEffect(e, w, a))
  {}

  // ---------------------------------------------------------------- a run that shows the condition is needed

  function DeletedMint(s: Spec): Mint {
    Mint(1, s, 2, 2, true, true, NoStatus())
  }

  function Alone(cr: Option<Mint>, secrets: map<string, Secret>, password: string, pod: PodState,
      pass: Option<Pass>): World {
    World(cr, secrets, map[], Counts(0, 0, 0), Counts(0, 0, 0), false, Some(password), pod, 3, pass, {})
  }

  lemma DeletedAfterInit(e: Setup, s: Spec, a: string) returns (w: World, log: seq<Action>)
    requires AutoProvision(s) && GoodPassword(a)
    ensures Inv(e, w) && Good(e, w, log) && w.pass.None?
    ensures Run(e, w, log) == Alone(None, map[], a, Initialised(0), Some(Pass(DeletedMint(s), None, false)))
  {
    var p := PostgresSecretName(e.name);
    w := Alone(Some(DeletedMint(s)), map[p := Secret(0, None, CredentialData(e, a))], a, NoPod, None);
    log := [];
    var v := w;
    log, v := Next(e, w, log, v, Env(PodInit));
    log, v := Next(e, w, log, v, Op(Began(DeletedMint(s))));
    log, v := Next(e, w, log, v, Op(DeleteSecret(p)));
    log, v := Next(e, w, log, v, Op(RemoveFinalizer(2)));
  }

  lemma MadeAgain(e: Setup, s: Spec, a: string) returns (w: World, log: seq<Action>)
    requires AutoProvision(s) && GoodPassword(a)
    ensures Inv(e, w) && Good(e, w, log) && w.pass.None?
    ensures var m := Mint(3, s, 1, 4, true, false, NoStatus());
            Run(e, w, log) == Alone(Some(m), map[], a, Initialised(0), Some(Pass(m, None, false))).(clock := 5)
  {
    var made := Mint(3, s, 1, 3, false, false, NoStatus());
    w, log := DeletedAfterInit(e, s, a);
    var v := Run(e, w, log);
    log, v := Next(e, w, log, v, Env(CreateMint(s)));
    log, v := Next(e, w, log, v, Op(Began(made)));
    log, v := Next(e, w, log, v, Op(AddFinalizer(3)));
    log, v := Next(e, w, log, v, Op(Began(made.(version := 4, finalizer := true))));
  }

  /** The init container sees the old Secret, the CashuMint is deleted and created again, and the main
      container starts with the new Secret. */
  lemma MainMayStartTooLate(e: Setup, s: Spec, a: string, b: string) returns (w: World, log: seq<Action>)
    requires AutoProvision(s) && a != b && GoodPassword(a) && GoodPassword(b)
    ensures Inv(e, w) && Good(e, w, log) && w.pass.None? && |log| > 0 && log[|log| - 1] == Env(PodMain)
    ensures PostgresSecretName(e.name) in Run(e, w, log).secrets
    ensures Run(e, w, log).pod.Running? && Run(e, w, log).disk == Some(a) && Password(e, Run(e, w, log)) == b
  {
    w, log := MadeAgain(e, s, a);
    var v := Run(e, w, log);
    log, v := Next(e, w, log, v, Op(CreateSecret(PostgresSecretName(e.name), None, CredentialData(e, b))));
    log, v := Next(e, w, log, v, Env(PodMain));
  }
}
