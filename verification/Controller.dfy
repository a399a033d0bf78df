/** CashuMintReconciler of internal/controller/cashumint_controller.go. Between any two calls to the API
    server the others may do anything, and any call may fail before or after it took effect: which is
    decided by `script` and `faults`, about which nothing is assumed. */
module Controller {
  import opened Options
  import opened MintTypes
  import opened Plan
  import opened Cluster
  import opened Inventory
  import opened Runs
  import opened Rely
  import opened Statuses
  import opened Passes
  import opened Rest
  import Credentials
  import Mnemonic
  import Env

  /** NoMatch: the server does not know the kind. */
  datatype Error = NotFound | AlreadyExists | Conflict | NoMatch | Other

  datatype Fault = Fault(error: Error, applied: bool)

  datatype Result<+T> = Ok(value: T) | Err(error: Error)

  /** What Reconcile tells the work queue; times in milliseconds. */
  datatype Outcome = Outcome(requeue: bool, after: nat, err: Option<Error>)

  const RECONCILE_INTERVAL: nat := 300_000
  const UPDATE_RECONCILE_INTERVAL: nat := 30_000
  const NOT_READY_RETRY_INTERVAL: nat := 10_000

  /** `w` is where the run has got to, and the operator has kept its guarantee. (The quantifier keeps the
      run out of proofs that only pass the fact on.) */
  ghost predicate RunsTo(e: Setup, start: World, log: seq<Action>, w: World) {
    forall u: World :: IsRun(e, start, log, u) ==> u == w && Good(e, start, log) && Inv(e, start)
  }

  ghost predicate IsRun(e: Setup, start: World, log: seq<Action>, u: World) {
    u == Run(e, start, log)
  }

  lemma RunsToMeansRun(e: Setup, start: World, log: seq<Action>, w: World)
    ensures RunsTo(e, start, log, w) <==> w == Run(e, start, log) && Good(e, start, log) && Inv(e, start)
  {
    assert IsRun(e, start, log, Run(e, start, log));
  }

  lemma RunsToNext(e: Setup, start: World, log: seq<Action>, w: World, a: Action)
    requires RunsTo(e, start, log, w) && StepAllowed(e, w, a)
    ensures RunsTo(e, start, log + [a], Effect(e, w, a))
  {
    RunsToMeansRun(e, start, log, w);
    RunNext(e, start, log, a);
    RunsToMeansRun(e, start, log + [a], Effect(e, w, a));
  }

  lemma RunsToKeepsInv(e: Setup, start: World, log: seq<Action>, w: World)
    requires RunsTo(e, start, log, w)
    ensures Inv(e, w)
  {
    RunsToMeansRun(e, start, log, w);
    InvHolds(e, start, log);
  }

  /** What the generators of the Secrets make: BIP-39 phrases of the word table, five files that are not
      empty, and database urls that are not empty. */
  ghost predicate Generators(e: Setup, table: seq<string>, checksum: seq<Mnemonic.Byte> -> Mnemonic.Byte,
      bundles: nat -> map<string, string>) {
    && Mnemonic.WordTable(table) && Recognises(e, table, checksum)
    && (forall n :: Bundle(bundles(n)) && Filled(bundles(n))) && forall password :: e.databaseURL(password) != ""
  }

  function PhraseData(phrase: string): map<string, string> {
    map["mnemonic" := phrase]
  }

  lemma PhraseIsAllowed(e: Setup, p: Pass, phrase: string)
    requires Building(p.mint) && WantsMnemonic(p.mint.spec) && phrase != "" && e.phrase(phrase)
    ensures CreateAllowed(e, p, Env.MnemonicSecretName(e.name), Some(p.mint.uid), PhraseData(phrase))
    ensures Made(e, p.mint.spec, Env.MnemonicSecretName(e.name), PhraseData(phrase))
  {}

  class Reconciler {
    const setup: Setup
    const script: nat -> seq<EnvAction>
    const faults: nat -> Option<Fault>
    const table: seq<string>
    const checksum: seq<Mnemonic.Byte> -> Mnemonic.Byte
    const entropy: nat -> nat -> Mnemonic.Byte
    const bundles: nat -> map<string, string>
    ghost const start: World
    var world: World
    var calls: nat
    var mint: Mint  // the copy of the CashuMint this Reconcile works on
    ghost var log: seq<Action>

    constructor (setup: Setup, table: seq<string>, checksum: seq<Mnemonic.Byte> -> Mnemonic.Byte,
                 script: nat -> seq<EnvAction>, faults: nat -> Option<Fault>, entropy: nat -> nat -> Mnemonic.Byte,
                 bundles: nat -> map<string, string>, world: World)
      requires Inv(setup, world) && Generators(setup, table, checksum, bundles)
      ensures Valid() && this.world == world && log == []
    {
      this.setup, this.table, this.checksum, this.script, this.faults := setup, table, checksum, script, faults;
      this.entropy, this.bundles := entropy, bundles;
      this.start, this.world, calls, log := world, world, 0, [];
      mint := Mint(0, Blank(), 0, 0, false, false, NoStatus());
      new;
      RunsToMeansRun(setup, world, [], world);
    }

    ghost predicate Valid()
      reads this
    {
      RunsTo(setup, start, log, world) && Generators(setup, table, checksum, bundles)
    }

    /** What these methods did so far, together with the others, is a run: every theorem about runs in
        which the operator keeps its guarantee is a theorem about this code. */
    lemma IsARun()
      requires Valid()
      ensures Inv(setup, start) && Good(setup, start, log) && world == Run(setup, start, log)
    {
      RunsToMeansRun(setup, start, log, world);
    }

    /** Nobody interferes and nothing fails. */
    ghost predicate Quiet() {
      forall n :: script(n) == [] && faults(n).None?
    }

    /** Since `w` only others acted. */
    ghost predicate Waited(w: World)
      reads this
    {
      && Valid() && Steady(setup, w, world, {}) && NoNewSecrets(setup, w, world)
      && world.pass == w.pass && world.notes == w.notes
      && (Quiet() ==> world == w)
    }

    /** Since `w` the operator, still in the same Reconcile, may have applied objects of the touched kinds. */
    ghost predicate Worked(w: World, touched: set<Kind>)
      reads this
    {
      Valid() && Between(setup, Quiet(), w, world, touched)
    }

    // ---------------------------------------------------------------- the others, and the network

    method Interfere()
      requires Valid()
      modifies this`world, this`log, this`calls
      ensures Waited(old(world))
      ensures calls == old(calls) + 1
    {
      var steps := script(calls);
      calls := calls + 1;
      var i := 0;
      SteadySelf(setup, world, {});
      while i < |steps|
        invariant 0 <= i <= |steps|
        invariant Valid() && Steady(setup, old(world), world, {})
        invariant world.pass == old(world).pass && world.notes == old(world).notes
        invariant NoNewSecrets(setup, old(world), world)
        invariant i == 0 ==> world == old(world)
        invariant calls == old(calls) + 1
      {
        RunsToNext(setup, start, log, world, Env(steps[i]));
        EnvSteady(setup, world, steps[i]);
        SteadyAfterWait(setup, old(world), world, EnvEffect(setup, world, steps[i]), {});
        EnvNoNewSecrets(setup, world, steps[i]);
        NoNewSecretsThen(setup, old(world), world, EnvEffect(setup, world, steps[i]));
        world, log := EnvEffect(setup, world, steps[i]), log + [Env(steps[i])];
        i := i + 1;
      }
    }

    /** The effect of one write on the server. */
    method Do(a: OpAction)
      requires Valid() && Allowed(setup, world, a)
      modifies this`world, this`log
      ensures Valid() && world == OpEffect(setup, old(world), a)
    {
      RunsToNext(setup, start, log, world, Op(a));
      world, log := OpEffect(setup, world, a), log + [Op(a)];
    }

    /** The fate of the call that is being made. */
    function Fate(): Option<Fault>
      reads this`calls
    {
      faults(calls)
    }

    // ---------------------------------------------------------------- reads

    /** Get of the CashuMint. */
    method GetMint() returns (r: Result<Mint>)
      requires Valid()
      modifies this`world, this`log, this`calls
      ensures Waited(old(world))
      ensures if r.Ok? then world.cr == Some(r.value) else r.error == NotFound || r.error == Other
      ensures r == Err(NotFound) ==> world.cr.None?
      ensures Quiet() ==> r == if world.cr.Some? then Ok(world.cr.value) else Err(NotFound)
    {
      var fate := Fate();
      Interfere();
      if fate.Some? {
        return Err(Other);
      }
      return if world.cr.Some? then Ok(world.cr.value) else Err(NotFound);
    }

    method GetSecret(name: string) returns (r: Result<Secret>)
      requires Valid()
      modifies this`world, this`log, this`calls
      ensures Waited(old(world))
      ensures r.Ok? ==> name in world.secrets && world.secrets[name] == r.value
      ensures r == Err(NotFound) ==> name !in world.secrets
      ensures Quiet() ==> r == if name in world.secrets then Ok(world.secrets[name]) else Err(NotFound)
    {
      var fate := Fate();
      Interfere();
      if fate.Some? {
        return Err(Other);
      }
      return if name in world.secrets then Ok(world.secrets[name]) else Err(NotFound);
    }

    method GetObj(kind: Kind) returns (r: Result<Obj>)
      requires Valid()
      modifies this`world, this`log, this`calls
      ensures Waited(old(world))
      ensures r.Ok? ==> kind in world.objs && world.objs[kind] == r.value
      ensures r == Err(NotFound) ==> kind !in world.objs
      ensures Quiet() ==> r == if kind in world.objs then Ok(world.objs[kind]) else Err(NotFound)
    {
      var fate := Fate();
      Interfere();
      if fate.Some? {
        return Err(Other);
      }
      return if kind in world.objs then Ok(world.objs[kind]) else Err(NotFound);
    }

    // ---------------------------------------------------------------- writes

    /** A call that failed before it reached the server. */
    static predicate Lost(fate: Option<Fault>) {
      fate.Some? && !fate.value.applied
    }

    /** A note of what is so at this moment. */
    method Take(note: Note)
      requires Valid() && world.pass.Some? && NoteTrue(world, note)
      modifies this`world, this`log
      ensures Worked(old(world), {}) && world == old(world).(notes := old(world).notes + {note})
    {
      NotedSteady(setup, world, note);
      Do(Noted(note));
      NothingSupplied(setup, old(world), world);
    }

    /** Create: the first one wins, whatever became of its reply. */
    method CreateSecret(name: string, owner: Option<nat>, data: map<string, string>) returns (err: Option<Error>)
      requires Valid() && world.pass.Some? && CreateAllowed(setup, world.pass.value, name, owner, data)
      requires Quiet() && name !in world.secrets ==> Made(setup, world.pass.value.mint.spec, name, data)
      modifies this`world, this`log, this`calls
      ensures Worked(old(world), {}) && world.pass == old(world).pass
      ensures err.None? || err == Some(AlreadyExists) ==> name in world.secrets
      ensures Quiet() ==> world == if name in old(world).secrets then old(world)
              else OpEffect(setup, old(world), OpAction.CreateSecret(name, owner, data))
      ensures Quiet() ==> err == if name in old(world).secrets then Some(AlreadyExists) else None
    {
      var fate := Fate();
      Interfere();
      WaitOnly(setup, Quiet(), old(world), world, {});
      if Lost(fate) {
        return Some(Other);
      }
      if name in world.secrets {
        return if fate.Some? then Some(Other) else Some(AlreadyExists);
      }
      WaitThenCreate(setup, Quiet(), old(world), world, name, owner, data);
      Do(OpAction.CreateSecret(name, owner, data));
      return if fate.Some? then Some(Other) else None;
    }

    method DoApply(kind: Kind, built: Obj)
      requires Valid() && MayApply(setup, world.pass, world.notes, kind, built)
      modifies this`world, this`log
      ensures Valid() && world == OpEffect(setup, old(world), Apply(kind, built))
    {
      MayApplyMeansAllowed(setup, world.pass, world.notes, kind, built);
      Do(Apply(kind, built));
    }

    /** Server-side apply of an object that is a function of the spec, or of the Deployment. */
    method ApplyResource(kind: Kind, built: Obj) returns (err: Option<Error>)
      requires Valid() && MayApply(setup, world.pass, world.notes, kind, built)
      modifies this`world, this`log, this`calls
      ensures Worked(old(world), {kind}) && world.pass == old(world).pass
      ensures err.None? ==> kind in world.objs && world.objs[kind] == built && Put(kind) in world.notes
      ensures Quiet() ==> err.None? && SameCluster(world, old(world).(objs := old(world).objs[kind := built]))
    {
      var fate := Fate();
      Interfere();
      WaitOnly(setup, Quiet(), old(world), world, {kind});
      if Lost(fate) {
        return Some(fate.value.error);
      }
      WaitThenApply(setup, Quiet(), old(world), world, kind, built);
      DoApply(kind, built);
      return if fate.Some? then Some(fate.value.error) else None;
    }

    method ApplyConfigMap(built: Obj, url: string, authURL: string) returns (err: Option<Error>)
      requires Valid() && world.pass.Some? && ConfigAllowed(setup, world, world.pass.value, built, url, authURL)
      requires ProvisionedConfig(built.spec) ==> Held(setup, world, PostgresSecretName(setup.name))
      modifies this`world, this`log, this`calls
      ensures Worked(old(world), {ConfigMap})
      ensures err.None? ==> ConfigMap in world.objs && world.objs[ConfigMap] == built
      ensures err.None? ==> world.pass == Some(old(world).pass.value.(config := Some(built.text)))
      ensures Quiet() ==> err.None? && SameCluster(world, old(world).(objs := old(world).objs[ConfigMap := built]))
    {
      var fate := Fate();
      Interfere();
      WaitOnly(setup, Quiet(), old(world), world, {ConfigMap});
      if Lost(fate) {
        return Some(fate.value.error);
      }
      ConfigStaysAllowed(setup, old(world), world, world.pass.value, built, url, authURL);
      WaitThenApplyConfig(setup, Quiet(), old(world), world, built, url, authURL);
      ghost var before := world;
      Do(ApplyConfig(built, url, authURL));
      ConfigMakes(setup, before, built, url, authURL);
      return if fate.Some? then Some(fate.value.error) else None;
    }

    method DeletePodMonitorObject() returns (err: Option<Error>)
      requires Valid() && world.pass.Some? && !world.pass.value.mint.deleting
               && !Generates(world.pass.value.mint.spec, PodMonitor)
      modifies this`world, this`log, this`calls
      ensures Worked(old(world), {PodMonitor}) && world.pass == old(world).pass
      ensures err.None? || err == Some(NotFound) || err == Some(NoMatch) ==> PodMonitor !in world.objs
      ensures Quiet() ==> err == (if PodMonitor in old(world).objs then None else Some(NotFound))
      ensures Quiet() ==> world == old(world).(objs := old(world).objs - {PodMonitor})
    {
      var fate := Fate();
      Interfere();
      WaitOnly(setup, Quiet(), old(world), world, {PodMonitor});
      if Lost(fate) {
        return Some(Other);
      }
      if PodMonitor !in world.objs {
        return if fate.None? then Some(NotFound)
               else if fate.value.error == NoMatch then Some(NoMatch) else Some(Other);
      }
      ghost var before := world;
      MonitorSteady(setup, before);
      Do(DeletePodMonitor);
      SteadyAfterWait(setup, old(world), before, world, {PodMonitor});
      if Quiet() {
        NothingSupplied(setup, old(world), world);
      }
      return if fate.Some? then Some(Other) else None;
    }

    // ---------------------------------------------------------------- writes of the CashuMint, checked by version

    method AddFinalizer() returns (err: Option<Error>)
      requires Valid() && world.pass.Some? && world.pass.value.mint == mint && !mint.deleting
      modifies this`world, this`log, this`calls
      ensures Valid() && world.pass == old(world).pass
      ensures Quiet() && old(world).cr == Some(mint) ==>
                err.None? && world == OpEffect(setup, old(world), OpAction.AddFinalizer(mint.version))
    {
      var fate := Fate();
      Interfere();
      if Lost(fate) {
        return Some(fate.value.error);
      }
      if world.cr.None? {
        return Some(NotFound);
      }
      if !Matches(world, mint.version) {
        return Some(Conflict);
      }
      Do(OpAction.AddFinalizer(mint.version));
      return if fate.Some? then Some(fate.value.error) else None;
    }

    /** Status().Update of the copy of this version, which was read as `c`, with a new status. */
    method UpdateStatus(version: nat, ghost c: Mint, st: Status) returns (err: Option<Error>)
      requires version == c.version
      requires Valid() && world.pass.Some? && !world.pass.value.mint.deleting
      requires Live(world) && Continues(c, world.cr) && StatusStep(c, st) && (ReadyTrue(st) ==> world.pass.value.ready)
      modifies this`world, this`log, this`calls
      ensures Valid() && world.pass == old(world).pass
      ensures Quiet() && old(world).cr == Some(c) ==>
                err.None? && world == OpEffect(setup, old(world), WriteStatus(c.version, st))
    {
      var fate := Fate();
      Interfere();
      if Lost(fate) {
        return Some(fate.value.error);
      }
      ContinuesOn(setup, c, old(world), world, {});
      if !Matches(world, version) {
        return Some(Conflict);
      }
      Do(WriteStatus(version, st));
      return if fate.Some? then Some(fate.value.error) else None;
    }

    /** The mint is being deleted and cannot go without the operator. */
    ghost predicate Deleting()
      reads this
    {
      && Valid() && world.pass.Some? && world.pass.value.mint == mint && mint.deleting && mint.finalizer
      && Live(world) && Continues(mint, world.cr)
    }

    method DeletePostgresSecret() returns (err: Option<Error>)
      requires Deleting() && AutoProvision(mint.spec)
      modifies this`world, this`log, this`calls
      ensures Deleting() && world.pass == old(world).pass
      ensures err.None? || err == Some(NotFound) ==> PostgresSecretName(setup.name) !in world.secrets
      ensures Quiet() ==> err.None? || err == Some(NotFound)
      ensures Quiet() ==> world == old(world).(secrets := old(world).secrets - {PostgresSecretName(setup.name)})
    {
      var fate := Fate();
      Interfere();
      ContinuesOn(setup, mint, old(world), world, {});
      if Lost(fate) {
        return Some(Other);
      }
      var name := PostgresSecretName(setup.name);
      if name !in world.secrets {
        return if fate.Some? then Some(Other) else Some(NotFound);
      }
      DeleteKeepsMint(setup, world, name);
      Do(DeleteSecret(name));
      return if fate.Some? then Some(Other) else None;
    }

    method RemoveFinalizer() returns (err: Option<Error>)
      requires Deleting() && (AutoProvision(mint.spec) ==> PostgresSecretName(setup.name) !in world.secrets)
      modifies this`world, this`log, this`calls
      ensures Valid() && world.pass == old(world).pass
      ensures err.None? ==>
              world.cr.None? && (AutoProvision(mint.spec) ==> PostgresSecretName(setup.name) !in world.secrets)
      ensures Quiet() && old(world).cr == Some(mint) ==> err.None? && world == old(world).(cr := None)
    {
      var fate := Fate();
      Interfere();
      ContinuesOn(setup, mint, old(world), world, {});
      if Lost(fate) {
        return Some(fate.value.error);
      }
      if !Matches(world, mint.version) {
        return Some(Conflict);
      }
      Do(OpAction.RemoveFinalizer(mint.version));
      return if fate.Some? then Some(fate.value.error) else None;
    }

    /** The cleanup before the finalizer goes: the postgres Secret, which has no owner to go with. */
    method CleanUp() returns (err: Option<Error>)
      requires Deleting()
      modifies this`world, this`log, this`calls
      ensures Deleting() && world.pass == old(world).pass
      ensures err.None? && AutoProvision(mint.spec) ==> PostgresSecretName(setup.name) !in world.secrets
      ensures Quiet() ==> err.None? && world.cr == old(world).cr
    {
      if mint.spec.database.postgres.Some? && mint.spec.database.postgres.value.autoProvision {
        var secret := GetSecret(PostgresSecretName(setup.name));
        ContinuesOn(setup, mint, old(world), world, {});
        if secret.Ok? {
          err := DeletePostgresSecret();
          return if err == Some(NotFound) then None else err;
        }
        return if secret.error == NotFound then None else Some(secret.error);
      }
      return None;
    }

    method HandleDeletion() returns (o: Outcome)
      requires Valid() && world.pass.Some? && world.pass.value.mint == mint && mint.deleting
      requires mint.finalizer ==> Deleting()
      modifies this`world, this`log, this`calls
      ensures Valid() && world.pass == old(world).pass
      ensures o.err.None? && mint.finalizer ==>
                world.cr.None? && (AutoProvision(mint.spec) ==> PostgresSecretName(setup.name) !in world.secrets)
      ensures Quiet() && old(world).cr == Some(mint) ==> o == Outcome(false, 0, None)
    {
      if mint.finalizer {
        var err := CleanUp();
        if err.Some? {
          return Outcome(false, 0, err);
        }
        err := RemoveFinalizer();
        if err.Some? {
          return Outcome(false, 0, err);
        }
      }
      return Outcome(false, 0, None);
    }

    // ---------------------------------------------------------------- the stages

    ghost function Origin(): Mint
      reads this
      requires world.pass.Some?
    {
      world.pass.value.mint
    }

    /** In the middle of a Reconcile: the mint that was read is still there, and the copy differs from it
        in the status at most. */
    ghost predicate Working()
      reads this
    {
      && Valid() && world.pass.Some? && InPass(world, Origin()) && !Origin().deleting
      && mint == Origin().(status := mint.status)
    }

    /** Since `w` the Reconcile has gone on and touched these kinds at most. */
    ghost predicate Went(w: World, touched: set<Kind>)
      reads this
      requires w.pass.Some?
    {
      && Working() && Worked(w, touched) && Origin() == w.pass.value.mint
    }

    /** After a call that satisfies Worked the Reconcile can go on. */
    lemma GoesOn(w: World, touched: set<Kind>)
      requires w.pass.Some? && InPass(w, w.pass.value.mint) && !w.pass.value.mint.deleting
      requires mint == w.pass.value.mint.(status := mint.status) && Worked(w, touched)
      ensures Went(w, touched)
    {
      PassStays(setup, w.pass.value.mint, w, world, touched);
    }

    /** A stage of objects: the Reconcile goes on, and either failed or has put them in place. */
    ghost predicate Staged(w: World, ks: set<Kind>, err: Option<Error>)
      reads this
      requires w.pass.Some?
    {
      Working() && Origin() == w.pass.value.mint && Applied(setup, Quiet(), Origin(), w, world, ks, err.Some?)
    }

    /** A generator and the apply behind it, when the result is a function of the spec. */
    method ApplyGenerated(kind: Kind) returns (err: Option<Error>)
      requires Working() && PlainText(kind) && kind != PodMonitor && InOrder(world.pass, kind)
      modifies this`world, this`log, this`calls
      ensures mint == old(mint)
      ensures Staged(old(world), {kind}, err)
      ensures err.None? && Generates(mint.spec, kind) ==> Put(kind) in world.notes
    {
      if !Generates(mint.spec, kind) {
        NothingToPlace(world, Origin(), {kind});
        AppliedNothing(setup, Quiet(), Origin(), world, {kind});
        return None;
      }
      GeneratedMayBeApplied(setup, world, Origin(), kind);
      err := ApplyResource(kind, Obj(mint.uid, mint.spec, ""));
      GoesOn(old(world), {kind});
      AppliedOne(setup, Quiet(), Origin(), old(world), world, kind, err.Some?);
    }

    /** Two generated objects one after the other. */
    method ApplyTwo(first: Kind, second: Kind) returns (err: Option<Error>)
      requires Working() && PlainText(first) && PlainText(second) && first != PodMonitor && second != PodMonitor
               && first != second
      requires InOrder(world.pass, first) && InOrder(world.pass, second)
      modifies this`world, this`log, this`calls
      ensures mint == old(mint)
      ensures Staged(old(world), {first} + {second}, err)
      ensures err.None? && Generates(mint.spec, first) ==> Put(first) in world.notes
      ensures err.None? && Generates(mint.spec, second) ==> Put(second) in world.notes
    {
      err := ApplyGenerated(first);
      if err.Some? {
        AppliedFails(setup, Quiet(), Origin(), old(world), world, {first}, {first} + {second});
        return;
      }
      ghost var before := world;
      err := ApplyGenerated(second);
      AppliedThen(setup, Quiet(), Origin(), old(world), before, world, {first}, {second}, err.Some?);
    }

    /** Draws from the random source, which may fail; the number names the draw. */
    method Draw() returns (ok: bool, n: nat)
      requires Valid()
      modifies this`calls
      ensures Valid() && (Quiet() ==> ok)
    {
      var fate := Fate();
      ok, n := fate.None?, calls;
      calls := calls + 1;
    }

    /** Looks for a Secret, and notes it when it is there. */
    method SeeSecret(name: string) returns (r: Result<Secret>)
      requires Working()
      modifies this`world, this`log, this`calls
      ensures mint == old(mint)
      ensures Went(old(world), {}) && world.pass == old(world).pass
      ensures r.Ok? ==> name in world.secrets && world.secrets[name] == r.value && SawSecret(name) in world.notes
      ensures Quiet() ==> SameCluster(world, old(world))
      ensures Quiet() ==> r == if name in old(world).secrets then Ok(old(world).secrets[name]) else Err(NotFound)
    {
      r := GetSecret(name);
      GoesOn(old(world), {});
      if r.Ok? {
        ghost var before := world;
        Take(SawSecret(name));
        BetweenAfterWait(setup, Quiet(), old(world), before, world, {});
        GoesOn(old(world), {});
      }
    }

    /** Creates a Secret unless there is one by now; either way it is there, and noted. */
    method CreateIfAbsent(name: string, owner: Option<nat>, data: map<string, string>) returns (err: Option<Error>)
      requires Working() && CreateAllowed(setup, world.pass.value, name, owner, data)
      requires Quiet() && name !in world.secrets ==> Made(setup, world.pass.value.mint.spec, name, data)
      modifies this`world, this`log, this`calls
      ensures mint == old(mint)
      ensures Went(old(world), {}) && world.pass == old(world).pass
      ensures err.None? ==> name in world.secrets && SawSecret(name) in world.notes
      ensures Quiet() ==> err.None?
    {
      err := CreateSecret(name, owner, data);
      GoesOn(old(world), {});
      if err == Some(AlreadyExists) {
        err := None;
      }
      if err.None? {
        ghost var before := world;
        Take(SawSecret(name));
        BetweenAfterWait(setup, Quiet(), old(world), before, world, {});
        GoesOn(old(world), {});
      }
    }

    method GeneratePhrase(n: nat) returns (phrase: string)
      requires Valid()
      ensures phrase != "" && setup.phrase(phrase)
    {
      ghost var indices;
      var drawn := seq<Mnemonic.Byte>(Mnemonic.ENTROPY_BYTES, entropy(n));
      phrase, indices := Mnemonic.GenerateMnemonic(table, drawn, checksum);
    }

    method CreateMnemonicSecret() returns (err: Option<Error>)
      requires Working() && WantsMnemonic(mint.spec)
      modifies this`world, this`log, this`calls
      ensures mint == old(mint)
      ensures Went(old(world), {}) && world.pass == old(world).pass
      ensures err.None? ==> Env.MnemonicSecretName(setup.name) in world.secrets
                            && SawSecret(Env.MnemonicSecretName(setup.name)) in world.notes
      ensures Quiet() ==> err.None?
    {
      var ok, n := Draw();
      BetweenSelf(setup, Quiet(), world, {});
      if !ok {
        return Some(Other);
      }
      var phrase := GeneratePhrase(n);
      PhraseIsAllowed(setup, world.pass.value, phrase);
      err := CreateIfAbsent(Env.MnemonicSecretName(setup.name), Some(mint.uid), PhraseData(phrase));
    }

    /** The mnemonic Secret holds a BIP-39 phrase, unless it is a TLS bundle that a spec gave its name. */
    ghost predicate HasPhrase()
      reads this
    {
      var n := Env.MnemonicSecretName(setup.name);
      n in world.secrets && (MnemonicData(setup, world.secrets[n].data) || Bundle(world.secrets[n].data))
    }

    lemma PhraseIsThere()
      requires Valid() && Env.MnemonicSecretName(setup.name) in world.secrets
      ensures HasPhrase()
    {
      RunsToKeepsInv(setup, start, log, world);
      assert Shaped(setup, Env.MnemonicSecretName(setup.name), world.secrets[Env.MnemonicSecretName(setup.name)]);
    }

    method ReconcileOptionalMnemonic() returns (err: Option<Error>)
      requires Working()
      modifies this`world, this`log, this`calls
      ensures mint == old(mint)
      ensures Went(old(world), {}) && world.pass == old(world).pass
      ensures err.None? && WantsMnemonic(mint.spec) ==>
              Env.MnemonicSecretName(setup.name) in world.secrets
              && SawSecret(Env.MnemonicSecretName(setup.name)) in world.notes && HasPhrase()
      ensures err.None? && mint.spec.mintInfo.autoGenerateMnemonic && mint.spec.mintInfo.mnemonicSecretRef.None? ==>
                setup.name + "-mnemonic" in world.secrets
      ensures Quiet() ==> err.None?
      ensures Quiet() && (WantsMnemonic(mint.spec) ==> Env.MnemonicSecretName(setup.name) in old(world).secrets) ==>
              SameCluster(world, old(world))
    {
      BetweenSelf(setup, Quiet(), world, {});
      if !mint.spec.mintInfo.autoGenerateMnemonic || mint.spec.mintInfo.mnemonicSecretRef.Some? {
        return None;
      }
      var existing := SeeSecret(Env.MnemonicSecretName(setup.name));
      ghost var before := world;
      if existing.Ok? {
        PhraseIsThere();
        return None;
      }
      if existing.error != NotFound {
        return Some(existing.error);
      }
      err := CreateMnemonicSecret();
      BetweenAfterWait(setup, Quiet(), old(world), before, world, {});
      if err.None? {
        PhraseIsThere();
      }
    }

    method CreatePostgresSecret() returns (err: Option<Error>)
      requires Working() && AutoProvision(mint.spec)
      modifies this`world, this`log, this`calls
      ensures mint == old(mint)
      ensures Went(old(world), {}) && world.pass == old(world).pass
      ensures err.None? ==> PostgresSecretName(setup.name) in world.secrets
                            && SawSecret(PostgresSecretName(setup.name)) in world.notes
      ensures Quiet() ==> err.None?
    {
      var ok, n := Draw();
      BetweenSelf(setup, Quiet(), world, {});
      if !ok {
        return Some(Other);
      }
      var password, _ := Credentials.GenerateSecurePassword(Credentials.PASSWORD_LENGTH, entropy(n));
      err := CreateIfAbsent(PostgresSecretName(setup.name), None, CredentialData(setup, password));
    }

    method EnsurePostgresSecret() returns (err: Option<Error>)
      requires Working() && AutoProvision(mint.spec)
      modifies this`world, this`log, this`calls
      ensures mint == old(mint)
      ensures Went(old(world), {}) && world.pass == old(world).pass
      ensures err.None? ==> PostgresSecretName(setup.name) in world.secrets
                            && SawSecret(PostgresSecretName(setup.name)) in world.notes
      ensures Quiet() ==> err.None?
      ensures Quiet() && PostgresSecretName(setup.name) in old(world).secrets ==> SameCluster(world, old(world))
      ensures err.None? ==> setup.name + "-postgres-secret" in world.secrets
    {
      var existing := SeeSecret(PostgresSecretName(setup.name));
      ghost var before := world;
      if existing.Ok? {
        return None;
      }
      if existing.error != NotFound {
        return Some(existing.error);
      }
      err := CreatePostgresSecret();
      BetweenAfterWait(setup, Quiet(), old(world), before, world, {});
    }

    /** The postgres Secret, then the Service and StatefulSet. */
    method ReconcilePostgreSQL() returns (err: Option<Error>)
      requires Working() && AutoProvision(mint.spec)
      modifies this`world, this`log, this`calls
      ensures mint == old(mint)
      ensures Went(old(world), POSTGRES) && world.pass == old(world).pass
      ensures err.None? ==> Placed(world, Origin(), POSTGRES)
      ensures err.None? && AutoProvision(mint.spec) ==> SawSecret(PostgresSecretName(setup.name)) in world.notes
      ensures Quiet() ==> err.None? && PostgresSecretName(setup.name) in world.secrets
      ensures Quiet() && Placed(old(world), Origin(), POSTGRES) && PostgresSecretName(setup.name) in old(world).secrets
        ==> SameCluster(world, old(world))
    {
      err := EnsurePostgresSecret();
      if err.Some? {
        BetweenWider(setup, Quiet(), old(world), world, {}, POSTGRES);
        return;
      }
      ghost var before := world;
      InOrderMeansConfigFirst(world.pass, PostgresService);
      InOrderMeansConfigFirst(world.pass, PostgresStatefulSet);
      err := ApplyTwo(PostgresService, PostgresStatefulSet);
      BetweenAfterWait(setup, Quiet(), old(world), before, world, POSTGRES);
      if Quiet() && Placed(old(world), Origin(), POSTGRES) && PostgresSecretName(setup.name) in old(world).secrets {
        PlacedElsewhere(old(world), before, Origin(), POSTGRES);
      }
    }

    method ReconcileOptionalPostgreSQL() returns (err: Option<Error>, ghost up: bool)
      requires Working()
      modifies this`world, this`log, this`calls, this`mint
      ensures Went(old(world), POSTGRES) && world.pass == old(world).pass
      ensures err.None? ==> Placed(world, Origin(), POSTGRES)
      ensures err.None? && AutoProvision(mint.spec) ==> SawSecret(PostgresSecretName(setup.name)) in world.notes
      ensures mint.status == if err.None? then AfterPostgres(old(mint).status, Origin(), up) else old(mint).status
      ensures err.None? && mint.spec.database.postgres.Some? && mint.spec.database.postgres.value.autoProvision ==>
                Gets(world, Origin(), {PostgresService, PostgresStatefulSet})
                && (up <==> world.statefulSet == Counts(1, 1, 1))
      ensures Quiet() ==> err.None? && up == IsReady(old(world).statefulSet, 1)
      ensures Quiet() && AutoProvision(mint.spec) ==> PostgresSecretName(setup.name) in world.secrets
      ensures Quiet() && Placed(old(world), Origin(), POSTGRES)
              && (AutoProvision(mint.spec) ==> PostgresSecretName(setup.name) in old(world).secrets)
        ==> SameCluster(world, old(world))
    {
      up := IsReady(world.statefulSet, 1);
      if mint.spec.database.postgres.None? || !mint.spec.database.postgres.value.autoProvision {
        BetweenSelf(setup, Quiet(), world, POSTGRES);
        NothingToPlace(world, Origin(), POSTGRES);
        return None, up;
      }
      err := ReconcilePostgreSQL();
      if err.Some? {
        return;
      }
      PlacedDatabase(world, Origin(), POSTGRES);
      up := IsReady(world.statefulSet, 1);
      if IsReady(world.statefulSet, 1) {
        mint := mint.(status := SetCondition(mint.status, DatabaseReady, true, mint.generation, "PostgreSQLReady"));
      } else {
        mint := mint.(status := SetCondition(mint.status, DatabaseReady, false, mint.generation, "PostgreSQLNotReady"));
      }
    }

    method ReconcileOptionalBackup() returns (err: Option<Error>)
      requires Working()
      modifies this`world, this`log, this`calls, this`mint
      ensures Staged(old(world), {BackupCronJob}, err)
      ensures mint.status == if err.None? then AfterBackup(old(mint).status, Origin()) else old(mint).status
    {
      if mint.spec.backup.None? || !mint.spec.backup.value.enabled {
        NothingToPlace(world, Origin(), {BackupCronJob});
        AppliedNothing(setup, Quiet(), Origin(), world, {BackupCronJob});
        return None;
      }
      InOrderMeansConfigFirst(world.pass, BackupCronJob);
      err := ApplyGenerated(BackupCronJob);
      if err.Some? {
        return;
      }
      if !Generates(mint.spec, BackupCronJob) {
        mint := mint.(status := SetCondition(mint.status, BackupReady, false, mint.generation, "BackupNotReconciled"));
      } else {
        mint := mint.(status := SetCondition(mint.status, BackupReady, true, mint.generation, "BackupScheduleReady"));
      }
    }

    method CreateTLSSecret() returns (err: Option<Error>)
      requires Working() && ManagementTLSOn(mint.spec)
      requires Quiet() ==> MnemonicIn(setup, world, Origin()) && PostgresIn(setup, world, Origin())
      modifies this`world, this`log, this`calls
      ensures mint == old(mint)
      ensures Went(old(world), {}) && world.pass == old(world).pass
      ensures err.None? ==> ManagementTLSSecretName(mint.spec, setup.name) in world.secrets
                            && SawSecret(ManagementTLSSecretName(mint.spec, setup.name)) in world.notes
      ensures Quiet() ==> err.None?
    {
      var ok, n := Draw();
      BetweenSelf(setup, Quiet(), world, {});
      if !ok {
        return Some(Other);
      }
      err := CreateIfAbsent(ManagementTLSSecretName(mint.spec, setup.name), Some(mint.uid), bundles(n));
    }

    method ReconcileManagementRPCTLSSecret() returns (err: Option<Error>)
      requires Working()
      requires Quiet() ==> MnemonicIn(setup, world, Origin()) && PostgresIn(setup, world, Origin())
      modifies this`world, this`log, this`calls
      ensures mint == old(mint)
      ensures Went(old(world), {}) && world.pass == old(world).pass
      ensures err.None? && ManagementTLSOn(mint.spec) ==>
              ManagementTLSSecretName(mint.spec, setup.name) in world.secrets
              && SawSecret(ManagementTLSSecretName(mint.spec, setup.name)) in world.notes
      ensures err.None? && mint.spec.managementRPC.Some? && mint.spec.managementRPC.value.enabled
              && ((mint.spec.orchard.Some? && mint.spec.orchard.value.enabled)
                  || mint.spec.managementRPC.value.tlsSecretName.Some?) ==>
                var given := mint.spec.managementRPC.value.tlsSecretName;
                (if given.Some? && given.value != "" then given.value else setup.name + "-management-rpc-tls")
                in world.secrets
      ensures Quiet() ==> err.None?
      ensures Quiet() && (ManagementTLSOn(mint.spec) ==>
              ManagementTLSSecretName(mint.spec, setup.name) in old(world).secrets) ==>
              SameCluster(world, old(world))
    {
      BetweenSelf(setup, Quiet(), world, {});
      if !ManagementTLSOn(mint.spec) {
        return None;
      }
      var existing := SeeSecret(ManagementTLSSecretName(mint.spec, setup.name));
      ghost var before := world;
      if existing.Ok? {
        return None;
      }
      if existing.error != NotFound {
        return Some(existing.error);
      }
      err := CreateTLSSecret();
      BetweenAfterWait(setup, Quiet(), old(world), before, world, {});
    }

    method ReconcilePVC() returns (err: Option<Error>)
      requires Working() && world.pass.value.config.Some?
      modifies this`world, this`log, this`calls
      ensures mint == old(mint)
      ensures Staged(old(world), CLAIMS, err)
      ensures err.None? ==> ClaimNotes(mint.spec) <= world.notes
    {
      if !NeedsPVCReconciliation(mint.spec) {
        GatesOpenForSomething(mint.spec);
        NothingToPlace(world, Origin(), CLAIMS);
        AppliedNothing(setup, Quiet(), Origin(), world, CLAIMS);
        return None;
      }
      InOrderMeansConfigFirst(world.pass, MintPVC);
      InOrderMeansConfigFirst(world.pass, OrchardPVC);
      err := ApplyTwo(MintPVC, OrchardPVC);
    }

    method ReconcileService() returns (err: Option<Error>)
      requires Working() && world.pass.value.config.Some?
      modifies this`world, this`log, this`calls
      ensures mint == old(mint)
      ensures Staged(old(world), SERVICES, err)
    {
      InOrderMeansConfigFirst(world.pass, MintService);
      InOrderMeansConfigFirst(world.pass, OrchardServiceKind);
      err := ApplyTwo(MintService, OrchardServiceKind);
    }

    method ReconcilePodMonitor() returns (err: Option<Error>)
      requires Working() && world.pass.value.config.Some?
      modifies this`world, this`log, this`calls
      ensures mint == old(mint)
      ensures Staged(old(world), {PodMonitor}, err)
    {
      if mint.spec.prometheus.None? || !mint.spec.prometheus.value.enabled {
        err := DeletePodMonitorObject();
        GoesOn(old(world), {PodMonitor});
        if err == Some(NotFound) || err == Some(NoMatch) {
          err := None;
        }
        MonitorGone(setup, Quiet(), Origin(), old(world), world, err.Some?);
        return;
      }
      InOrderMeansConfigFirst(world.pass, PodMonitor);
      GeneratedMayBeApplied(setup, world, Origin(), PodMonitor);
      err := ApplyResource(PodMonitor, Obj(mint.uid, mint.spec, ""));
      GoesOn(old(world), {PodMonitor});
      AppliedOne(setup, Quiet(), Origin(), old(world), world, PodMonitor, err.Some?);
    }

    method ReconcileCertificates() returns (err: Option<Error>)
      requires Working() && world.pass.value.config.Some?
      modifies this`world, this`log, this`calls
      ensures mint == old(mint)
      ensures Staged(old(world), CERTIFICATES, err)
    {
      if !NeedsCertificateReconciliation(mint.spec) {
        GatesOpenForSomething(mint.spec);
        NothingToPlace(world, Origin(), CERTIFICATES);
        AppliedNothing(setup, Quiet(), Origin(), world, CERTIFICATES);
        return None;
      }
      InOrderMeansConfigFirst(world.pass, MintCertificate);
      InOrderMeansConfigFirst(world.pass, OrchardCertificate);
      err := ApplyTwo(MintCertificate, OrchardCertificate);
    }

    method ReconcileIngress() returns (err: Option<Error>)
      requires Working() && world.pass.value.config.Some?
      modifies this`world, this`log, this`calls
      ensures mint == old(mint)
      ensures Staged(old(world), INGRESSES, err)
    {
      InOrderMeansConfigFirst(world.pass, MintIngressKind);
      InOrderMeansConfigFirst(world.pass, OrchardIngressKind);
      err := ApplyTwo(MintIngressKind, OrchardIngressKind);
    }

    method ReconcileOptionalIngressResources() returns (err: Option<Error>)
      requires Working() && world.pass.value.config.Some?
      modifies this`world, this`log, this`calls
      ensures mint == old(mint)
      ensures Staged(old(world), INGRESSES + CERTIFICATES, err)
    {
      if !NeedsIngressReconciliation(mint.spec) {
        NoIngressNoCertificate(mint.spec);
        NothingToPlace(world, Origin(), INGRESSES + CERTIFICATES);
        AppliedNothing(setup, Quiet(), Origin(), world, INGRESSES + CERTIFICATES);
        return None;
      }
      err := ReconcileIngress();
      if err.Some? {
        AppliedFails(setup, Quiet(), Origin(), old(world), world, INGRESSES, INGRESSES + CERTIFICATES);
        return;
      }
      ghost var before := world;
      err := ReconcileCertificates();
      AppliedThen(setup, Quiet(), Origin(), old(world), before, world, INGRESSES, CERTIFICATES, err.Some?);
    }

    // ---------------------------------------------------------------- config.toml and the Deployment

    /** A key of a Secret the user named: an error unless both names are given, the Secret and the key are
        there and the value is not empty. */
    method ResolveRequiredSecretValue(ref: SecretKey) returns (r: Result<string>)
      requires Working()
      modifies this`world, this`log, this`calls
      ensures mint == old(mint)
      ensures Went(old(world), {}) && world.pass == old(world).pass
      ensures r.Ok? ==> RefReady(world, ref) && r.value == RefValue(world, ref) && ReadKey(ref, r.value) in world.notes
      ensures r.Ok? ==> ref.name in world.secrets && ref.key in world.secrets[ref.name].data
                        && r.value == world.secrets[ref.name].data[ref.key] && r.value != ""
      ensures Quiet() ==> SameCluster(world, old(world)) && (r.Ok? <==> RefReady(old(world), ref))
      ensures ref.name == "" || ref.key == "" ==> r.Err? && world == old(world)
    {
      if ref.name == "" || ref.key == "" {
        BetweenSelf(setup, Quiet(), world, {});
        return Err(Other);
      }
      var secret := GetSecret(ref.name);
      GoesOn(old(world), {});
      if secret.Err? {
        return Err(secret.error);
      }
      if ref.key !in secret.value.data || secret.value.data[ref.key] == "" {
        return Err(Other);
      }
      ghost var before := world;
      Take(ReadKey(ref, secret.value.data[ref.key]));
      BetweenAfterWait(setup, Quiet(), old(world), before, world, {});
      GoesOn(old(world), {});
      return Ok(secret.value.data[ref.key]);
    }

    method ResolvePassword() returns (err: Option<Error>, password: string)
      requires Working()
      modifies this`world, this`log, this`calls
      ensures mint == old(mint)
      ensures Went(old(world), {}) && world.pass == old(world).pass
      ensures err.None? ==> password == ConfigPassword(setup, world, mint.spec)
      ensures err.None? && ProvisionedConfig(mint.spec) ==>
              password != "" && Held(setup, world, PostgresSecretName(setup.name))
      ensures Quiet() ==> world == old(world)
      ensures Quiet() && ProvisionedConfig(mint.spec) ==> (err.None? <==> Password(setup, world) != "")
      ensures !ProvisionedConfig(mint.spec) ==> err.None?
    {
      BetweenSelf(setup, Quiet(), world, {});
      if !(mint.spec.database.engine == ENGINE_POSTGRES && mint.spec.database.postgres.Some?
         && mint.spec.database.postgres.value.autoProvision) {
        return None, "";
      }
      var secret := GetSecret(PostgresSecretName(setup.name));
      GoesOn(old(world), {});
      if secret.Err? {
        return Some(secret.error), "";
      }
      if "password" !in secret.value.data || secret.value.data["password"] == "" {
        return Some(Other), "";
      }
      RunsToKeepsInv(setup, start, log, world);
      PasswordUnowned(setup, world);
      return None, secret.value.data["password"];
    }

    method ResolveURL() returns (err: Option<Error>, url: string)
      requires Working()
      modifies this`world, this`log, this`calls
      ensures mint == old(mint)
      ensures Went(old(world), {}) && world.pass == old(world).pass
      ensures err.None? && NeedsURL(mint.spec) ==>
              url != "" && ReadKey(mint.spec.database.postgres.value.urlSecretRef.value, url) in world.notes
      ensures err.None? && !NeedsURL(mint.spec) ==> url == ""
      ensures Quiet() ==> SameCluster(world, old(world))
      ensures Quiet() ==> (err.None? <==> MainKeyReady(world, mint.spec))
      ensures Quiet() && err.None? ==> url == MainURLIn(world, mint.spec)
    {
      var s := mint.spec;
      if s.database.engine == ENGINE_POSTGRES && s.database.postgres.Some? && !s.database.postgres.value.autoProvision
         && s.database.postgres.value.urlSecretRef.Some? {
        var r := ResolveRequiredSecretValue(s.database.postgres.value.urlSecretRef.value);
        return if r.Ok? then None else Some(r.error), if r.Ok? then r.value else "";
      }
      BetweenSelf(setup, Quiet(), world, {});
      return None, "";
    }

    method ResolveAuthURL() returns (err: Option<Error>, url: string)
      requires Working()
      modifies this`world, this`log, this`calls
      ensures mint == old(mint)
      ensures Went(old(world), {}) && world.pass == old(world).pass
      ensures err.None? && NeedsAuthURL(mint.spec) ==>
              url != "" && ReadKey(mint.spec.auth.value.postgres.value.urlSecretRef.value, url) in world.notes
      ensures err.None? && !NeedsAuthURL(mint.spec) ==> url == ""
      ensures Quiet() ==> SameCluster(world, old(world))
      ensures Quiet() ==> (err.None? <==> AuthKeyReady(world, mint.spec))
      ensures Quiet() && err.None? ==> url == AuthURLIn(world, mint.spec)
    {
      var s := mint.spec;
      if s.auth.Some? && s.auth.value.enabled && s.auth.value.postgres.Some?
         && s.auth.value.postgres.value.urlSecretRef.Some? {
        var r := ResolveRequiredSecretValue(s.auth.value.postgres.value.urlSecretRef.value);
        return if r.Ok? then None else Some(r.error), if r.Ok? then r.value else "";
      }
      BetweenSelf(setup, Quiet(), world, {});
      return None, "";
    }

    /** Every credential config.toml needs, or an error before anything is written. */
    method ResolveCredentials() returns (err: Option<Error>, password: string, url: string, authURL: string)
      requires Working()
      modifies this`world, this`log, this`calls
      ensures mint == old(mint)
      ensures Went(old(world), {}) && world.pass == old(world).pass
      ensures err.None? ==> password == ConfigPassword(setup, world, mint.spec)
      ensures err.None? ==> URLsRead(world.notes, mint.spec, url, authURL)
      ensures err.None? && ProvisionedConfig(mint.spec) ==>
              password != "" && Held(setup, world, PostgresSecretName(setup.name))
      ensures Quiet() ==> SameCluster(world, old(world))
      ensures Quiet() ==> (err.None? <==> CredentialsReady(setup, world, mint.spec))
      ensures Quiet() && err.None? ==> url == MainURLIn(world, mint.spec) && authURL == AuthURLIn(world, mint.spec)
    {
      url, authURL := "", "";
      err, password := ResolvePassword();
      if err.Some? {
        return;
      }
      ghost var first := world;
      err, url := ResolveURL();
      BetweenAfterWait(setup, Quiet(), old(world), first, world, {});
      if err.Some? {
        return;
      }
      ghost var second := world;
      err, authURL := ResolveAuthURL();
      BetweenAfterWait(setup, Quiet(), old(world), second, world, {});
      PasswordStays(setup, mint.spec, first, second, world);
    }

    method ApplyResolvedConfig(password: string, url: string, authURL: string) returns (err: Option<Error>)
      requires Working() && password == ConfigPassword(setup, world, mint.spec)
      requires URLsRead(world.notes, mint.spec, url, authURL)
      requires ProvisionedConfig(mint.spec) ==> password != "" && Held(setup, world, PostgresSecretName(setup.name))
      modifies this`world, this`log, this`calls
      ensures mint == old(mint)
      ensures Went(old(world), {ConfigMap})
      ensures err.None? ==> ConfigHeld(world, Origin()) && PlacedOne(world, Origin(), ConfigMap)
      ensures err.None? ==>
              world.objs[ConfigMap].text
              == setup.render(Resolve(mint.spec, url, authURL), ConfigPassword(setup, world, mint.spec))
      ensures Quiet() ==> err.None?
      ensures Quiet() ==> SameCluster(world, old(world).(objs := old(world).objs[ConfigMap :=
                Obj(mint.uid, mint.spec, setup.render(Resolve(mint.spec, url, authURL), password))]))
    {
      var text := setup.render(Resolve(mint.spec, url, authURL), password);
      err := ApplyConfigMap(Obj(mint.uid, mint.spec, text), url, authURL);
      GoesOn(old(world), {ConfigMap});
      PasswordKept(setup, mint.spec, old(world), world, {ConfigMap});
      PlacedMeansInPlace(world, Origin(), ConfigMap);
    }

    /** The file of this Reconcile is made with what was read in it for the two urls and with the password
        of the moment. */
    method ReconcileConfigFile() returns (err: Option<Error>, ghost url: string, ghost authURL: string)
      requires Working()
      modifies this`world, this`log, this`calls
      ensures mint == old(mint)
      ensures Went(old(world), {ConfigMap})
      ensures err.None? ==> ConfigHeld(world, Origin()) && PlacedOne(world, Origin(), ConfigMap)
      ensures err.None? ==> URLsRead(world.notes, mint.spec, url, authURL)
      ensures err.None? ==>
              world.objs[ConfigMap].text
              == setup.render(Resolve(mint.spec, url, authURL), ConfigPassword(setup, world, mint.spec))
      ensures Quiet() ==> (err.None? <==> CredentialsReady(setup, old(world), mint.spec))
      ensures Quiet() ==>
                SameCluster(world, if err.None? then WithConfig(setup, old(world), Origin()) else old(world))
    {
      var password, main, auth;
      err, password, main, auth := ResolveCredentials();
      url, authURL := main, auth;
      if err.Some? {
        BetweenWider(setup, Quiet(), old(world), world, {}, {ConfigMap});
        return;
      }
      ghost var before := world;
      if Quiet() {
        ReadElsewhere(setup, old(world), before, Origin());
      }
      err := ApplyResolvedConfig(password, main, auth);
      BetweenAfterWait(setup, Quiet(), old(world), before, world, {ConfigMap});
      assert Quiet() ==> SameCluster(world, WithConfig(setup, before, Origin()));
    }

    method ReconcileConfigMap() returns (err: Option<Error>, ghost url: string, ghost authURL: string)
      requires Working()
      modifies this`world, this`log, this`calls, this`mint
      ensures Went(old(world), {ConfigMap})
      ensures err.None? ==> ConfigHeld(world, Origin()) && PlacedOne(world, Origin(), ConfigMap)
      ensures err.None? ==> URLsRead(world.notes, mint.spec, url, authURL)
      ensures err.None? ==>
              world.objs[ConfigMap].text
              == setup.render(Resolve(mint.spec, url, authURL), ConfigPassword(setup, world, mint.spec))
      ensures mint.status == if err.None? then AfterConfig(old(mint).status, Origin()) else old(mint).status
      ensures Quiet() ==> (err.None? <==> CredentialsReady(setup, old(world), mint.spec))
      ensures Quiet() ==>
                SameCluster(world, if err.None? then WithConfig(setup, old(world), Origin()) else old(world))
    {
      err, url, authURL := ReconcileConfigFile();
      if err.None? {
        mint := mint.(status := SetCondition(mint.status, ConfigValid, true, mint.generation, "ConfigurationValid"));
      }
    }

    method ReconcileDeployment() returns (err: Option<Error>)
      requires Working() && ConfigHeld(world, Origin()) && RolloutNotes(setup, mint.spec) <= world.notes
      modifies this`world, this`log, this`calls
      ensures mint == old(mint)
      ensures Went(old(world), {Deployment}) && world.pass == old(world).pass && ConfigHeld(world, Origin())
      ensures err.None? ==> PlacedOne(world, Origin(), Deployment) && Hashed(setup, world, Origin())
      ensures Quiet() ==> err.None? && SameCluster(world, WithHashedDeployment(setup, old(world), Origin()))
    {
      var configMap := GetObj(ConfigMap);
      GoesOn(old(world), {});
      ConfigHeldStays(setup, Origin(), old(world), world, {});
      BetweenWider(setup, Quiet(), old(world), world, {}, {Deployment});
      if configMap.Err? {
        return Some(configMap.error);
      }
      ghost var before := world;
      DeploymentMayBeApplied(setup, world, Origin());
      err := ApplyResource(Deployment, Obj(mint.uid, mint.spec, setup.hash(configMap.value.text)));
      GoesOn(before, {Deployment});
      ConfigHeldStays(setup, Origin(), before, world, {Deployment});
      BetweenAfterWait(setup, Quiet(), old(world), before, world, {Deployment});
      PlacedMeansInPlace(world, Origin(), Deployment);
    }

    // ---------------------------------------------------------------- the parts of a pass

    method ReconcileSupplies() returns (err: Option<Error>, ghost up: bool)
      requires Working()
      modifies this`world, this`log, this`calls, this`mint
      ensures Working() && Origin() == old(Origin())
      ensures Supplied(setup, Quiet(), Origin(), old(world), world, err.Some?)
      ensures mint.status == if err.None? then AfterPostgres(old(mint).status, Origin(), up) else old(mint).status
      ensures Quiet() ==> up == IsReady(old(world).statefulSet, 1)
    {
      up := IsReady(world.statefulSet, 1);
      err := ReconcileOptionalMnemonic();
      if err.Some? {
        BetweenWider(setup, Quiet(), old(world), world, {}, POSTGRES);
        return;
      }
      ghost var before := world;
      err, up := ReconcileOptionalPostgreSQL();
      SuppliesMade(setup, Quiet(), Origin(), old(world), before, world, err.Some?);
    }

    /** The mnemonic, postgres and the backup. */
    method ReconcilePrerequisites() returns (err: Option<Error>, ghost up: bool)
      requires Working()
      modifies this`world, this`log, this`calls, this`mint
      ensures Working() && Origin() == old(Origin())
      ensures FirstPart(setup, Quiet(), Origin(), old(world), world, err.Some?)
      ensures err.None? ==> SupplyNotes(setup, mint.spec) <= world.notes
      ensures err.None? && Quiet() ==> MnemonicIn(setup, world, Origin()) && PostgresIn(setup, world, Origin())
      ensures err.None? ==> DraftedFirst(old(mint).status, Origin(), up, mint.status)
      ensures mint.status.observedGeneration == old(mint).status.observedGeneration
      ensures Quiet() ==> up == IsReady(old(world).statefulSet, 1)
    {
      err, up := ReconcileSupplies();
      if err.Some? {
        FirstPartFails(setup, Quiet(), Origin(), old(world), world);
        return;
      }
      ghost var before := world;
      err := ReconcileOptionalBackup();
      FirstPartDone(setup, Quiet(), Origin(), old(world), before, world, err.Some?);
      if Quiet() {
        SecretsGrow(setup, before, world, Origin());
      }
      FirstMeansStatus(old(mint).status, Origin(), up, mint.status);
    }

    method ReconcileServiceAndMonitor() returns (err: Option<Error>)
      requires Working() && world.pass.value.config.Some?
      modifies this`world, this`log, this`calls
      ensures mint == old(mint)
      ensures Staged(old(world), SERVICES + {PodMonitor}, err)
    {
      err := ReconcileService();
      if err.Some? {
        AppliedFails(setup, Quiet(), Origin(), old(world), world, SERVICES, SERVICES + {PodMonitor});
        return;
      }
      ghost var before := world;
      err := ReconcilePodMonitor();
      AppliedThen(setup, Quiet(), Origin(), old(world), before, world, SERVICES, {PodMonitor}, err.Some?);
    }

    /** A stage that includes the Deployment. */
    ghost predicate RolledOut(w: World, ks: set<Kind>, err: Option<Error>)
      reads this
      requires w.pass.Some?
    {
      Working() && Origin() == w.pass.value.mint && Rolled(setup, Quiet(), Origin(), w, world, ks, err.Some?)
    }

    method ReconcileDeploymentAndServices() returns (err: Option<Error>)
      requires Working() && ConfigHeld(world, Origin()) && RolloutNotes(setup, mint.spec) <= world.notes
      modifies this`world, this`log, this`calls
      ensures mint == old(mint)
      ensures RolledOut(old(world), {Deployment} + (SERVICES + {PodMonitor}), err)
    {
      err := ReconcileDeployment();
      RolledOne(setup, Quiet(), Origin(), old(world), world, err.Some?);
      if err.Some? {
        RolledFails(setup, Quiet(), Origin(), old(world), world, {Deployment},
            {Deployment} + (SERVICES + {PodMonitor}));
        return;
      }
      ghost var before := world;
      err := ReconcileServiceAndMonitor();
      RolledAfter(setup, Quiet(), Origin(), old(world), before, world, {Deployment}, SERVICES + {PodMonitor},
          err.Some?);
    }

    /** The core resources after config.toml. */
    method ReconcileRollout() returns (err: Option<Error>)
      requires Working() && ConfigHeld(world, Origin())
      requires SupplyNotes(setup, mint.spec) <= world.notes && BundleNotes(setup, mint.spec) <= world.notes
      modifies this`world, this`log, this`calls
      ensures mint == old(mint)
      ensures RolledOut(old(world), ROLLOUT, err)
    {
      err := ReconcilePVC();
      if err.Some? {
        RolledFails(setup, Quiet(), Origin(), old(world), world, CLAIMS, ROLLOUT);
        return;
      }
      ConfigHeldStays(setup, Origin(), old(world), world, CLAIMS);
      ghost var before := world;
      err := ReconcileDeploymentAndServices();
      RolledBefore(setup, Quiet(), Origin(), old(world), before, world, CLAIMS,
          {Deployment} + (SERVICES + {PodMonitor}), err.Some?);
    }

    method ReconcileRolloutAndIngress() returns (err: Option<Error>)
      requires Working() && ConfigHeld(world, Origin())
      requires SupplyNotes(setup, mint.spec) <= world.notes && BundleNotes(setup, mint.spec) <= world.notes
      modifies this`world, this`log, this`calls
      ensures mint == old(mint)
      ensures RolledOut(old(world), LATE, err)
    {
      err := ReconcileRollout();
      if err.Some? {
        RolledFails(setup, Quiet(), Origin(), old(world), world, ROLLOUT, LATE);
        return;
      }
      ghost var before := world;
      err := ReconcileOptionalIngressResources();
      RolloutThenIngress(setup, Quiet(), Origin(), old(world), before, world, err.Some?);
    }

    /** The management TLS bundle and config.toml. */
    method ReconcileConfiguration() returns (err: Option<Error>)
      requires Working()
      requires Quiet() ==> MnemonicIn(setup, world, Origin()) && PostgresIn(setup, world, Origin())
      modifies this`world, this`log, this`calls, this`mint
      ensures Working() && Origin() == old(Origin())
      ensures SecondPart(setup, Quiet(), Origin(), old(world), world, err.Some?)
      ensures err.None? ==> ConfigHeld(world, Origin()) && BundleNotes(setup, mint.spec) <= world.notes
      ensures old(world).notes <= world.notes
      ensures mint.status == if err.None? then AfterConfig(old(mint).status, Origin()) else old(mint).status
      ensures mint.status.observedGeneration == old(mint).status.observedGeneration
    {
      err := ReconcileManagementRPCTLSSecret();
      if err.Some? {
        BetweenWider(setup, Quiet(), old(world), world, {}, {ConfigMap});
        SecondPartMeansConfigured(setup, Quiet(), Origin(), old(world), world, true);
        return;
      }
      ghost var before := world;
      ghost var url, authURL;
      err, url, authURL := ReconcileConfigMap();
      BetweenAfterWait(setup, Quiet(), old(world), before, world, {ConfigMap});
      if Quiet() && err.None? {
        ConfigurationDone(setup, Origin(), old(world), before, world);
      } else if Quiet() {
        ConfigurationStops(setup, Origin(), old(world), before, world);
      }
      SecondPartMeansConfigured(setup, Quiet(), Origin(), old(world), world, err.Some?);
    }

    // ---------------------------------------------------------------- a pass

    method TransitionReconciliationPhase()
      modifies this`mint
      ensures mint == old(mint).(status := Transition(old(mint).status, old(mint).generation))
      ensures var st := old(mint).status;
              if st.observedGeneration != 0 && st.observedGeneration != mint.generation then
                mint == old(mint).(status := st.(phase := Updating,
                    conditions := st.conditions[ReadyCondition := Condition(false, mint.generation, "Updating")]))
              else if st.phase == Pending then
                mint == old(mint).(status := st.(phase := Provisioning,
                    conditions := st.conditions[ReadyCondition := Condition(false, mint.generation, "Provisioning")]))
              else mint == old(mint)
    {
      if mint.status.phase == Pending {
        mint := mint.(status := SetCondition(mint.status.(phase := Provisioning), ReadyCondition, false,
            mint.generation, "Provisioning"));
      }
      if mint.status.observedGeneration != 0 && mint.status.observedGeneration != mint.generation {
        mint := mint.(status := SetCondition(mint.status.(phase := Updating), ReadyCondition, false, mint.generation,
            "Updating"));
      }
    }

    /** Reads the Deployment, which cannot be missing: it was applied in this pass. */
    method SeeDeployment() returns (r: Result<Obj>)
      requires Working() && Placed(world, Origin(), ALL_KINDS)
      modifies this`world, this`log, this`calls
      ensures mint == old(mint)
      ensures Working() && Origin() == old(Origin()) && Placed(world, Origin(), ALL_KINDS)
      ensures if r.Ok? then Deployment in world.objs && world.objs[Deployment] == r.value else r.error != NotFound
      ensures Quiet() ==> r.Ok? && world == old(world)
    {
      r := GetObj(Deployment);
      GoesOn(old(world), {});
      PlacedStays(setup, Origin(), old(world), world, {}, ALL_KINDS);
      PlacedMeansInPlace(world, Origin(), Deployment);
    }

    method RememberReady()
      requires Working() && Placed(world, Origin(), ALL_KINDS) && DeploymentReady(world)
      modifies this`world, this`log
      ensures mint == old(mint)
      ensures Working() && Origin() == old(Origin()) && Placed(world, Origin(), ALL_KINDS)
      ensures world.pass.value.ready && SameCluster(old(world), world)
    {
      SawReadySteady(setup, world);
      Do(SawReady);
      PassStays(setup, old(Origin()), old(world), world, {});
      PlacedStays(setup, old(Origin()), old(world), world, {}, ALL_KINDS);
    }

    method UpdateDeploymentReadiness() returns (err: Option<Error>, ghost ready: bool)
      requires Working() && Placed(world, Origin(), ALL_KINDS)
      modifies this`world, this`log, this`calls, this`mint
      ensures Working() && Origin() == old(Origin()) && Placed(world, Origin(), ALL_KINDS)
      ensures mint.status == if err.None? then AfterReadiness(old(mint).status, Origin(), ready) else old(mint).status
      ensures err.None? && ready ==> world.pass.value.ready
      ensures var n := if mint.spec.replicas.Some? then mint.spec.replicas.value else 1;
              err.None? ==>
                (ready <==> world.deployment.ready == world.deployment.updated == world.deployment.available == n)
      ensures Quiet() ==> err.None? && SameCluster(old(world), world) && ready == DeploymentReady(world)
    {
      var deployment := SeeDeployment();
      ReadyMeansReplicas(world, Origin());
      ready := DeploymentReady(world);
      if deployment.Err? {
        return Some(deployment.error), ready;
      }
      if IsReady(world.deployment, GetOr(deployment.value.spec.replicas, 1)) {
        RememberReady();
        mint := mint.(status := SetCondition(mint.status.(phase := Ready), ReadyCondition, true, mint.generation,
            "ReconciliationComplete"));
      } else {
        mint := mint.(status := SetCondition(mint.status, ReadyCondition, false, mint.generation,
            "DeploymentNotReady"));
      }
      return None, ready;
    }

    /** All stages in order; the first error ends the pass. */
    method ReconcileStages() returns (err: Option<Error>, ghost up: bool)
      requires Working()
      modifies this`world, this`log, this`calls, this`mint
      ensures Working() && Origin() == old(Origin())
      ensures WholePass(setup, Quiet(), Origin(), old(world), world, err.Some?)
      ensures err.None? ==> Placed(world, Origin(), ALL_KINDS)
      ensures err.None? ==> DraftedAll(old(mint).status, Origin(), up, mint.status)
      ensures mint.status.observedGeneration == old(mint).status.observedGeneration
      ensures Quiet() ==> up == IsReady(old(world).statefulSet, 1)
    {
      err, up := ReconcilePrerequisites();
      if err.Some? {
        FirstFails(setup, Quiet(), Origin(), old(world), world);
        return;
      }
      ghost var first, draft := world, mint.status;
      err := ReconcileConfiguration();
      if err.Some? {
        SecondFails(setup, Quiet(), Origin(), old(world), first, world);
        return;
      }
      ghost var second := world;
      err := ReconcileRolloutAndIngress();
      PartsMakePass(setup, Quiet(), Origin(), old(world), first, second, world, err.Some?);
      StagesMade(old(mint).status, Origin(), up, draft, mint.status);
    }

    method ReconcileResources() returns (err: Option<Error>, ghost up: bool, ghost ready: bool)
      requires Working() && mint == Origin() && mint.status.phase != NoPhase
      modifies this`world, this`log, this`calls, this`mint
      ensures Working() && Origin() == old(Origin())
      ensures WholePass(setup, Quiet(), Origin(), old(world), world, err.Some?)
      ensures err.None? ==> mint.status == AfterPass(Origin(), up, ready) && (ready ==> world.pass.value.ready)
      ensures err.None? ==> Complete(world, Origin())
      ensures mint.status.observedGeneration == Origin().status.observedGeneration
      ensures Quiet() ==> up == IsReady(old(world).statefulSet, 1) && (err.None? ==> ready == DeploymentReady(world))
    {
      ready := false;
      TransitionReconciliationPhase();
      err, up := ReconcileStages();
      if err.Some? {
        return;
      }
      AllMeansStatus(Transition(old(mint).status, old(mint).generation), Origin(), up, mint.status);
      ghost var before := world;
      err, ready := UpdateDeploymentReadiness();
      LastLook(setup, Quiet(), Origin(), old(world), before, world, err.Some?);
      PlacedIsComplete(world, Origin());
    }

    /** reconcileResultForPhase */
    static function ResultForPhase(phase: Phase): Outcome {
      if phase == Updating || phase == Provisioning then Outcome(false, UPDATE_RECONCILE_INTERVAL, None)
      else Outcome(false, RECONCILE_INTERVAL, None)
    }

    method HandleError(err: Error) returns (o: Outcome)
      requires Working() && mint.status.observedGeneration == Origin().status.observedGeneration
      modifies this`world, this`log, this`calls, this`mint
      ensures Valid() && world.pass == old(world).pass
      ensures o == if err == Conflict then Outcome(false, 1, None)
                   else if err == NotFound then Outcome(false, 10_000, None)
                   else Outcome(false, 0, Some(err))
      ensures err == Conflict || err == NotFound ==> mint == old(mint) && world == old(world)
      ensures err != Conflict && err != NotFound ==>
              mint == old(mint).(status := AfterError(old(mint).status, old(mint)))
      ensures Quiet() && err != Conflict && err != NotFound && old(world).cr == Some(old(Origin())) ==>
                world == OpEffect(setup, old(world), WriteStatus(mint.version, mint.status))
    {
      if err == Conflict {
        return Outcome(false, 1, None);
      }
      if err == NotFound {
        return Outcome(false, NOT_READY_RETRY_INTERVAL, None);
      }
      var st := SetCondition(mint.status.(phase := Failed), ReadyCondition, false, mint.generation,
          "ReconciliationFailed");
      RunsToKeepsInv(setup, start, log, world);
      ErrorIsStep(Origin(), mint.status);
      var _ := UpdateStatus(mint.version, Origin(), st);
      mint := mint.(status := st);
      return Outcome(false, 0, Some(err));
    }

    // ---------------------------------------------------------------- the status that is stored

    method ObserveIngress(c: Mint) returns (ingress: Option<(bool, bool)>)
      requires Valid()
      modifies this`world, this`log, this`calls
      ensures Valid() && Steady(setup, old(world), world, {}) && world.pass == old(world).pass
      ensures ingress.Some? ==>
              MintIngressKind in world.objs && ingress.value == (world.addressed, TLSOf(world.objs[MintIngressKind]))
      ensures Quiet() ==> world == old(world) && ingress == SeenIn(world, c).ingress
    {
      SteadySelf(setup, world, {});
      ingress := None;
      if c.spec.ingress.Some? && c.spec.ingress.value.enabled {
        var found := GetObj(MintIngressKind);
        if found.Ok? {
          ingress := Some((world.addressed, TLSOf(found.value)));
        }
      }
    }

    /** The reads of updateStatus, each of them true of the store at its own moment; one that fails is
        passed over. */
    method Observe(c: Mint) returns (seen: Seen, ghost first: World, ghost second: World, ghost third: World)
      requires Valid()
      modifies this`world, this`log, this`calls
      ensures mint == old(mint)
      ensures Valid() && Steady(setup, old(world), first, {}) && Steady(setup, first, second, {})
      ensures Steady(setup, second, third, {}) && Steady(setup, third, world, {})
      ensures Steady(setup, old(world), world, {}) && world.pass == old(world).pass
      ensures seen.readyReplicas.Some? ==>
              Deployment in first.objs && seen.readyReplicas.value == first.deployment.ready
      ensures seen.service ==> MintService in second.objs
      ensures seen.ingress.Some? ==>
              MintIngressKind in third.objs
              && seen.ingress.value == (third.addressed, TLSOf(third.objs[MintIngressKind]))
      ensures seen.configMap ==> ConfigMap in world.objs
      ensures Quiet() ==> world == old(world) && seen == SeenIn(world, c)
    {
      var deployment := GetObj(Deployment);
      var readyReplicas := if deployment.Ok? then Some(world.deployment.ready) else None;
      first := world;
      var service := GetObj(MintService);
      SteadyAfterWait(setup, old(world), first, world, {});
      second := world;
      var ingress := ObserveIngress(c);
      SteadyAfterWait(setup, old(world), second, world, {});
      third := world;
      var configMap := GetObj(ConfigMap);
      SteadyAfterWait(setup, old(world), third, world, {});
      seen := Seen(readyReplicas, service.Ok?, ingress, configMap.Ok?);
    }

    /** Re-reads the CashuMint and writes the status this Reconcile worked out over it; a conflict is left
        to the next Reconcile. */
    method UpdateStatusFromCluster() returns (err: Option<Error>)
      requires Working() && Draft(Origin(), mint.status)
      requires ReadyTrue(mint.status) ==> mint.status.phase == Ready && world.pass.value.ready
      modifies this`world, this`log, this`calls
      ensures mint == old(mint)
      ensures Valid() && world.pass == old(world).pass && err != Some(Conflict)
      ensures Quiet() && old(world).cr.Some? ==>
                var c := old(world).cr.value;
                var st := Observed(mint.status, c, setup.name, SeenIn(old(world), c));
                err.None? && world == OpEffect(setup, old(world), WriteStatus(c.version, st))
    {
      var current := GetMint();
      PassStays(setup, Origin(), old(world), world, {});
      if current.Err? {
        return Some(current.error);
      }
      RunsToKeepsInv(setup, start, log, world);
      var c := current.value;
      ghost var before := world;
      ghost var first, second, third;
      var seen: Seen;
      seen, first, second, third := Observe(c);
      ContinuesOn(setup, c, before, world, {});
      var st := Observed(mint.status, c, setup.name, seen);
      ObservedIsStep(Origin(), c, mint.status, setup.name, seen);
      ObservedKeeps(mint.status, c, setup.name, seen);
      err := UpdateStatus(c.version, c, st);
      if err == Some(Conflict) {
        return None;
      }
    }

    // ---------------------------------------------------------------- Reconcile

    /** The first read, with which a Reconcile begins. */
    method FetchMint() returns (r: Result<Mint>)
      requires Valid()
      modifies this`world, this`log, this`calls
      ensures mint == old(mint)
      ensures Valid()
      ensures r.Ok? ==> world.cr == Some(r.value) && world.pass == Some(Pass(r.value, None, false)) && Inv(setup, world)
      ensures r == Err(NotFound) ==> world.cr.None?
      ensures Quiet() ==> SameCluster(old(world), world)
      ensures Quiet() ==> r == if world.cr.Some? then Ok(world.cr.value) else Err(NotFound)
    {
      r := GetMint();
      if r.Ok? {
        Do(Began(r.value));
        RunsToKeepsInv(setup, start, log, world);
      }
    }

    /** The end of a pass in which every stage succeeded; the mint is looked at again in half a minute while
        it changes and in five minutes otherwise. */
    method StoreStatus() returns (o: Outcome)
      requires Working() && Draft(Origin(), mint.status)
      requires ReadyTrue(mint.status) ==> mint.status.phase == Ready && world.pass.value.ready
      modifies this`world, this`log, this`calls
      ensures mint == old(mint)
      ensures Valid() && world.pass == old(world).pass
      ensures o == ResultForPhase(mint.status.phase) || (o.err.Some? && o.err != Some(Conflict))
      ensures o.err.None? && (mint.status.phase == Updating || mint.status.phase == Provisioning) ==> o.after == 30_000
      ensures o.err.None? && mint.status.phase != Updating && mint.status.phase != Provisioning ==> o.after == 300_000
      ensures Quiet() && old(world).cr.Some? ==>
                var c := old(world).cr.value;
                var st := Observed(mint.status, c, setup.name, SeenIn(old(world), c));
                o == ResultForPhase(st.phase) && world == OpEffect(setup, old(world), WriteStatus(c.version, st))
    {
      o := ResultForPhase(mint.status.phase);
      if Quiet() && world.cr.Some? {
        ObservedKeeps(mint.status, world.cr.value, setup.name, SeenIn(world, world.cr.value));
      }
      var err := UpdateStatusFromCluster();
      if err.Some? {
        return Outcome(false, 0, err);
      }
    }

    /** The main part of Reconcile, for a mint with a finalizer and a phase. */
    method FullPass() returns (o: Outcome)
      requires Working() && mint == Origin() && mint.status.phase != NoPhase && StatusSound(mint)
      modifies this`world, this`log, this`calls, this`mint
      ensures Valid() && world.pass.Some? && world.pass.value.mint == old(Origin())
      ensures o.err.Some? || o.after > 0
      ensures Quiet() && old(world).cr == Some(old(mint)) ==> Finished(old(world), o)
    {
      var err, up, ready := ReconcileResources();
      ghost var before := world;
      if Quiet() {
        PassKeepsMint(setup, old(mint), old(world), before, err.Some?);
      }
      if err.Some? {
        o := HandleError(err.value);
        if Quiet() && old(world).cr == Some(old(mint)) {
          PassFails(old(mint), old(world), before, mint.status, o);
        }
        return;
      }
      PassDrafts(old(mint), up, ready);
      o := StoreStatus();
      if Quiet() && old(world).cr == Some(old(mint)) {
        PassFinishes(old(mint), old(world), before, up, ready, o);
      }
    }

    /** The mint that was there is there, with its first status written. */
    ghost predicate Started(w: World)
      reads this
      requires w.cr.Some?
    {
      && world.cr.Some? && world.cr.value.uid == w.cr.value.uid && world.cr.value.spec == w.cr.value.spec
      && !world.cr.value.deleting && Remaining(world) == 0
    }

    /** What an undisturbed pass and its status write make of `w`: the store comes to rest exactly if the
        credentials can be had, and where they cannot, a further pass will not have them either. */
    ghost predicate Finished(w: World, o: Outcome)
      reads this
      requires w.cr.Some?
    {
      var spec := w.cr.value.spec;
      && Started(w)
      && (AtRest(setup, world) <==> Willing(setup, w, spec))
      && (Willing(setup, world, spec) <==> Willing(setup, w, spec))
      && (Willing(setup, w, spec) ==> o == ResultForPhase(world.cr.value.status.phase))
      && (!Willing(setup, w, spec) ==> o.err.Some? || 0 < o.after <= NOT_READY_RETRY_INTERVAL)
      && (AtRest(setup, w) ==> SameCluster(w, world))
    }

    lemma PassFails(m: Mint, w0: World, w1: World, st: Status, o: Outcome)
      requires w0.cr == Some(m) && m.finalizer && !m.deleting && m.status.phase != NoPhase
               && WholePass(setup, true, m, w0, w1, true)
      requires o.err.Some? || 0 < o.after <= NOT_READY_RETRY_INTERVAL
      requires world == w1 || (st.phase != NoPhase && world == OpEffect(setup, w1, WriteStatus(m.version, st)))
      ensures Finished(w0, o)
    {
      WholePassMeansPassed(setup, true, m, w0, w1, true);
      NothingMoreComes(setup, w1, m);
    }

    lemma PassFinishes(m: Mint, w0: World, w1: World, up: bool, ready: bool, o: Outcome)
      requires w0.cr == Some(m) && m.finalizer && !m.deleting && m.status.phase != NoPhase
               && WholePass(setup, true, m, w0, w1, false)
      requires up == IsReady(w0.statefulSet, 1) && ready == DeploymentReady(w1)
      requires var st := Observed(AfterPass(m, up, ready), m, setup.name, SeenIn(w1, m));
               o == ResultForPhase(st.phase) && world == OpEffect(setup, w1, WriteStatus(m.version, st))
      ensures Finished(w0, o)
    {
      WholePassMeansPassed(setup, true, m, w0, w1, false);
      PassComesToRest(setup, m, w0, w1, up, ready);
      NothingMoreComes(setup, w1, m);
      if AtRest(setup, w0) {
        PassStaysAtRest(setup, m, w0, w1, up, ready);
      }
    }

    /** The write of the phase Pending. */
    method InitializeStatus() returns (o: Outcome)
      requires Working() && mint == Origin() && mint.status.phase == NoPhase && StatusSound(mint)
      modifies this`world, this`log, this`calls, this`mint
      ensures Valid() && world.pass == old(world).pass
      ensures o.err.Some? || o.requeue
      ensures Quiet() && old(world).cr == Some(old(mint)) ==>
                o == Outcome(true, 0, None)
                && world == OpEffect(setup, old(world),
                    WriteStatus(old(mint).version, old(mint).status.(phase := Pending)))
    {
      var st := mint.status.(phase := Pending);
      var err := UpdateStatus(mint.version, Origin(), st);
      mint := mint.(status := st);
      return if err.Some? then Outcome(false, 0, err) else Outcome(true, 0, None);
    }

    /** Reconcile after the first read. */
    method Proceed() returns (o: Outcome)
      requires Valid() && Inv(setup, world) && world.cr == Some(mint) && world.pass == Some(Pass(mint, None, false))
      modifies this
      ensures Valid() && world.pass.Some? && world.pass.value.mint == old(mint)
      ensures !old(mint).deleting ==> o.err.Some? || o.requeue || o.after > 0
      ensures old(mint).deleting && old(mint).finalizer && o.err.None? ==>
                world.cr.None? && (AutoProvision(old(mint).spec) ==> PostgresSecretName(setup.name) !in world.secrets)
      ensures Quiet() ==> Alone(old(world), o)
    {
      if mint.deleting {
        o := HandleDeletion();
        return;
      }
      if !mint.finalizer {
        var err := AddFinalizer();
        return if err.Some? then Outcome(false, 0, err) else Outcome(true, 0, None);
      }
      if mint.status.phase == NoPhase {
        o := InitializeStatus();
        return;
      }
      o := FullPass();
    }

    /** One call by the work queue. `read` is the CashuMint it found. */
    method Reconcile() returns (o: Outcome, ghost read: Option<Mint>)
      requires Valid()
      modifies this
      ensures Valid()
      ensures read.Some? ==> world.pass.Some? && world.pass.value.mint == read.value
      ensures read.None? && o.err.None? ==> world.cr.None?
      ensures read.Some? && !read.value.deleting ==> o.err.Some? || o.requeue || o.after > 0
      ensures read.Some? && read.value.deleting && read.value.finalizer && o.err.None? ==>
                world.cr.None? && (AutoProvision(read.value.spec) ==> PostgresSecretName(setup.name) !in world.secrets)
      ensures Quiet() && old(world).cr.Some? ==> read == old(world).cr && Alone(old(world), o)
    {
      var r := FetchMint();
      if r.Err? {
        return if r.error == NotFound then Outcome(false, 0, None) else Outcome(false, 0, Some(r.error)), None;
      }
      mint := r.value;
      read := Some(r.value);
      ghost var begun := world;
      o := Proceed();
      if Quiet() && old(world).cr.Some? {
        AloneFrom(old(world), begun, o);
      }
    }

    /** Beginning changes nothing but the operator's memory. */
    lemma AloneFrom(w: World, begun: World, o: Outcome)
      requires w.cr.Some? && begun.cr.Some? && SameCluster(w, begun) && Alone(begun, o)
      ensures Alone(w, o)
    {
      var m := w.cr.value;
      if m.deleting {
      } else if !m.finalizer {
        MintWriteElsewhere(setup, w, begun, OpAction.AddFinalizer(m.version));
      } else if m.status.phase == NoPhase {
        MintWriteElsewhere(setup, w, begun, WriteStatus(m.version, m.status.(phase := Pending)));
      } else {
        FinishedFrom(w, begun, o);
      }
    }

    lemma FinishedFrom(w: World, begun: World, o: Outcome)
      requires w.cr.Some? && begun.cr.Some? && SameCluster(w, begun) && Finished(begun, o)
      ensures Finished(w, o)
    {
      if AtRest(setup, w) {
        RestElsewhere(setup, w, begun);
      }
    }

    /** What a Reconcile that nobody disturbs makes of `w`. */
    ghost predicate Alone(w: World, o: Outcome)
      reads this
      requires w.cr.Some?
    {
      var m := w.cr.value;
      if m.deleting then
        o == Outcome(false, 0, None)
        && (m.finalizer ==>
            world.cr.None? && (AutoProvision(m.spec) ==> PostgresSecretName(setup.name) !in world.secrets))
      else if !m.finalizer then
        o == Outcome(true, 0, None) && SameCluster(world, OpEffect(setup, w, OpAction.AddFinalizer(m.version)))
      else if m.status.phase == NoPhase then
        o == Outcome(true, 0, None) && SameCluster(world,
            OpEffect(setup, w, WriteStatus(m.version, m.status.(phase := Pending))))
      else
        Finished(w, o)
    }

    /** How many calls a mint is away from its first full pass. */
    static function Remaining(w: World): nat {
      if w.cr.None? then 0 else if !w.cr.value.finalizer then 2 else if w.cr.value.status.phase == NoPhase then 1 else 0
    }

    /** One more call brings a mint nearer to rest, or as far as it can get. */
    lemma OneCallNearer(w: World, o: Outcome)
      requires w.cr.Some? && !w.cr.value.deleting && Alone(w, o)
      ensures world.cr.Some? && world.cr.value.spec == w.cr.value.spec && !world.cr.value.deleting
      ensures Willing(setup, world, w.cr.value.spec) <==> Willing(setup, w, w.cr.value.spec)
      ensures if Remaining(w) > 0 then Remaining(world) < Remaining(w)
              else Remaining(world) == 0 && (AtRest(setup, world) <==> Willing(setup, w, w.cr.value.spec))
    {}

    /** The work queue on its own: from any state of a mint that is not being deleted, after any number of
        calls from three on, everything is in place exactly if its credentials could be had at the start. */
    method Converge(count: nat)
      requires Valid() && Quiet() && world.cr.Some? && !world.cr.value.deleting
      modifies this
      ensures Valid()
      ensures count >= 3 ==> (AtRest(setup, world) <==> Reconcilable(setup, old(world)))
    {
      RunsToKeepsInv(setup, start, log, world);
      ReconcilableIsWilling(setup, world);
      ghost var spec := world.cr.value.spec;
      ghost var willing := Willing(setup, world, spec);
      for i := 0 to count
        invariant Valid() && world.cr.Some? && world.cr.value.spec == spec && !world.cr.value.deleting
        invariant Willing(setup, world, spec) <==> willing
        invariant Remaining(world) + i <= 2 || (Remaining(world) == 0 && (AtRest(setup, world) <==> willing))
      {
        ghost var before := world;
        ghost var o, read;
        o, read := Reconcile();
        OneCallNearer(before, o);
      }
    }

    /** At rest a further call changes no object, no Secret and no field of the CashuMint. */
    method ReconcileAtRest() returns (o: Outcome)
      requires Valid() && Quiet() && AtRest(setup, world)
      modifies this
      ensures Valid() && SameCluster(old(world), world) && o.err.None?
    {
      ghost var read;
      o, read := Reconcile();
    }
  }

  function Blank(): Spec {
    Spec("", None, MintInfo("", "", 0, None, false, "", "", "", "", "", "", "", "", "", None, None, None),
         Database("", None, None), PaymentBackend(None, None, None, None, None, None, None, None, None),
         None, None, None, None, None, None, None, None, None, None, None, None, None)
  }
}
