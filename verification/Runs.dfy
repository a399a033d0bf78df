/** What holds in every run: any interleaving of Reconciles, failed and half-failed API calls, spec
    edits, deletions and re-creations, and pod restarts. */
module Runs {
  import opened Options
  import opened MintTypes
  import opened Plan
  import opened Cluster
  import Env

  // ---------------------------------------------------------------- invariants of the store

  predicate Clocked(w: World) {
    && (w.cr.Some? ==> w.cr.value.uid < w.clock && w.cr.value.version < w.clock)
    && (w.pass.Some? ==> w.pass.value.mint.uid < w.clock && w.pass.value.mint.version < w.clock)
    && SecretsClocked(w)
  }

  predicate SecretsClocked(w: World) {
    && (forall n | n in w.secrets :: w.secrets[n].uid < w.clock)
    && (!w.pod.NoPod? ==> w.pod.secret < w.clock)
  }

  /** A CashuMint whose version is the one the operator read is the CashuMint it read. */
  predicate Remembered(w: World) {
    w.cr.Some? && w.pass.Some? && w.cr.value.version == w.pass.value.mint.version ==> w.cr.value == w.pass.value.mint
  }

  predicate StatusSound(m: Mint) {
    && (ReadyTrue(m.status) ==> m.status.phase == Ready)
    && (m.status.phase == Updating ==> m.status.observedGeneration != 0)
    && m.status.observedGeneration <= m.generation
  }

  /** The stored status, and the one in the operator's copy. */
  predicate StatusesSound(w: World) {
    (w.cr.Some? ==> StatusSound(w.cr.value)) && (w.pass.Some? ==> StatusSound(w.pass.value.mint))
  }

  /** The data directory agrees with the Secret it was last set up from, if that is still there. */
  predicate DiskSound(e: Setup, w: World) {
    var n := PostgresSecretName(e.name);
    !w.pod.NoPod? && w.disk.Some? && n in w.secrets && w.secrets[n].uid == w.pod.secret ==>
        w.disk.value == Password(e, w)
  }

  /** A postgres or mnemonic Secret is what the operator makes under that name: the credentials, or, where
      a spec calls the management TLS Secret that, a TLS bundle. Only the postgres credentials have no owner,
      so that they survive their CashuMint. */
  predicate Shaped(e: Setup, name: string, s: Secret) {
    && (name == PostgresSecretName(e.name) ==>
        if s.owner.None? then PostgresData(e, s.data) else Bundle(s.data))
    && (name == Env.MnemonicSecretName(e.name) ==> s.owner.Some? && (MnemonicData(e, s.data) || Bundle(s.data)))
  }

  predicate SecretsShaped(e: Setup, w: World) {
    forall n | n in w.secrets :: Shaped(e, n, w.secrets[n])
  }

  /** While the operator may create and apply, the mint it works on is there. */
  predicate PassLive(w: World) {
    w.pass.Some? && Building(w.pass.value.mint) ==>
      w.cr.Some? && w.cr.value.uid == w.pass.value.mint.uid && w.cr.value.finalizer
  }

  predicate NotesSound(w: World) {
    w.pass.None? ==> w.notes == {}
  }

  predicate Inv(e: Setup, w: World) {
    && Clocked(w) && Remembered(w) && StatusesSound(w) && DiskSound(e, w)
    && SecretsShaped(e, w) && PassLive(w) && NotesSound(w)
  }

  lemma PasswordUnowned(e: Setup, w: World)
    requires SecretsShaped(e, w)
    ensures var n := PostgresSecretName(e.name);
            n in w.secrets && "password" in w.secrets[n].data ==> w.secrets[n].owner.None?
  {}

  lemma EnvKeepsSecretClock(e: Setup, w: World, a: EnvAction)
    requires SecretsClocked(w)
    ensures SecretsClocked(EnvEffect(e, w, a))
  {}

  lemma EnvKeepsClock(e: Setup, w: World, a: EnvAction)
    requires Clocked(w)
    ensures Clocked(EnvEffect(e, w, a))
  {
    EnvKeepsSecretClock(e, w, a);
  }

  lemma EnvKeepsMemory(e: Setup, w: World, a: EnvAction)
    requires Clocked(w) && Remembered(w)
    ensures Remembered(EnvEffect(e, w, a))
  {}

  lemma EnvKeepsStatus(e: Setup, w: World, a: EnvAction)
    requires StatusesSound(w)
    ensures StatusesSound(EnvEffect(e, w, a))
  {}

  lemma EnvKeepsDisk(e: Setup, w: World, a: EnvAction)
    requires SecretsClocked(w) && DiskSound(e, w)
    ensures DiskSound(e, EnvEffect(e, w, a))
  {}

  lemma OpKeepsClock(e: Setup, w: World, a: OpAction)
    requires Inv(e, w) && Allowed(e, w, a)
    ensures Clocked(OpEffect(e, w, a)) && Remembered(OpEffect(e, w, a))
  {}

  lemma OpKeepsStatus(e: Setup, w: World, a: OpAction)
    requires Inv(e, w) && Allowed(e, w, a)
    ensures StatusesSound(OpEffect(e, w, a))
  {}

  lemma OpKeepsDisk(e: Setup, w: World, a: OpAction)
    requires Inv(e, w) && Allowed(e, w, a)
    ensures DiskSound(e, OpEffect(e, w, a))
  {}

  lemma EnvKeepsShape(e: Setup, w: World, a: EnvAction)
    requires SecretsShaped(e, w)
    ensures SecretsShaped(e, EnvEffect(e, w, a))
  {}

  lemma OpKeepsShape(e: Setup, w: World, a: OpAction)
    requires SecretsShaped(e, w) && Allowed(e, w, a)
    ensures SecretsShaped(e, OpEffect(e, w, a))
  {
    NamesDiffer(e);
  }

  lemma EnvKeepsPass(e: Setup, w: World, a: EnvAction)
    requires PassLive(w) && NotesSound(w)
    ensures PassLive(EnvEffect(e, w, a)) && NotesSound(EnvEffect(e, w, a))
  {}

  lemma OpKeepsPass(e: Setup, w: World, a: OpAction)
    requires PassLive(w) && NotesSound(w) && Allowed(e, w, a)
    ensures PassLive(OpEffect(e, w, a)) && NotesSound(OpEffect(e, w, a))
  {}

  lemma StepKeepsInv(e: Setup, w: World, a: Action)
    requires Inv(e, w) && StepAllowed(e, w, a)
    ensures Inv(e, Effect(e, w, a))
  {
    if a.Env? {
      EnvKeepsClock(e, w, a.env);
      EnvKeepsMemory(e, w, a.env);
      EnvKeepsStatus(e, w, a.env);
      EnvKeepsDisk(e, w, a.env);
      EnvKeepsShape(e, w, a.env);
      EnvKeepsPass(e, w, a.env);
    } else {
      OpKeepsClock(e, w, a.op);
      OpKeepsStatus(e, w, a.op);
      OpKeepsDisk(e, w, a.op);
      OpKeepsShape(e, w, a.op);
      OpKeepsPass(e, w, a.op);
    }
  }

  lemma {:induction false} InvHolds(e: Setup, w: World, log: seq<Action>)
    requires Inv(e, w) && Good(e, w, log)
    ensures Inv(e, Run(e, w, log))
  {
    if log != [] {
      var front := log[..|log| - 1];
      InvHolds(e, w, front);
      StepKeepsInv(e, Run(e, w, front), log[|log| - 1]);
    }
  }

  /** The state after the first n steps. */
  function At(e: Setup, w: World, log: seq<Action>, n: nat): World
    requires n <= |log|
  {
    Run(e, w, log[..n])
  }

  lemma StepAt(e: Setup, w: World, log: seq<Action>, n: nat)
    requires Inv(e, w) && Good(e, w, log) && n < |log|
    ensures Inv(e, At(e, w, log, n)) && Inv(e, At(e, w, log, n + 1))
    ensures StepAllowed(e, At(e, w, log, n), log[n])
    ensures At(e, w, log, n + 1) == Effect(e, At(e, w, log, n), log[n])
  {
    GoodPrefix(e, w, log, n);
    GoodPrefix(e, w, log, n + 1);
    InvHolds(e, w, log[..n]);
    InvHolds(e, w, log[..n + 1]);
  }

  // ---------------------------------------------------------------- create-once secrets

  /** The names only the operator makes Secrets under, where the spec gives no other. */
  lemma OperatorSecretNames(e: Setup)
    ensures OperatorSecret(e, e.name + "-postgres-secret") && OperatorSecret(e, e.name + "-mnemonic")
    ensures OperatorSecret(e, e.name + "-management-rpc-tls")
  {}

  /** No step of the operator changes a Secret that exists, and the only one it ever deletes is the
      postgres Secret of a CashuMint whose deletion was requested. */
  lemma OperatorKeepsSecrets(e: Setup, w: World, a: OpAction, name: string)
    requires Allowed(e, w, a) && name in w.secrets
    ensures var w' := OpEffect(e, w, a);
            || (name in w'.secrets && w'.secrets[name] == w.secrets[name])
            || (name !in w'.secrets && name == e.name + "-postgres-secret" && w.cr.Some? && w.cr.value.deleting)
  {}

  predicate SameData(w: World, w': World, name: string) {
    name in w'.secrets && w'.secrets[name].uid < w.clock ==> name in w.secrets && w'.secrets[name] == w.secrets[name]
  }

  lemma EnvKeepsData(e: Setup, w: World, a: EnvAction, name: string)
    requires OperatorSecret(e, name)
    ensures SameData(w, EnvEffect(e, w, a), name)
  {}

  lemma OpKeepsData(e: Setup, w: World, a: OpAction, name: string)
    ensures SameData(w, OpEffect(e, w, a), name)
  {}

  /** In no step do the data behind a uid change. */
  lemma StepKeepsData(e: Setup, w: World, a: Action, name: string)
    requires OperatorSecret(e, name)
    ensures SameData(w, Effect(e, w, a), name)
  {
    if a.Env? {
      EnvKeepsData(e, w, a.env, name);
    } else {
      OpKeepsData(e, w, a.op, name);
    }
  }

  lemma DataNext(e: Setup, w: World, log: seq<Action>, n: nat, name: string)
    requires Inv(e, w) && Good(e, w, log) && n < |log| && OperatorSecret(e, name)
    ensures SameData(At(e, w, log, n), At(e, w, log, n + 1), name)
    ensures At(e, w, log, n).clock <= At(e, w, log, n + 1).clock
  {
    StepAt(e, w, log, n);
    StepKeepsData(e, At(e, w, log, n), log[n], name);
    StepClock(e, At(e, w, log, n), log[n]);
  }

  /** Over a whole run: a Secret of the operator that is still, or again, the one with this uid holds the
      data it was created with. */
  lemma {:induction false} SecretCreatedOnce(e: Setup, w: World, log: seq<Action>, i: nat, j: nat, name: string)
    requires Inv(e, w) && Good(e, w, log) && i <= j <= |log| && OperatorSecret(e, name)
    requires name in At(e, w, log, j).secrets && At(e, w, log, j).secrets[name].uid < At(e, w, log, i).clock
    ensures name in At(e, w, log, i).secrets && At(e, w, log, i).secrets[name] == At(e, w, log, j).secrets[name]
    ensures At(e, w, log, i).clock <= At(e, w, log, j).clock
    decreases j
  {
    if i < j {
      DataNext(e, w, log, j - 1, name);
      ClockGrows(e, w, log, i, j - 1);
      SecretCreatedOnce(e, w, log, i, j - 1, name);
    }
  }

  lemma {:induction false} ClockGrows(e: Setup, w: World, log: seq<Action>, i: nat, j: nat)
    requires Inv(e, w) && Good(e, w, log) && i <= j <= |log|
    ensures At(e, w, log, i).clock <= At(e, w, log, j).clock
    decreases j
  {
    if i < j {
      StepAt(e, w, log, j - 1);
      StepClock(e, At(e, w, log, j - 1), log[j - 1]);
      ClockGrows(e, w, log, i, j - 1);
    }
  }

  lemma StepClock(e: Setup, w: World, a: Action)
    ensures w.clock <= Effect(e, w, a).clock
  {}

  /** The Secret belongs to a mint that is there to stay: the postgres Secret, or one owned by it. */
  predicate Safe(e: Setup, w: World, name: string) {
    && w.cr.Some? && w.cr.value.finalizer && !w.cr.value.deleting && name in w.secrets && OperatorSecret(e, name)
    && (w.secrets[name].owner.None? || w.secrets[name].owner == Some(w.cr.value.uid))
  }

  /** The mint is still the same, and unless it was asked to go, so is the Secret. */
  predicate StaysSafe(w: World, w': World, name: string)
    requires w.cr.Some? && name in w.secrets
  {
    && w'.cr.Some? && w'.cr.value.uid == w.cr.value.uid && w'.cr.value.finalizer
    && (!w'.cr.value.deleting ==> name in w'.secrets && w'.secrets[name] == w.secrets[name])
  }

  lemma EnvKeepsSafe(e: Setup, w: World, a: EnvAction, name: string)
    requires Safe(e, w, name)
    ensures StaysSafe(w, EnvEffect(e, w, a), name)
  {}

  lemma OpKeepsSafe(e: Setup, w: World, a: OpAction, name: string)
    requires Inv(e, w) && Allowed(e, w, a) && Safe(e, w, name)
    ensures StaysSafe(w, OpEffect(e, w, a), name)
  {}

  lemma SafeNext(e: Setup, w: World, log: seq<Action>, n: nat, name: string)
    requires Inv(e, w) && Good(e, w, log) && n < |log| && Safe(e, At(e, w, log, n), name)
    ensures StaysSafe(At(e, w, log, n), At(e, w, log, n + 1), name)
  {
    StepAt(e, w, log, n);
    if log[n].Env? {
      EnvKeepsSafe(e, At(e, w, log, n), log[n].env, name);
    } else {
      OpKeepsSafe(e, At(e, w, log, n), log[n].op, name);
    }
  }

  predicate Asked(w: World) {
    w.cr.Some? && w.cr.value.deleting
  }

  // ---------------------------------------------------------------- finalizer safety

  /** The mint with its finalizer is gone. */
  predicate LosesFinalizer(w: World, w': World) {
    && w.cr.Some? && w.cr.value.finalizer
    && (w'.cr.None? || w'.cr.value.uid != w.cr.value.uid || !w'.cr.value.finalizer)
  }

  lemma EnvKeepsFinalizer(e: Setup, w: World, a: EnvAction)
    ensures !LosesFinalizer(w, EnvEffect(e, w, a))
  {}

  lemma OpKeepsFinalizer(e: Setup, w: World, a: OpAction)
    requires Inv(e, w) && Allowed(e, w, a) && LosesFinalizer(w, OpEffect(e, w, a))
    ensures a.RemoveFinalizer? && w.cr.value.deleting
    ensures AutoProvision(w.cr.value.spec) ==> PostgresSecretName(e.name) !in w.secrets
  {}

  /** Only the operator's own step takes the finalizer off, only from a mint that is being deleted, and
      only when the postgres Secret that its spec had provisioned is gone. */
  lemma FinalizerRemovedSafely(e: Setup, w: World, log: seq<Action>, i: nat)
    requires Inv(e, w) && Good(e, w, log) && i < |log| && LosesFinalizer(At(e, w, log, i), At(e, w, log, i + 1))
    ensures log[i].Op? && log[i].op.RemoveFinalizer?
    ensures At(e, w, log, i).cr.value.deleting
    ensures var database := At(e, w, log, i).cr.value.spec.database;
            database.postgres.Some? && database.postgres.value.autoProvision ==>
              e.name + "-postgres-secret" !in At(e, w, log, i).secrets
  {
    StepAt(e, w, log, i);
    if log[i].Env? {
      EnvKeepsFinalizer(e, At(e, w, log, i), log[i].env);
    } else {
      OpKeepsFinalizer(e, At(e, w, log, i), log[i].op);
    }
  }

  /** A Reconcile that found the deletion requested creates and applies nothing. */
  lemma NothingMadeForTheDeleted(e: Setup, w: World, a: OpAction)
    requires Allowed(e, w, a) && w.pass.Some? && w.pass.value.mint.deleting && !a.Began?
    ensures OpEffect(e, w, a).objs == w.objs
    ensures forall n | n in OpEffect(e, w, a).secrets :: n in w.secrets && OpEffect(e, w, a).secrets[n] == w.secrets[n]
  {}

  // ---------------------------------------------------------------- the status

  /** The same CashuMint, not one created later under the same name. */
  predicate SameMint(w: World, w': World) {
    w.cr.Some? && w'.cr.Some? && w.cr.value.uid == w'.cr.value.uid
  }

  /** The phase never goes back to empty or Pending, the observed generation never goes down, the
      generation never goes down and a requested deletion is never taken back. */
  predicate Forward(m: Mint, m': Mint) {
    && (m.status.phase != NoPhase ==> m'.status.phase != NoPhase)
    && (m.status.phase != NoPhase && m.status.phase != Pending ==> m'.status.phase != Pending)
    && m.status.observedGeneration <= m'.status.observedGeneration
    && m.generation <= m'.generation
    && (m.deleting ==> m'.deleting)
  }

  lemma ForwardThen(a: Mint, b: Mint, c: Mint)
    requires Forward(a, b) && Forward(b, c)
    ensures Forward(a, c)
  {}

  lemma EnvForward(e: Setup, w: World, a: EnvAction)
    requires Inv(e, w) && SameMint(w, EnvEffect(e, w, a))
    ensures Forward(w.cr.value, EnvEffect(e, w, a).cr.value)
  {}

  lemma OpForward(e: Setup, w: World, a: OpAction)
    requires Inv(e, w) && Allowed(e, w, a) && SameMint(w, OpEffect(e, w, a))
    ensures Forward(w.cr.value, OpEffect(e, w, a).cr.value)
  {}

  /** A uid that is gone does not come back. */
  predicate Gone(w: World, uid: nat) {
    uid < w.clock && (w.cr.None? || w.cr.value.uid != uid)
  }

  lemma EnvStaysGone(e: Setup, w: World, a: EnvAction, uid: nat)
    requires Gone(w, uid)
    ensures Gone(EnvEffect(e, w, a), uid)
  {}

  lemma OpStaysGone(e: Setup, w: World, a: OpAction, uid: nat)
    requires Gone(w, uid)
    ensures Gone(OpEffect(e, w, a), uid)
  {}

  lemma StaysGone(e: Setup, w: World, a: Action, uid: nat)
    requires Gone(w, uid)
    ensures Gone(Effect(e, w, a), uid)
  {
    if a.Env? {
      EnvStaysGone(e, w, a.env, uid);
    } else {
      OpStaysGone(e, w, a.op, uid);
    }
  }

  lemma {:induction false} GoneForGood(e: Setup, w: World, log: seq<Action>, i: nat, j: nat, uid: nat)
    requires Inv(e, w) && Good(e, w, log) && i <= j <= |log| && Gone(At(e, w, log, i), uid)
    ensures Gone(At(e, w, log, j), uid)
    decreases j
  {
    if i < j {
      GoneForGood(e, w, log, i, j - 1, uid);
      StepAt(e, w, log, j - 1);
      StaysGone(e, At(e, w, log, j - 1), log[j - 1], uid);
    }
  }

  lemma ForwardNext(e: Setup, w: World, log: seq<Action>, n: nat)
    requires Inv(e, w) && Good(e, w, log) && n < |log| && SameMint(At(e, w, log, n), At(e, w, log, n + 1))
    ensures Forward(At(e, w, log, n).cr.value, At(e, w, log, n + 1).cr.value)
  {
    StepAt(e, w, log, n);
    if log[n].Env? {
      EnvForward(e, At(e, w, log, n), log[n].env);
    } else {
      OpForward(e, At(e, w, log, n), log[n].op);
    }
  }

  lemma PresentBetween(e: Setup, w: World, log: seq<Action>, i: nat, k: nat, j: nat)
    requires Inv(e, w) && Good(e, w, log) && i <= k <= j <= |log| && SameMint(At(e, w, log, i), At(e, w, log, j))
    ensures SameMint(At(e, w, log, i), At(e, w, log, k)) && SameMint(At(e, w, log, k), At(e, w, log, j))
  {
    var uid := At(e, w, log, i).cr.value.uid;
    InvAt(e, w, log, i);
    InvAt(e, w, log, j);
    ClockGrows(e, w, log, i, k);
    if !SameMint(At(e, w, log, i), At(e, w, log, k)) {
      GoneForGood(e, w, log, k, j, uid);
    }
  }

  lemma InvAt(e: Setup, w: World, log: seq<Action>, n: nat)
    requires Inv(e, w) && Good(e, w, log) && n <= |log|
    ensures Inv(e, At(e, w, log, n))
  {
    GoodPrefix(e, w, log, n);
    InvHolds(e, w, log[..n]);
  }

  /** Between any two moments in the life of a CashuMint. */
  lemma {:induction false} StatusMovesForward(e: Setup, w: World, log: seq<Action>, i: nat, j: nat)
    requires Inv(e, w) && Good(e, w, log) && i <= j <= |log| && SameMint(At(e, w, log, i), At(e, w, log, j))
    ensures var m, m' := At(e, w, log, i).cr.value, At(e, w, log, j).cr.value;
            && Forward(m, m')
            && m.generation <= m'.generation && m.status.observedGeneration <= m'.status.observedGeneration
            && (m.deleting ==> m'.deleting)
            && (m.status.phase != NoPhase ==> m'.status.phase != NoPhase)
            && (m.status.phase != NoPhase && m.status.phase != Pending ==> m'.status.phase != Pending)
    decreases j
  {
    if i < j {
      PresentBetween(e, w, log, i, j - 1, j);
      StatusMovesForward(e, w, log, i, j - 1);
      ForwardNext(e, w, log, j - 1);
      ForwardThen(At(e, w, log, i).cr.value, At(e, w, log, j - 1).cr.value, At(e, w, log, j).cr.value);
    }
  }

  lemma NotAskedBefore(e: Setup, w: World, log: seq<Action>, i: nat, n: nat)
    requires Inv(e, w) && Good(e, w, log) && i <= n < |log| && SameMint(At(e, w, log, i), At(e, w, log, n + 1))
    requires !Asked(At(e, w, log, n + 1))
    ensures SameMint(At(e, w, log, i), At(e, w, log, n)) && !Asked(At(e, w, log, n))
  {
    PresentBetween(e, w, log, i, n, n + 1);
    NotAskedNext(e, w, log, n);
  }

  lemma NotAskedNext(e: Setup, w: World, log: seq<Action>, n: nat)
    requires Inv(e, w) && Good(e, w, log) && n < |log| && SameMint(At(e, w, log, n), At(e, w, log, n + 1))
    ensures Asked(At(e, w, log, n)) ==> Asked(At(e, w, log, n + 1))
  {
    ForwardNext(e, w, log, n);
  }

  /** The Secret is still there, as it was. */
  predicate SameSecret(w: World, w': World, name: string) {
    name in w.secrets && name in w'.secrets && w'.secrets[name] == w.secrets[name]
  }

  lemma SafeStep(e: Setup, w: World, log: seq<Action>, n: nat, name: string)
    requires Inv(e, w) && Good(e, w, log) && n < |log| && Safe(e, At(e, w, log, n), name)
             && !Asked(At(e, w, log, n + 1))
    ensures Safe(e, At(e, w, log, n + 1), name) && SameSecret(At(e, w, log, n), At(e, w, log, n + 1), name)
  {
    SafeNext(e, w, log, n, name);
  }

  lemma SameSecretThen(a: World, b: World, c: World, name: string)
    requires SameSecret(a, b, name) && SameSecret(b, c, name)
    ensures SameSecret(a, c, name)
  {}

  /** As long as a mint with a finalizer is not asked to go, its mnemonic, its postgres password and its
      management TLS bundle stay what they are, whatever fails and whatever is edited. */
  lemma {:induction false} CredentialsSurvive(e: Setup, w: World, log: seq<Action>, i: nat, j: nat, name: string)
    requires Inv(e, w) && Good(e, w, log) && i <= j <= |log| && Safe(e, At(e, w, log, i), name)
    requires SameMint(At(e, w, log, i), At(e, w, log, j)) && !Asked(At(e, w, log, j))
    ensures Safe(e, At(e, w, log, j), name)
    ensures SameSecret(At(e, w, log, i), At(e, w, log, j), name)
    ensures At(e, w, log, j).secrets[name] == At(e, w, log, i).secrets[name]
    decreases j
  {
    if i < j {
      NotAskedBefore(e, w, log, i, j - 1);
      CredentialsSurvive(e, w, log, i, j - 1, name);
      SafeStep(e, w, log, j - 1, name);
      SameSecretThen(At(e, w, log, i), At(e, w, log, j - 1), At(e, w, log, j), name);
    }
  }

  /** At every moment: Ready=True only in phase Ready, Updating only after a generation was observed, and
      never more observed than there is. */
  lemma StatusAlwaysSound(e: Setup, w: World, log: seq<Action>, n: nat)
    requires Inv(e, w) && Good(e, w, log) && n <= |log| && At(e, w, log, n).cr.Some?
    ensures var m := At(e, w, log, n).cr.value;
            && (ReadyCondition in m.status.conditions && m.status.conditions[ReadyCondition].status ==>
                  m.status.phase == Ready)
            && (m.status.phase == Updating ==> m.status.observedGeneration != 0)
            && m.status.observedGeneration <= m.generation
  {
    InvAt(e, w, log, n);
  }

  /** Step n wrote a status for this CashuMint that observes a generation. */
  predicate Observes(e: Setup, w: World, log: seq<Action>, n: nat, uid: nat) {
    && n < |log| && log[n].Op? && log[n].op.WriteStatus? && log[n].op.status.observedGeneration != 0
    && Matches(At(e, w, log, n), log[n].op.version) && At(e, w, log, n).cr.value.uid == uid
  }

  predicate FirstObserved(w: World, w': World) {
    && w'.cr.Some? && w'.cr.value.status.observedGeneration != 0
    && (!SameMint(w, w') || w.cr.value.status.observedGeneration == 0)
  }

  lemma EnvObservesNothing(e: Setup, w: World, a: EnvAction)
    requires Inv(e, w)
    ensures !FirstObserved(w, EnvEffect(e, w, a))
  {}

  lemma ObservedByWriting(e: Setup, w: World, a: OpAction)
    requires Inv(e, w) && Allowed(e, w, a) && FirstObserved(w, OpEffect(e, w, a))
    ensures SameMint(w, OpEffect(e, w, a)) && a.WriteStatus? && Matches(w, a.version)
    ensures a.status.observedGeneration != 0
  {}

  /** In a run that starts without the CashuMint, its status says Updating only after an earlier write of
      its status succeeded. */
  lemma {:induction false} UpdatingComesLater(e: Setup, w: World, log: seq<Action>) returns (n: nat)
    requires Inv(e, w) && Good(e, w, log) && w.cr.None?
    requires Run(e, w, log).cr.Some? && Run(e, w, log).cr.value.status.observedGeneration != 0
    ensures Observes(e, w, log, n, Run(e, w, log).cr.value.uid)
  {
    var last := |log| - 1;
    var before := At(e, w, log, last);
    assert log[..|log|] == log;
    StepAt(e, w, log, last);
    if SameMint(before, Run(e, w, log)) && before.cr.value.status.observedGeneration != 0 {
      n := UpdatingComesLater(e, w, log[..last]);
      ObservesLonger(e, w, log, last, n, before.cr.value.uid);
    } else {
      if log[last].Env? {
        EnvObservesNothing(e, before, log[last].env);
      } else {
        ObservedByWriting(e, before, log[last].op);
      }
      n := last;
    }
  }

  lemma ObservesLonger(e: Setup, w: World, log: seq<Action>, m: nat, n: nat, uid: nat)
    requires m <= |log| && Observes(e, w, log[..m], n, uid)
    ensures Observes(e, w, log, n, uid)
  {
    assert log[..m][..n] == log[..n];
  }
}
