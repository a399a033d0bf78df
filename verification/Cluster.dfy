/** The shared store a Reconcile runs against: one CashuMint under one name, its Secrets and objects,
    and what others do to them between two calls of the operator. API reads are linearizable, writes of
    the CashuMint are checked by resourceVersion, server-side apply overwrites. */
module Cluster {
  import opened Options
  import opened MintTypes
  import opened Plan
  import Credentials
  import Env
  import Mnemonic

  // ---------------------------------------------------------------- the CashuMint

  datatype Phase = NoPhase | Pending | Provisioning | Ready | Updating | Failed

  datatype ConditionType = ReadyCondition | DatabaseReady | ConfigValid | BackupReady | IngressReady

  datatype Condition = Condition(status: bool, generation: nat, reason: string)

  datatype Status = Status(
    phase: Phase,
    observedGeneration: nat,
    conditions: map<ConditionType, Condition>,
    readyReplicas: int,
    deployment: string,
    service: string,
    ingress: string,
    configMap: string,
    url: string)

  datatype Mint = Mint(uid: nat, spec: Spec, generation: nat, version: nat, finalizer: bool, deleting: bool,
                       status: Status)

  function NoStatus(): Status {
    Status(NoPhase, 0, map[], 0, "", "", "", "", "")
  }

  predicate ReadyTrue(st: Status) {
    ReadyCondition in st.conditions && st.conditions[ReadyCondition].status
  }

  // ---------------------------------------------------------------- everything else in the store

  datatype Secret = Secret(uid: nat, owner: Option<nat>, data: map<string, string>)

  /** An applied object: its owner, the spec it was generated from, and the text that is not a function
      of the spec, which is config.toml for the ConfigMap and its hash for the Deployment. */
  datatype Obj = Obj(owner: nat, spec: Spec, text: string)

  datatype Counts = Counts(ready: int, updated: int, available: int)

  /** The postgres pod: its init container has run, or its main container has been started, and the
      data directory was last set up from the Secret of this uid. */
  datatype PodState = NoPod | Initialised(secret: nat) | Running(secret: nat)

  /** What the operator remembers of the Reconcile it is in: the CashuMint it read, the config.toml it
      applied and whether it saw the Deployment ready. */
  datatype Pass = Pass(mint: Mint, config: Option<string>, ready: bool)

  /** What the operator has seen or done in the Reconcile it is in: it read a key of a Secret, it saw a
      Secret there, an apply of it took effect. */
  datatype Note = ReadKey(ref: SecretKey, value: string) | SawSecret(name: string) | Put(kind: Kind)

  datatype World = World(
    cr: Option<Mint>,
    secrets: map<string, Secret>,
    objs: map<Kind, Obj>,
    deployment: Counts,
    statefulSet: Counts,
    addressed: bool,
    disk: Option<string>,
    pod: PodState,
    clock: nat,
    pass: Option<Pass>,
    notes: set<Note>)

  /** What does not change in a run: the name of the CashuMint, the generator of config.toml from a spec
      and a password, the hash of a file, the database url made of a password and which texts are
      mnemonics. */
  datatype Setup = Setup(name: string, render: (Spec, string) -> string, hash: string -> string,
                         databaseURL: string -> string, phrase: string -> bool)

  /** The mnemonics are the texts the decoder accepts. */
  ghost predicate Recognises(e: Setup, table: seq<string>, checksum: seq<Mnemonic.Byte> -> Mnemonic.Byte) {
    forall p: string :: e.phrase(p) <==> Mnemonic.Decode(table, checksum, p).Some?
  }

  // ---------------------------------------------------------------- steps

  datatype EnvAction =
    | EditSpec(spec: Spec) | RequestDelete | CreateMint(spec: Spec) | Touch
    | SetDeployment(counts: Counts) | SetStatefulSet(counts: Counts) | AssignIngress(addressed: bool)
    | Collect(kind: Kind) | CollectSecret(name: string)
    | PutUserSecret(name: string, data: map<string, string>) | DropUserSecret(name: string)
    | PodInit | PodMain | PodStop

  datatype OpAction =
    | Began(mint: Mint)
    | AddFinalizer(version: nat) | RemoveFinalizer(version: nat)
    | WriteStatus(version: nat, status: Status)
    | CreateSecret(name: string, owner: Option<nat>, data: map<string, string>)
    | DeleteSecret(name: string)
    | Apply(kind: Kind, built: Obj)
    | ApplyConfig(built: Obj, url: string, authURL: string)
    | DeletePodMonitor
    | SawReady
    | Noted(note: Note)

  datatype Action = Env(env: EnvAction) | Op(op: OpAction)

  /** Only the operator creates and deletes these. */
  predicate OperatorSecret(e: Setup, name: string) {
    name == PostgresSecretName(e.name) || name == Env.MnemonicSecretName(e.name)
        || name == e.name + "-management-rpc-tls"
  }

  /** The postgres Secret and the mnemonic Secret are not the same. */
  lemma NamesDiffer(e: Setup)
    ensures PostgresSecretName(e.name) != Env.MnemonicSecretName(e.name)
  {
    assert |PostgresSecretName(e.name)| == |e.name| + 16 && |Env.MnemonicSecretName(e.name)| == |e.name| + 9;
  }

  predicate Stale(w: World, owner: nat) {
    w.cr.None? || w.cr.value.uid != owner
  }

  function Password(e: Setup, w: World): string {
    var n := PostgresSecretName(e.name);
    if n in w.secrets && "password" in w.secrets[n].data then w.secrets[n].data["password"] else ""
  }

  function WithMint(w: World, m: Mint): World {
    w.(cr := Some(m.(version := w.clock)), clock := w.clock + 1)
  }

  /** The init container of the postgres pod: on an initialised data directory it sets the password. */
  function AfterPodInit(e: Setup, w: World): World {
    var n := PostgresSecretName(e.name);
    if n !in w.secrets then w
    else w.(disk := if w.disk.Some? then Some(Password(e, w)) else None, pod := Initialised(w.secrets[n].uid))
  }

  /** The main container, started or restarted, initialises an empty data directory with the password. */
  function AfterPodMain(e: Setup, w: World): World {
    var n := PostgresSecretName(e.name);
    if n !in w.secrets || w.pod.NoPod? then w
    else if w.disk.Some? then w.(pod := Running(w.pod.secret))
    else w.(disk := Some(Password(e, w)), pod := Running(w.secrets[n].uid))
  }

  function EnvEffect(e: Setup, w: World, a: EnvAction): World {
    match a
    case EditSpec(spec) =>
      if w.cr.None? || w.cr.value.spec == spec then w
      else WithMint(w, w.cr.value.(spec := spec, generation := w.cr.value.generation + 1))
    case RequestDelete =>
      if w.cr.None? || w.cr.value.deleting then w
      else if w.cr.value.finalizer
      then WithMint(w, w.cr.value.(deleting := true, generation := w.cr.value.generation + 1))
      else w.(cr := None)
    case CreateMint(spec) =>
      if w.cr.Some? then w else WithMint(w, Mint(w.clock, spec, 1, w.clock, false, false, NoStatus()))
    case Touch => if w.cr.None? then w else WithMint(w, w.cr.value)
    case SetDeployment(counts) => w.(deployment := counts)
    case SetStatefulSet(counts) => w.(statefulSet := counts)
    case AssignIngress(addressed) => w.(addressed := addressed)
    case Collect(kind) => if kind in w.objs && Stale(w, w.objs[kind].owner) then w.(objs := w.objs - {kind}) else w
    case CollectSecret(name) =>
      if name in w.secrets && w.secrets[name].owner.Some? && Stale(w, w.secrets[name].owner.value)
      then w.(secrets := w.secrets - {name}) else w
    case PutUserSecret(name, data) =>
      if OperatorSecret(e, name) then w
      else w.(secrets := w.secrets[name := Secret(w.clock, None, data)], clock := w.clock + 1)
    case DropUserSecret(name) => if OperatorSecret(e, name) then w else w.(secrets := w.secrets - {name})
    case PodInit => AfterPodInit(e, w)
    case PodMain => AfterPodMain(e, w)
    case PodStop => w.(pod := NoPod)
  }

  predicate Matches(w: World, version: nat) {
    w.cr.Some? && w.cr.value.version == version
  }

  function OpEffect(e: Setup, w: World, a: OpAction): World {
    match a
    case Began(m) => w.(pass := Some(Pass(m, None, false)), notes := {})
    case AddFinalizer(version) => if Matches(w, version) then WithMint(w, w.cr.value.(finalizer := true)) else w
    case RemoveFinalizer(version) =>
      if !Matches(w, version) then w
      else if w.cr.value.deleting then w.(cr := None)
      else WithMint(w, w.cr.value.(finalizer := false))
    case WriteStatus(version, status) =>
      if !Matches(w, version) || w.cr.value.status == status then w else WithMint(w, w.cr.value.(status := status))
    case CreateSecret(name, owner, data) =>
      if name in w.secrets then w
      else w.(secrets := w.secrets[name := Secret(w.clock, owner, data)], clock := w.clock + 1)
    case DeleteSecret(name) => w.(secrets := w.secrets - {name})
    case Apply(kind, built) => w.(objs := w.objs[kind := built], notes := w.notes + {Put(kind)})
    case ApplyConfig(built, url, authURL) =>
      w.(objs := w.objs[ConfigMap := built],
          pass := if w.pass.Some? then Some(w.pass.value.(config := Some(built.text))) else None)
    case DeletePodMonitor => w.(objs := w.objs - {PodMonitor})
    case SawReady => w.(pass := if w.pass.Some? then Some(w.pass.value.(ready := true)) else None)
    case Noted(note) => w.(notes := w.notes + {note})
  }

  function Effect(e: Setup, w: World, a: Action): World {
    match a
    case Env(x) => EnvEffect(e, w, x)
    case Op(x) => OpEffect(e, w, x)
  }

  // ---------------------------------------------------------------- what config.toml is generated from

  predicate ProvisionedConfig(s: Spec) {
    UsesPostgres(s) && AutoProvision(s)
  }

  /** The main database url has to be read from a Secret the user named. */
  predicate NeedsURL(s: Spec) {
    UsesPostgres(s) && !AutoProvision(s) && s.database.postgres.value.urlSecretRef.Some?
  }

  predicate NeedsAuthURL(s: Spec) {
    AuthOn(s) && s.auth.value.postgres.Some? && s.auth.value.postgres.value.urlSecretRef.Some?
  }

  function WithURL(pg: Postgres, url: string): Postgres {
    pg.(url := url, urlSecretRef := None)
  }

  /** The copy of the spec reconcileConfigMap generates from. */
  function Resolve(s: Spec, url: string, authURL: string): Spec {
    var t := if !NeedsURL(s) then s
             else s.(database := s.database.(postgres := Some(WithURL(s.database.postgres.value, url))));
    if NeedsAuthURL(s)
    then t.(auth := Some(s.auth.value.(postgres := Some(WithURL(s.auth.value.postgres.value, authURL))))) else t
  }

  function ConfigPassword(e: Setup, w: World, s: Spec): string {
    if ProvisionedConfig(s) then Password(e, w) else ""
  }

  // ---------------------------------------------------------------- what is in place

  predicate InPlace(w: World, m: Mint, k: Kind) {
    if k == PodMonitor && !Generates(m.spec, k) then k !in w.objs
    else Generates(m.spec, k) ==>
      k in w.objs && w.objs[k].owner == m.uid && w.objs[k].spec == m.spec && (PlainText(k) ==> w.objs[k].text == "")
  }

  // PlacedOne is InPlace, kept by its two quantifiers out of proofs that only pass the fact on.

  ghost predicate AskInPlace(b: bool, w: World, m: Mint, k: Kind) { true }

  ghost predicate AnswerInPlace(c: bool, b: bool, w: World, m: Mint, k: Kind) { c == b && InPlace(w, m, k) }

  ghost predicate PlacedOne(w: World, m: Mint, k: Kind) {
    forall b: bool :: AskInPlace(b, w, m, k) ==> exists c: bool :: AnswerInPlace(c, b, w, m, k)
  }

  lemma PlacedMeansInPlace(w: World, m: Mint, k: Kind)
    ensures PlacedOne(w, m, k) <==> InPlace(w, m, k)
  {
    assert AskInPlace(true, w, m, k);
    if InPlace(w, m, k) {
      forall b: bool | AskInPlace(b, w, m, k) ensures exists c: bool :: AnswerInPlace(c, b, w, m, k) {
        assert AnswerInPlace(b, b, w, m, k);
      }
    }
  }

  /** Objects of this kind are a function of the spec alone. */
  predicate PlainText(k: Kind) {
    k != ConfigMap && k != Deployment
  }

  /** The objects of these kinds are the ones the mint asks for. */
  ghost predicate Placed(w: World, m: Mint, ks: set<Kind>) {
    forall k | k in ks :: PlacedOne(w, m, k)
  }

  const ALL_KINDS: set<Kind> :=
    {PostgresService, PostgresStatefulSet, BackupCronJob, ConfigMap, MintPVC, OrchardPVC, Deployment, MintService,
     OrchardServiceKind, PodMonitor, MintIngressKind, OrchardIngressKind, MintCertificate, OrchardCertificate}

  predicate IsReady(c: Counts, desired: int) {
    c.ready == desired && c.updated == desired && c.available == desired
  }

  predicate DeploymentReady(w: World) {
    Deployment in w.objs && IsReady(w.deployment, GetOr(w.objs[Deployment].spec.replicas, 1))
  }

  // ---------------------------------------------------------------- what the operator may do

  /** A status the operator may write over the one that is stored. */
  predicate StatusStep(m: Mint, st: Status) {
    && (ReadyTrue(st) ==> st.phase == Ready)
    && st.phase != NoPhase
    && (st.phase == Pending ==> m.status.phase == NoPhase)
    && (st.phase == Updating ==> m.status.observedGeneration != 0)
    && m.status.observedGeneration <= st.observedGeneration <= m.generation
  }

  predicate BeforeConfig(k: Kind) {
    k == PostgresService || k == PostgresStatefulSet || k == BackupCronJob
  }

  /** A Reconcile that may create and apply: of a mint that has its finalizer and is not being deleted. */
  predicate Building(m: Mint) {
    m.finalizer && !m.deleting
  }

  // what has to be noted before the Deployment is applied

  function SupplyNotes(e: Setup, s: Spec): set<Note> {
    (if WantsMnemonic(s) then {SawSecret(Env.MnemonicSecretName(e.name))} else {})
    + (if AutoProvision(s) then {SawSecret(PostgresSecretName(e.name))} else {})
  }

  function BundleNotes(e: Setup, s: Spec): set<Note> {
    if ManagementTLSOn(s) then {SawSecret(ManagementTLSSecretName(s, e.name))} else {}
  }

  function ClaimNotes(s: Spec): set<Note> {
    (if Generates(s, MintPVC) then {Put(MintPVC)} else {})
    + (if Generates(s, OrchardPVC) then {Put(OrchardPVC)} else {})
  }

  function RolloutNotes(e: Setup, s: Spec): set<Note> {
    SupplyNotes(e, s) + BundleNotes(e, s) + ClaimNotes(s)
  }

  predicate ApplyAllowed(e: Setup, p: Pass, notes: set<Note>, k: Kind, built: Obj) {
    && Building(p.mint) && Generates(p.mint.spec, k) && built.owner == p.mint.uid && built.spec == p.mint.spec
    && (!BeforeConfig(k) ==> p.config.Some?)
    && (k == Deployment ==>
        p.config.Some? && built.text == e.hash(p.config.value) && RolloutNotes(e, p.mint.spec) <= notes)
  }

  /** What resolveRequiredSecretValue asks of a reference. */
  predicate RefReady(w: World, ref: SecretKey) {
    && ref.name != "" && ref.key != "" && ref.name in w.secrets
    && ref.key in w.secrets[ref.name].data && w.secrets[ref.name].data[ref.key] != ""
  }

  function RefValue(w: World, ref: SecretKey): string {
    if ref.name in w.secrets && ref.key in w.secrets[ref.name].data then w.secrets[ref.name].data[ref.key] else ""
  }

  /** The urls config.toml is made with are what was read for them. */
  predicate URLsRead(notes: set<Note>, s: Spec, url: string, authURL: string) {
    && (NeedsURL(s) ==> url != "" && ReadKey(s.database.postgres.value.urlSecretRef.value, url) in notes)
    && (NeedsAuthURL(s) ==> authURL != "" && ReadKey(s.auth.value.postgres.value.urlSecretRef.value, authURL) in notes)
  }

  ghost predicate ConfigAllowed(e: Setup, w: World, p: Pass, built: Obj, url: string, authURL: string) {
    && Building(p.mint) && built.owner == p.mint.uid && built.spec == p.mint.spec
    && URLsRead(w.notes, built.spec, url, authURL)
    && (ProvisionedConfig(built.spec) ==> Password(e, w) != "")
    && built.text == e.render(Resolve(built.spec, url, authURL), ConfigPassword(e, w, built.spec))
  }

  const TLS_KEYS: set<string> := {"ca.pem", "server.pem", "server.key", "client.pem", "client.key"}

  /** The management TLS Secret: five files. */
  predicate Bundle(data: map<string, string>) {
    data.Keys == TLS_KEYS
  }

  /** The mnemonic Secret: one phrase. */
  predicate MnemonicData(e: Setup, data: map<string, string>) {
    data.Keys == {"mnemonic"} && e.phrase(data["mnemonic"])
  }

  /** Thirty-two letters that a url takes as they are. */
  predicate GoodPassword(p: string) {
    |p| == 32 && forall i | 0 <= i < 32 :: Credentials.UrlSafe(p[i])
  }

  /** The postgres Secret: a password and the url made of it. */
  predicate PostgresData(e: Setup, data: map<string, string>) {
    && "password" in data && GoodPassword(data["password"])
    && "database-url" in data && data["database-url"] == e.databaseURL(data["password"])
  }

  function CredentialData(e: Setup, password: string): map<string, string> {
    map["password" := password, "database-url" := e.databaseURL(password)]
  }

  predicate CreateAllowed(e: Setup, p: Pass, name: string, owner: Option<nat>, data: map<string, string>) {
    && Building(p.mint)
    && (|| (name == PostgresSecretName(e.name) && owner.None? && AutoProvision(p.mint.spec) && PostgresData(e, data))
        || (name == Env.MnemonicSecretName(e.name) && owner == Some(p.mint.uid) && WantsMnemonic(p.mint.spec)
            && MnemonicData(e, data))
        || (name == ManagementTLSSecretName(p.mint.spec, e.name) && owner == Some(p.mint.uid)
            && ManagementTLSOn(p.mint.spec) && Bundle(data)))
  }

  /** A note that is true when it is taken. An apply is noted by its own step. */
  predicate NoteTrue(w: World, note: Note) {
    match note
    case ReadKey(ref, value) => RefReady(w, ref) && value == RefValue(w, ref)
    case SawSecret(name) => name in w.secrets
    case Put(kind) => false
  }

  /** The guarantee of the operator, step by step. */
  ghost predicate Allowed(e: Setup, w: World, a: OpAction) {
    match a
    case Began(m) => w.cr == Some(m)
    case AddFinalizer(version) => w.pass.Some? && version == w.pass.value.mint.version && !w.pass.value.mint.deleting
    case RemoveFinalizer(version) =>
      && w.pass.Some? && version == w.pass.value.mint.version && w.pass.value.mint.deleting
      && (AutoProvision(w.pass.value.mint.spec) ==> PostgresSecretName(e.name) !in w.secrets)
    case WriteStatus(version, st) =>
      && w.pass.Some? && !w.pass.value.mint.deleting
      && (Matches(w, version) ==> StatusStep(w.cr.value, st))
      && (ReadyTrue(st) ==> w.pass.value.ready)
    case CreateSecret(name, owner, data) => w.pass.Some? && CreateAllowed(e, w.pass.value, name, owner, data)
    case DeleteSecret(name) =>
      && w.pass.Some? && w.pass.value.mint.deleting && name == PostgresSecretName(e.name)
      && AutoProvision(w.pass.value.mint.spec)
      && w.cr.Some? && w.cr.value.uid == w.pass.value.mint.uid && w.cr.value.deleting
    case Apply(k, built) => w.pass.Some? && k != ConfigMap && ApplyAllowed(e, w.pass.value, w.notes, k, built)
    case ApplyConfig(built, url, authURL) => w.pass.Some? && ConfigAllowed(e, w, w.pass.value, built, url, authURL)
    case DeletePodMonitor => w.pass.Some? && !w.pass.value.mint.deleting && !PrometheusOn(w.pass.value.mint.spec)
    case SawReady => w.pass.Some? && DeploymentReady(w) && Placed(w, w.pass.value.mint, ALL_KINDS)
    case Noted(note) => w.pass.Some? && NoteTrue(w, note)
  }

  ghost predicate StepAllowed(e: Setup, w: World, a: Action) {
    a.Op? ==> Allowed(e, w, a.op)
  }

  // ---------------------------------------------------------------- runs

  function Run(e: Setup, w: World, log: seq<Action>): World {
    if log == [] then w else Effect(e, Run(e, w, log[..|log| - 1]), log[|log| - 1])
  }

  /** A run in which the operator keeps its guarantee; the others do what they like. */
  ghost predicate Good(e: Setup, w: World, log: seq<Action>) {
    log == [] || (Good(e, w, log[..|log| - 1]) && StepAllowed(e, Run(e, w, log[..|log| - 1]), log[|log| - 1]))
  }

  lemma {:induction false} GoodPrefix(e: Setup, w: World, log: seq<Action>, n: nat)
    requires Good(e, w, log) && n <= |log|
    ensures Good(e, w, log[..n])
    ensures n < |log| ==> StepAllowed(e, Run(e, w, log[..n]), log[n])
                          && Run(e, w, log[..n + 1]) == Effect(e, Run(e, w, log[..n]), log[n])
  {
    if n == |log| {
      assert log[..n] == log;
    } else if n == |log| - 1 {
      assert log[..n + 1] == log;
    } else {
      var front := log[..|log| - 1];
      GoodPrefix(e, w, front, n);
      assert front[..n] == log[..n] && front[..n + 1] == log[..n + 1];
    }
  }

  lemma RunNext(e: Setup, w: World, log: seq<Action>, a: Action)
    ensures Run(e, w, log + [a]) == Effect(e, Run(e, w, log), a)
    ensures Good(e, w, log) && StepAllowed(e, Run(e, w, log), a) ==> Good(e, w, log + [a])
  {
    assert (log + [a])[..|log|] == log;
  }
}
