/** Which objects a spec asks for, the gates the controller puts before their generators, and what the
    pod refers to. */
module Plan {
  import opened Options
  import opened MintTypes
  import opened Choices
  import opened Pod
  import opened Env
  import opened Network
  import opened Validation

  /** The objects the operator applies, in the order of a pass. */
  datatype Kind =
    | PostgresService | PostgresStatefulSet | BackupCronJob
    | ConfigMap | MintPVC | OrchardPVC | Deployment | MintService | OrchardServiceKind | PodMonitor
    | MintIngressKind | OrchardIngressKind | MintCertificate | OrchardCertificate

  predicate NeedsCertificate(i: Option<Ingress>) {
    IngressOn(i) && CertManagerOn(i.value)
  }

  /** The generator of this kind returns an object rather than nil. */
  predicate Generates(s: Spec, k: Kind) {
    match k
    case PostgresService => AutoProvision(s)
    case PostgresStatefulSet => AutoProvision(s)
    case BackupCronJob =>
      s.backup.Some? && s.backup.value.enabled && s.database.engine == ENGINE_POSTGRES && AutoProvision(s)
          && s.backup.value.s3.Some?
    case ConfigMap => true
    case MintPVC => LocalEngine(s)
    case OrchardPVC => OrchardOn(s)
    case Deployment => true
    case MintService => true
    case OrchardServiceKind => OrchardOn(s)
    case PodMonitor => PrometheusOn(s)
    case MintIngressKind => IngressOn(s.ingress)
    case OrchardIngressKind => OrchardOn(s) && IngressOn(s.orchard.value.ingress)
    case MintCertificate => NeedsCertificate(s.ingress)
    case OrchardCertificate => OrchardOn(s) && NeedsCertificate(s.orchard.value.ingress)
  }

  // the gates of the controller, written without looking at the generators

  predicate NeedsPVCReconciliation(s: Spec) {
    s.database.engine == ENGINE_SQLITE || s.database.engine == ENGINE_REDB
        || (s.orchard.Some? && s.orchard.value.enabled)
  }

  predicate NeedsIngressReconciliation(s: Spec) {
    || (s.ingress.Some? && s.ingress.value.enabled)
    || (s.orchard.Some? && s.orchard.value.enabled && s.orchard.value.ingress.Some?
        && s.orchard.value.ingress.value.enabled)
  }

  predicate WantsCertificate(i: Option<Ingress>) {
    && i.Some? && i.value.enabled && i.value.tls.Some? && i.value.tls.value.enabled
    && i.value.tls.value.certManager.Some? && i.value.tls.value.certManager.value.enabled
  }

  predicate NeedsCertificateReconciliation(s: Spec) {
    WantsCertificate(s.ingress) || (s.orchard.Some? && s.orchard.value.enabled
        && WantsCertificate(s.orchard.value.ingress))
  }

  /** The gates of a pass let this kind's generator run. */
  predicate Reached(s: Spec, k: Kind) {
    match k
    case PostgresService => AutoProvision(s)
    case PostgresStatefulSet => AutoProvision(s)
    case BackupCronJob => s.backup.Some? && s.backup.value.enabled
    case ConfigMap => true
    case MintPVC => NeedsPVCReconciliation(s)
    case OrchardPVC => NeedsPVCReconciliation(s)
    case Deployment => true
    case MintService => true
    case OrchardServiceKind => true
    case PodMonitor => PrometheusOn(s)
    case MintIngressKind => NeedsIngressReconciliation(s)
    case OrchardIngressKind => NeedsIngressReconciliation(s)
    case MintCertificate => NeedsIngressReconciliation(s) && NeedsCertificateReconciliation(s)
    case OrchardCertificate => NeedsIngressReconciliation(s) && NeedsCertificateReconciliation(s)
  }

  /** No gate skips an object its generator would have produced. */
  lemma GatesSkipNothing(s: Spec, k: Kind)
    ensures Generates(s, k) ==> Reached(s, k)
  {}

  /** And no gate opens for nothing: some generator behind it produces an object. */
  lemma GatesOpenForSomething(s: Spec)
    ensures NeedsPVCReconciliation(s) <==> Generates(s, MintPVC) || Generates(s, OrchardPVC)
    ensures NeedsIngressReconciliation(s) <==> Generates(s, MintIngressKind) || Generates(s, OrchardIngressKind)
    ensures NeedsCertificateReconciliation(s) <==> Generates(s, MintCertificate) || Generates(s, OrchardCertificate)
  {}

  /** An object is asked for exactly if its generator returns one. */
  lemma GeneratorsAgree(s: Spec, mintName: string)
    ensures Generates(s, MintService)
    ensures Generates(s, OrchardServiceKind) <==> Network.OrchardService(s, mintName).Some?
    ensures Generates(s, MintIngressKind) <==> Network.MintIngress(s, mintName).Some?
    ensures Generates(s, OrchardIngressKind) <==> Network.OrchardIngress(s, mintName).Some?
  {}

  /** What each kind is asked for by, in the fields of the spec. */
  lemma AskedForBy(s: Spec)
    ensures Generates(s, ConfigMap) && Generates(s, Deployment) && Generates(s, MintService)
    ensures Generates(s, PostgresService) <==> s.database.postgres.Some? && s.database.postgres.value.autoProvision
    ensures Generates(s, PostgresStatefulSet) <==> Generates(s, PostgresService)
    ensures Generates(s, BackupCronJob) <==>
              Generates(s, PostgresService) && s.database.engine == "postgres"
              && s.backup.Some? && s.backup.value.enabled && s.backup.value.s3.Some?
    ensures Generates(s, MintPVC) <==> s.database.engine == "sqlite" || s.database.engine == "redb"
    ensures Generates(s, OrchardPVC) <==> s.orchard.Some? && s.orchard.value.enabled
    ensures Generates(s, OrchardServiceKind) <==> s.orchard.Some? && s.orchard.value.enabled
    ensures Generates(s, PodMonitor) <==> s.prometheus.Some? && s.prometheus.value.enabled
    ensures Generates(s, MintIngressKind) <==> s.ingress.Some? && s.ingress.value.enabled
    ensures Generates(s, OrchardIngressKind) <==>
              Generates(s, OrchardServiceKind) && s.orchard.value.ingress.Some? && s.orchard.value.ingress.value.enabled
    ensures Generates(s, MintCertificate) <==> WantsCertificate(s.ingress)
    ensures Generates(s, OrchardCertificate) <==>
              Generates(s, OrchardServiceKind) && WantsCertificate(s.orchard.value.ingress)
  {}

  lemma NoIngressNoCertificate(s: Spec)
    requires !NeedsIngressReconciliation(s)
    ensures !Generates(s, MintIngressKind) && !Generates(s, OrchardIngressKind)
    ensures !Generates(s, MintCertificate) && !Generates(s, OrchardCertificate)
  {}

  /** For an admitted mint the backup gate opens exactly when the CronJob is generated. */
  lemma ValidBackupGenerates(s: Spec)
    requires Valid(s)
    ensures Reached(s, BackupCronJob) <==> Generates(s, BackupCronJob)
  {
    assert !BreaksBackup(s, NotPostgres) && !BreaksBackup(s, NotProvisioned) && !BreaksBackup(s, S3Missing);
  }

  // ---------------------------------------------------------------- what the pod refers to

  function PostgresSecretName(mintName: string): string {
    mintName + "-postgres-secret"
  }

  predicate WantsMnemonic(s: Spec) {
    s.mintInfo.autoGenerateMnemonic && s.mintInfo.mnemonicSecretRef.None?
  }

  /** The keys of the Secrets a pass creates when they are missing. */
  function CreatedKeys(s: Spec, mintName: string): set<SecretKey> {
    (if WantsMnemonic(s) then {SecretKey(MnemonicSecretName(mintName), "mnemonic")} else {})
    + (if AutoProvision(s)
       then {SecretKey(PostgresSecretName(mintName), "password"),
          SecretKey(PostgresSecretName(mintName), "database-url")} else {})
  }

  /** What a pass puts in place before it applies the Deployment. */
  function CreatedBefore(s: Spec, mintName: string): set<Source> {
    {FromConfigMap(mintName + "-config")}
    + (if ManagementTLSOn(s) then {FromSecret(ManagementTLSSecretName(s, mintName))} else {})
    + (if Generates(s, MintPVC) then {FromClaim(mintName + "-data")} else {})
    + (if Generates(s, OrchardPVC) then {FromClaim(mintName + "-orchard-data")} else {})
  }

  function NameOf(k: Option<SecretKey>): set<string> {
    if k.Some? then {k.value.name} else {}
  }

  /** Secrets the user names in the spec for the pod to mount. */
  function UserSecrets(s: Spec): set<string> {
    NameOf(LNDMacaroon(s)) + NameOf(LNDCert(s)) + NameOf(GRPCTLS(s)) + NameOf(SidecarTLSRef(s))
    + NameOf(Lightning(s).macaroonRef) + NameOf(Lightning(s).certRef) + NameOf(Lightning(s).keyRef)
        + NameOf(Lightning(s).caRef)
    + NameOf(Taproot(s).macaroonRef) + NameOf(Taproot(s).certRef)
  }

  predicate Provided(s: Spec, mintName: string, source: Source) {
    source.EmptyDir? || source in CreatedBefore(s, mintName) || (source.FromSecret? && source.name in UserSecrets(s))
  }

  predicate AllProvided(s: Spec, mintName: string, cs: seq<Choice<Volume>>) {
    forall i | 0 <= i < |cs| :: cs[i].on ==> Provided(s, mintName, cs[i].item.source)
  }

  lemma BaseProvided(s: Spec, mintName: string)
    ensures AllProvided(s, mintName, BaseVolumes(s, mintName)) && AllProvided(s, mintName, LNDVolumes(s))
  {}

  lemma TLSProvided(s: Spec, mintName: string)
    ensures AllProvided(s, mintName, TLSVolumes(s, mintName))
  {}

  lemma OrchardProvided(s: Spec, mintName: string)
    ensures AllProvided(s, mintName, OrchardBaseVolumes(s, mintName))
            && AllProvided(s, mintName, OrchardTaprootVolumes(s))
  {}

  lemma LightningProvided(s: Spec, mintName: string)
    ensures AllProvided(s, mintName, OrchardLightningVolumes(s))
  {}

  /** Every volume is scratch space, a Secret the user named, or something the same pass put in place
      before the Deployment. */
  lemma VolumesProvided(s: Spec, mintName: string, i: nat)
    requires i < |Chosen(PodVolumes(s, mintName))|
    ensures Provided(s, mintName, Chosen(PodVolumes(s, mintName))[i].source)
  {
    BaseProvided(s, mintName);
    TLSProvided(s, mintName);
    OrchardProvided(s, mintName);
    LightningProvided(s, mintName);
    var k := ChosenFrom(PodVolumes(s, mintName), i);
  }

  /** generateOrchardMintDatabaseEnvVar */
  function OrchardDatabase(s: Spec, mintName: string): Option<EnvValue> {
    if s.orchard.Some? && s.orchard.value.mint.Some? && s.orchard.value.mint.value.database != ""
    then Some(Literal(s.orchard.value.mint.value.database))
    else if s.database.engine == ENGINE_SQLITE then Some(Literal("/mnt/mint/cdk-mintd.sqlite"))
    else if s.database.engine == ENGINE_POSTGRES && s.database.postgres.Some? then
      var pg := s.database.postgres.value;
      if pg.autoProvision then Some(FromKey(SecretKey(PostgresSecretName(mintName), "database-url")))
      else if pg.urlSecretRef.Some? then Some(FromKey(pg.urlSecretRef.value))
      else if pg.url != "" then Some(Literal(pg.url))
      else None
    else None
  }

  /** The mnemonic mintd reads and the database url Orchard reads come from a Secret key the pass
      created, or from the one the user named. */
  lemma OwnSecretsProvided(s: Spec, mintName: string)
    ensures MnemonicRef(s, mintName).Some? && MnemonicRef(s, mintName) != s.mintInfo.mnemonicSecretRef ==>
              MnemonicRef(s, mintName).value in CreatedKeys(s, mintName)
    ensures var database := OrchardDatabase(s, mintName);
            database.Some? && database.value.FromKey? ==>
              database.value.ref in CreatedKeys(s, mintName)
              || (s.database.postgres.Some? && s.database.postgres.value.urlSecretRef == Some(database.value.ref))
  {}

  /** An admitted mint with Orchard always tells it where the database is. */
  lemma ValidOrchardHasDatabase(s: Spec, mintName: string)
    requires Valid(s) && OrchardOn(s)
    ensures OrchardDatabase(s, mintName).Some?
  {
    assert !BreaksOrchard(s, RedbEngine);
    assert !BreaksDatabase(s.database, UnknownEngine) && !BreaksDatabase(s.database, PostgresMissing);
    assert !BreaksDatabase(s.database, URLMissing);
  }
}
