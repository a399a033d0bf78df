/** The validating webhook of api/v1alpha1/cashumint_webhook.go. Each validator collects the rules a
    spec breaks; an error is the rule it reports. */
module Validation {
  import opened Options
  import opened MintTypes

  // ---------------------------------------------------------------- database

  datatype DatabaseRule = PostgresMissing | URLMissing | TwoURLs | UnknownEngine

  predicate BreaksDatabase(d: Database, e: DatabaseRule) {
    var postgres := d.engine == ENGINE_POSTGRES;
    match e
    case PostgresMissing => postgres && d.postgres.None?
    case URLMissing =>
      postgres && d.postgres.Some? && !d.postgres.value.autoProvision && d.postgres.value.url == ""
          && d.postgres.value.urlSecretRef.None?
    case TwoURLs => postgres && d.postgres.Some? && d.postgres.value.url != "" && d.postgres.value.urlSecretRef.Some?
    case UnknownEngine => d.engine !in {ENGINE_POSTGRES, ENGINE_SQLITE, ENGINE_REDB}
  }

  method ValidateDatabase(d: Database) returns (errs: seq<DatabaseRule>)
    ensures forall e: DatabaseRule :: e in errs <==> BreaksDatabase(d, e)
  {
    errs := [];
    if d.engine == ENGINE_POSTGRES {
      if d.postgres.None? {
        errs := errs + [PostgresMissing];
      } else {
        var hasURL := d.postgres.value.url != "";
        var hasSecretRef := d.postgres.value.urlSecretRef.Some?;
        if !d.postgres.value.autoProvision && !hasURL && !hasSecretRef {
          errs := errs + [URLMissing];
        }
        if hasURL && hasSecretRef {
          errs := errs + [TwoURLs];
        }
      }
    } else if d.engine != ENGINE_SQLITE && d.engine != ENGINE_REDB {
      errs := errs + [UnknownEngine];
    }
  }

  // ---------------------------------------------------------------- payment backend

  datatype BackendRule =
    NoBackend | ManyBackends | LNDAddress | CLNPath | LNBitsAPI | GRPCAddress | SidecarImage | SidecarTLS

  predicate SidecarOn(g: GRPCProcessor) {
    g.sidecar.Some? && g.sidecar.value.enabled
  }

  predicate BreaksBackend(p: PaymentBackend, e: BackendRule) {
    match e
    case NoBackend => CountConfigured(p) == 0
    case ManyBackends => CountConfigured(p) > 1
    case LNDAddress => p.lnd.Some? && p.lnd.value.address == ""
    case CLNPath => p.cln.Some? && p.cln.value.rpcPath == ""
    case LNBitsAPI => p.lnbits.Some? && p.lnbits.value.api == ""
    case GRPCAddress => p.grpc.Some? && !SidecarOn(p.grpc.value) && p.grpc.value.address == ""
    case SidecarImage => p.grpc.Some? && SidecarOn(p.grpc.value) && p.grpc.value.sidecar.value.image == ""
    case SidecarTLS =>
      p.grpc.Some? && SidecarOn(p.grpc.value) && p.grpc.value.sidecar.value.enableTLS
          && p.grpc.value.sidecar.value.tlsSecretRef.None?
  }

  method CountBackends(p: PaymentBackend) returns (count: nat)
    ensures count == CountConfigured(p)
  {
    count := 0;
    if p.lnd.Some? {
      count := count + 1;
    }
    if p.cln.Some? {
      count := count + 1;
    }
    if p.lnbits.Some? {
      count := count + 1;
    }
    if p.fakeWallet.Some? {
      count := count + 1;
    }
    if p.grpc.Some? {
      count := count + 1;
    }
  }

  method ValidatePaymentBackend(p: PaymentBackend) returns (errs: seq<BackendRule>)
    ensures forall e: BackendRule :: e in errs <==> BreaksBackend(p, e)
  {
    errs := [];
    var count := CountBackends(p);
    if count == 0 {
      errs := errs + [NoBackend];
    }
    if count > 1 {
      errs := errs + [ManyBackends];
    }
    if p.lnd.Some? && p.lnd.value.address == "" {
      errs := errs + [LNDAddress];
    }
    if p.cln.Some? && p.cln.value.rpcPath == "" {
      errs := errs + [CLNPath];
    }
    if p.lnbits.Some? && p.lnbits.value.api == "" {
      errs := errs + [LNBitsAPI];
    }
    if p.grpc.Some? {
      var processor := ValidateProcessor(p.grpc.value);
      errs := errs + processor;
    }
  }

  method ValidateProcessor(g: GRPCProcessor) returns (errs: seq<BackendRule>)
    ensures forall e: BackendRule :: e in errs <==>
            e in {GRPCAddress, SidecarImage, SidecarTLS} && BreaksProcessor(g, e)
  {
    errs := [];
    var sidecarEnabled := g.sidecar.Some? && g.sidecar.value.enabled;
    if !sidecarEnabled && g.address == "" {
      errs := errs + [GRPCAddress];
    }
    if sidecarEnabled {
      var sidecar := g.sidecar.value;
      if sidecar.image == "" {
        errs := errs + [SidecarImage];
      }
      if sidecar.enableTLS && sidecar.tlsSecretRef.None? {
        errs := errs + [SidecarTLS];
      }
    }
  }

  predicate BreaksProcessor(g: GRPCProcessor, e: BackendRule) {
    BreaksBackend(PaymentBackend(None, None, None, None, None, None, None, None, Some(g)), e)
  }

  // ---------------------------------------------------------------- ingress

  datatype IngressRule = HostMissing | IssuerMissing

  predicate BreaksIngress(i: Option<Ingress>, e: IngressRule) {
    && i.Some? && i.value.enabled
    && (match e
        case HostMissing => i.value.host == ""
        case IssuerMissing =>
          && i.value.tls.Some? && i.value.tls.value.enabled
          && i.value.tls.value.certManager.Some? && i.value.tls.value.certManager.value.enabled
          && i.value.tls.value.certManager.value.issuerName == "")
  }

  method ValidateIngressConfig(i: Option<Ingress>) returns (errs: seq<IngressRule>)
    ensures forall e: IngressRule :: e in errs <==> BreaksIngress(i, e)
  {
    errs := [];
    if i.None? || !i.value.enabled {
      return;
    }
    if i.value.host == "" {
      errs := errs + [HostMissing];
    }
    if i.value.tls.Some? && i.value.tls.value.enabled {
      var certManager := i.value.tls.value.certManager;
      if certManager.Some? && certManager.value.enabled {
        if certManager.value.issuerName == "" {
          errs := errs + [IssuerMissing];
        }
      }
    }
  }

  // ---------------------------------------------------------------- resources

  predicate Exceeds(r: Resources, name: string) {
    name in r.limits && name in r.requests && r.requests[name] > r.limits[name]
  }

  /** A range over the limits that stops at the first request above its limit. */
  method ValidateResources(r: Option<Resources>) returns (err: Option<string>)
    ensures err.Some? ==> r.Some? && Exceeds(r.value, err.value)
    ensures err.None? && r.Some? ==> forall name | name in r.value.limits :: !Exceeds(r.value, name)
  {
    if r.None? {
      return None;
    }
    var pending := r.value.limits.Keys;
    while pending != {}
      invariant pending <= r.value.limits.Keys
      invariant forall name | name in r.value.limits && name !in pending :: !Exceeds(r.value, name)
      decreases pending
    {
      var name :| name in pending;
      if name in r.value.requests && r.value.requests[name] > r.value.limits[name] {
        return Some(name);
      }
      pending := pending - {name};
    }
    return None;
  }

  // ---------------------------------------------------------------- backup

  datatype BackupRule =
    NotPostgres | NotProvisioned | ScheduleMissing | S3Missing | BucketMissing | AccessKeyMissing | SecretKeyMissing

  predicate Empty(k: SecretKey) {
    k.name == "" || k.key == ""
  }

  predicate BreaksBackup(s: Spec, e: BackupRule) {
    && s.backup.Some? && s.backup.value.enabled
    && (var s3 := s.backup.value.s3;
        match e
        case NotPostgres => s.database.engine != ENGINE_POSTGRES
        case NotProvisioned => !AutoProvision(s)
        case ScheduleMissing => s.backup.value.schedule == ""
        case S3Missing => s3.None?
        case BucketMissing => s3.Some? && s3.value.bucket == ""
        case AccessKeyMissing => s3.Some? && Empty(s3.value.accessKeyRef)
        case SecretKeyMissing => s3.Some? && Empty(s3.value.secretKeyRef))
  }

  method ValidateBackup(s: Spec) returns (errs: seq<BackupRule>)
    ensures forall e: BackupRule :: e in errs <==> BreaksBackup(s, e)
  {
    errs := [];
    if s.backup.None? || !s.backup.value.enabled {
      return;
    }
    if s.database.engine != "postgres" {
      errs := errs + [NotPostgres];
    }
    if s.database.postgres.None? || !s.database.postgres.value.autoProvision {
      errs := errs + [NotProvisioned];
    }
    if s.backup.value.schedule == "" {
      errs := errs + [ScheduleMissing];
    }
    if s.backup.value.s3.None? {
      errs := errs + [S3Missing];
    } else {
      var s3 := s.backup.value.s3.value;
      if s3.bucket == "" {
        errs := errs + [BucketMissing];
      }
      if s3.accessKeyRef.name == "" || s3.accessKeyRef.key == "" {
        errs := errs + [AccessKeyMissing];
      }
      if s3.secretKeyRef.name == "" || s3.secretKeyRef.key == "" {
        errs := errs + [SecretKeyMissing];
      }
    }
  }

  // ---------------------------------------------------------------- management RPC

  predicate BreaksManagementRPC(m: Option<ManagementRPC>) {
    m.Some? && m.value.tlsSecretName == Some("")
  }

  // ---------------------------------------------------------------- Orchard

  datatype OrchardRule =
    RedbEngine | SetupKey | OrchardIngress
    | DatabaseCA | DatabaseCert | DatabaseKey | MTLSWithoutRPC
    | BitcoinHost | BitcoinPort | BitcoinUser | BitcoinPassword
    | LightningHost | LightningPort | LightningMacaroon | LightningCert | LightningKey | LightningCA
    | TaprootHost | TaprootPort | TaprootMacaroon | TaprootCert
    | AIAPI

  /** validateSecretKeySelector reports an error. */
  predicate BadRef(k: Option<SecretKey>, required: bool) {
    if k.None? then required else Empty(k.value)
  }

  predicate IngressAccepted(i: Option<Ingress>) {
    forall e: IngressRule :: !BreaksIngress(i, e)
  }

  predicate BreaksOrchardMint(s: Spec, o: Orchard, e: OrchardRule) {
    && o.mint.Some?
    && (match e
        case DatabaseCA => BadRef(o.mint.value.caRef, false)
        case DatabaseCert => BadRef(o.mint.value.certRef, false)
        case DatabaseKey => BadRef(o.mint.value.keyRef, false)
        case MTLSWithoutRPC => o.mint.value.rpc.Some? && o.mint.value.rpc.value.mtls == Some(true)
            && !ManagementRPCOn(s)
        case _ => false)
  }

  predicate BreaksBitcoin(o: Orchard, e: OrchardRule) {
    && o.bitcoin.Some?
    && (match e
        case BitcoinHost => o.bitcoin.value.rpcHost == ""
        case BitcoinPort => o.bitcoin.value.rpcPort == 0
        case BitcoinUser => BadRef(o.bitcoin.value.userRef, true)
        case BitcoinPassword => BadRef(o.bitcoin.value.passwordRef, true)
        case _ => false)
  }

  predicate BreaksLightning(o: Orchard, e: OrchardRule) {
    && o.lightning.Some?
    && (match e
        case LightningHost => o.lightning.value.rpcHost == ""
        case LightningPort => o.lightning.value.rpcPort == 0
        case LightningMacaroon => o.lightning.value.kind == "lnd" && BadRef(o.lightning.value.macaroonRef, true)
        case LightningCert => o.lightning.value.kind == "lnd" && BadRef(o.lightning.value.certRef, true)
        case LightningKey => o.lightning.value.kind == "cln" && BadRef(o.lightning.value.keyRef, true)
        case LightningCA => o.lightning.value.kind == "cln" && BadRef(o.lightning.value.caRef, true)
        case _ => false)
  }

  predicate BreaksTaproot(o: Orchard, e: OrchardRule) {
    && o.taproot.Some?
    && (match e
        case TaprootHost => o.taproot.value.rpcHost == ""
        case TaprootPort => o.taproot.value.rpcPort == 0
        case TaprootMacaroon => BadRef(o.taproot.value.macaroonRef, true)
        case TaprootCert => BadRef(o.taproot.value.certRef, true)
        case _ => false)
  }

  predicate BreaksOrchard(s: Spec, e: OrchardRule) {
    && OrchardOn(s)
    && (var o := s.orchard.value;
        match e
        case RedbEngine => s.database.engine == ENGINE_REDB
        case SetupKey => BadRef(o.setupKeySecretRef, true)
        case OrchardIngress => !IngressAccepted(o.ingress)
        case AIAPI => o.aiAPI == Some("")
        case _ => BreaksOrchardMint(s, o, e) || BreaksBitcoin(o, e) || BreaksLightning(o, e) || BreaksTaproot(o, e))
  }

  method ValidateSecretKeySelector(k: Option<SecretKey>, required: bool, rule: OrchardRule)
      returns (errs: seq<OrchardRule>)
    ensures errs == if BadRef(k, required) then [rule] else []
  {
    if k.None? {
      return if required then [rule] else [];
    }
    if k.value.name == "" || k.value.key == "" {
      return [rule];
    }
    return [];
  }

  method ValidateOrchardMint(s: Spec, o: Orchard) returns (errs: seq<OrchardRule>)
    ensures forall e: OrchardRule :: e in errs <==> BreaksOrchardMint(s, o, e)
  {
    errs := [];
    if o.mint.None? {
      return;
    }
    errs := ValidateDatabaseRefs(o.mint.value);
    if o.mint.value.rpc.Some? && o.mint.value.rpc.value.mtls.Some? && o.mint.value.rpc.value.mtls.value {
      if s.managementRPC.None? || !s.managementRPC.value.enabled {
        errs := errs + [MTLSWithoutRPC];
      }
    }
  }

  method ValidateDatabaseRefs(m: OrchardMint) returns (errs: seq<OrchardRule>)
    ensures forall e: OrchardRule :: e in errs <==>
      || (e == DatabaseCA && BadRef(m.caRef, false))
      || (e == DatabaseCert && BadRef(m.certRef, false))
      || (e == DatabaseKey && BadRef(m.keyRef, false))
  {
    var ca := ValidateSecretKeySelector(m.caRef, false, DatabaseCA);
    var cert := ValidateSecretKeySelector(m.certRef, false, DatabaseCert);
    var key := ValidateSecretKeySelector(m.keyRef, false, DatabaseKey);
    errs := ca + cert + key;
  }

  method ValidateOrchardBitcoin(o: Orchard) returns (errs: seq<OrchardRule>)
    ensures forall e: OrchardRule :: e in errs <==> BreaksBitcoin(o, e)
  {
    errs := [];
    if o.bitcoin.None? {
      return;
    }
    if o.bitcoin.value.rpcHost == "" {
      errs := errs + [BitcoinHost];
    }
    if o.bitcoin.value.rpcPort == 0 {
      errs := errs + [BitcoinPort];
    }
    var user := ValidateSecretKeySelector(o.bitcoin.value.userRef, true, BitcoinUser);
    var password := ValidateSecretKeySelector(o.bitcoin.value.passwordRef, true, BitcoinPassword);
    errs := errs + user + password;
  }

  method ValidateOrchardLightning(o: Orchard) returns (errs: seq<OrchardRule>)
    ensures forall e: OrchardRule :: e in errs <==> BreaksLightning(o, e)
  {
    errs := [];
    if o.lightning.None? {
      return;
    }
    var l := o.lightning.value;
    if l.rpcHost == "" {
      errs := errs + [LightningHost];
    }
    if l.rpcPort == 0 {
      errs := errs + [LightningPort];
    }
    if l.kind == "lnd" {
      var macaroon := ValidateSecretKeySelector(l.macaroonRef, true, LightningMacaroon);
      var cert := ValidateSecretKeySelector(l.certRef, true, LightningCert);
      errs := errs + macaroon + cert;
    } else if l.kind == "cln" {
      var key := ValidateSecretKeySelector(l.keyRef, true, LightningKey);
      var ca := ValidateSecretKeySelector(l.caRef, true, LightningCA);
      errs := errs + key + ca;
    }
  }

  method ValidateOrchardTaprootAssets(o: Orchard) returns (errs: seq<OrchardRule>)
    ensures forall e: OrchardRule :: e in errs <==> BreaksTaproot(o, e)
  {
    errs := [];
    if o.taproot.None? {
      return;
    }
    if o.taproot.value.rpcHost == "" {
      errs := errs + [TaprootHost];
    }
    if o.taproot.value.rpcPort == 0 {
      errs := errs + [TaprootPort];
    }
    var macaroon := ValidateSecretKeySelector(o.taproot.value.macaroonRef, true, TaprootMacaroon);
    var cert := ValidateSecretKeySelector(o.taproot.value.certRef, true, TaprootCert);
    errs := errs + macaroon + cert;
  }

  method ValidateOrchard(s: Spec) returns (errs: seq<OrchardRule>)
    ensures forall e: OrchardRule :: e in errs <==> BreaksOrchard(s, e)
  {
    errs := [];
    if s.orchard.None? || !s.orchard.value.enabled {
      return;
    }
    var o := s.orchard.value;
    var own := ValidateOrchardItself(s, o);
    var mint := ValidateOrchardMint(s, o);
    var bitcoin := ValidateOrchardBitcoin(o);
    var lightning := ValidateOrchardLightning(o);
    var taproot := ValidateOrchardTaprootAssets(o);
    var ai := if o.aiAPI.Some? && o.aiAPI.value == "" then [AIAPI] else [];
    errs := own + mint + bitcoin + lightning + taproot + ai;
  }

  method ValidateOrchardItself(s: Spec, o: Orchard) returns (errs: seq<OrchardRule>)
    requires s.orchard == Some(o) && o.enabled
    ensures forall e: OrchardRule :: e in errs <==> e in {RedbEngine, SetupKey, OrchardIngress} && BreaksOrchard(s, e)
  {
    errs := [];
    if s.database.engine == ENGINE_REDB {
      errs := errs + [RedbEngine];
    }
    var setupKey := ValidateSecretKeySelector(o.setupKeySecretRef, true, SetupKey);
    errs := errs + setupKey;
    var ingress := ValidateIngressConfig(o.ingress);
    NoneBroken(o.ingress, ingress);
    if ingress != [] {
      errs := errs + [OrchardIngress];
    }
  }

  lemma NoneBroken(i: Option<Ingress>, errs: seq<IngressRule>)
    requires forall e: IngressRule :: e in errs <==> BreaksIngress(i, e)
    ensures errs == [] <==> IngressAccepted(i)
  {
    if errs != [] {
      assert errs[0] in errs;
    }
  }

  // ---------------------------------------------------------------- the whole spec

  datatype Part =
    URLPart | DatabasePart | BackendPart | IngressPart | ResourcesPart | BackupPart | ManagementRPCPart | OrchardPart

  predicate DatabaseAccepted(d: Database) {
    forall e: DatabaseRule :: !BreaksDatabase(d, e)
  }

  predicate BackendAccepted(p: PaymentBackend) {
    forall e: BackendRule :: !BreaksBackend(p, e)
  }

  predicate ResourcesAccepted(r: Option<Resources>) {
    r.Some? ==> forall name | name in r.value.limits :: !Exceeds(r.value, name)
  }

  predicate BackupAccepted(s: Spec) {
    forall e: BackupRule :: !BreaksBackup(s, e)
  }

  predicate OrchardAccepted(s: Spec) {
    forall e: OrchardRule :: !BreaksOrchard(s, e)
  }

  predicate Accepted(s: Spec, p: Part) {
    match p
    case URLPart => s.mintInfo.url != ""
    case DatabasePart => DatabaseAccepted(s.database)
    case BackendPart => BackendAccepted(s.paymentBackend)
    case IngressPart => IngressAccepted(s.ingress)
    case ResourcesPart => ResourcesAccepted(s.resources)
    case BackupPart => BackupAccepted(s)
    case ManagementRPCPart => !BreaksManagementRPC(s.managementRPC)
    case OrchardPart => OrchardAccepted(s)
  }

  /** No part of the spec breaks a rule. */
  predicate Valid(s: Spec) {
    && s.mintInfo.url != "" && DatabaseAccepted(s.database) && BackendAccepted(s.paymentBackend)
    && IngressAccepted(s.ingress) && ResourcesAccepted(s.resources) && BackupAccepted(s)
    && !BreaksManagementRPC(s.managementRPC) && OrchardAccepted(s)
  }

  // An empty error list means that no rule is broken.

  method RejectsDatabase(d: Database) returns (rejected: bool)
    ensures rejected <==> !DatabaseAccepted(d)
  {
    var errs := ValidateDatabase(d);
    rejected := errs != [];
    assert rejected ==> errs[0] in errs;
  }

  method RejectsBackend(p: PaymentBackend) returns (rejected: bool)
    ensures rejected <==> !BackendAccepted(p)
  {
    var errs := ValidatePaymentBackend(p);
    rejected := errs != [];
    assert rejected ==> errs[0] in errs;
  }

  method RejectsIngress(i: Option<Ingress>) returns (rejected: bool)
    ensures rejected <==> !IngressAccepted(i)
  {
    var errs := ValidateIngressConfig(i);
    rejected := errs != [];
    NoneBroken(i, errs);
  }

  method RejectsBackup(s: Spec) returns (rejected: bool)
    ensures rejected <==> !BackupAccepted(s)
  {
    var errs := ValidateBackup(s);
    rejected := errs != [];
    assert rejected ==> errs[0] in errs;
  }

  method RejectsOrchard(s: Spec) returns (rejected: bool)
    ensures rejected <==> !OrchardAccepted(s)
  {
    var errs := ValidateOrchard(s);
    rejected := errs != [];
    assert rejected ==> errs[0] in errs;
  }

  lemma NoneRejected(s: Spec, errs: seq<Part>)
    requires forall p: Part :: p in errs <==> !Accepted(s, p)
    ensures errs == [] <==> Valid(s)
  {
    if errs == [] {
      assert Accepted(s, URLPart) && Accepted(s, DatabasePart) && Accepted(s, BackendPart) && Accepted(s, IngressPart);
      assert Accepted(s, ResourcesPart) && Accepted(s, BackupPart) && Accepted(s, ManagementRPCPart)
          && Accepted(s, OrchardPart);
    } else {
      assert errs[0] in errs;
    }
  }

  method RejectedLater(s: Spec) returns (errs: seq<Part>)
    ensures forall p: Part :: p in errs <==>
            p in {ResourcesPart, BackupPart, ManagementRPCPart, OrchardPart} && !Accepted(s, p)
  {
    errs := [];
    var resources := ValidateResources(s.resources);
    if resources.Some? {
      errs := errs + [ResourcesPart];
    }
    var backup := RejectsBackup(s);
    if backup {
      errs := errs + [BackupPart];
    }
    if s.managementRPC.Some? && s.managementRPC.value.tlsSecretName == Some("") {
      errs := errs + [ManagementRPCPart];
    }
    var orchard := RejectsOrchard(s);
    if orchard {
      errs := errs + [OrchardPart];
    }
  }

  /** The parts that are reported are exactly the parts that break a rule. */
  method ValidateCashuMint(s: Spec) returns (errs: seq<Part>)
    ensures forall p: Part :: p in errs <==> !Accepted(s, p)
    ensures errs == [] <==> Valid(s)
  {
    errs := [];
    if s.mintInfo.url == "" {
      errs := errs + [URLPart];
    }
    var database := RejectsDatabase(s.database);
    if database {
      errs := errs + [DatabasePart];
    }
    var backend := RejectsBackend(s.paymentBackend);
    if backend {
      errs := errs + [BackendPart];
    }
    var ingress := RejectsIngress(s.ingress);
    if ingress {
      errs := errs + [IngressPart];
    }
    var later := RejectedLater(s);
    errs := errs + later;
    NoneRejected(s, errs);
  }
}
