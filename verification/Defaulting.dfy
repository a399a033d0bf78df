/** Default of api/v1alpha1/cashumint_webhook.go: six passes that fill the spec in place. Each pass is
    a method proved against a function of the spec, and what the passes do together is proved of the
    functions. */
module Defaulting {
  import opened Options
  import opened MintTypes

  // ---------------------------------------------------------------- what each pass fills in

  function FillQuoteTTL(q: QuoteTTL): QuoteTTL {
    QuoteTTL(OrSome(q.mintTTL, 600), OrSome(q.meltTTL, 120))
  }

  function Fill<T>(o: Option<T>, f: T -> T): Option<T> {
    if o.Some? then Some(f(o.value)) else None
  }

  function MintInfoDefaults(s: Spec): Spec {
    s.(image := Or(s.image, DEFAULT_MINT_IMAGE),
       replicas := OrSome(s.replicas, 1),
       mintInfo := s.mintInfo.(listenHost := ListenHost(s), listenPort := ListenPort(s),
                               quoteTTL := Fill(s.mintInfo.quoteTTL, FillQuoteTTL)))
  }

  function FillProvision(p: AutoProvisionSpec): AutoProvisionSpec {
    AutoProvisionSpec(Or(p.storageSize, DEFAULT_STORAGE_SIZE), Or(p.version, "15"))
  }

  function FillPostgres(pg: Postgres): Postgres {
    pg.(tlsMode := Or(pg.tlsMode, if pg.autoProvision then "disable" else "require"),
        maxConnections := OrSome(pg.maxConnections, 20),
        connectionTimeoutSeconds := OrSome(pg.connectionTimeoutSeconds, 10),
        autoProvisionSpec := if pg.autoProvision then Fill(pg.autoProvisionSpec, FillProvision)
            else pg.autoProvisionSpec)
  }

  function FillSQLite(q: SQLite): SQLite {
    SQLite(Or(q.dataDir, "/data"))
  }

  function FillDatabase(d: Database): Database {
    var engine := Or(d.engine, ENGINE_POSTGRES);
    Database(engine,
             if engine == ENGINE_POSTGRES then Fill(d.postgres, FillPostgres) else d.postgres,
             if engine == ENGINE_SQLITE then Fill(d.sqlite, FillSQLite) else d.sqlite)
  }

  function DatabaseDefaults(s: Spec): Spec {
    s.(database := FillDatabase(s.database))
  }

  function FillCertManager(c: CertManager): CertManager {
    c.(issuerKind := Or(c.issuerKind, DEFAULT_ISSUER_KIND))
  }

  function FillTLS(t: IngressTLS): IngressTLS {
    t.(certManager := Fill(t.certManager, FillCertManager))
  }

  function FillIngress(i: Ingress): Ingress {
    if i.enabled then i.(className := Or(i.className, DEFAULT_INGRESS_CLASS), tls := Fill(i.tls, FillTLS)) else i
  }

  function IngressDefaults(s: Spec): Spec {
    s.(ingress := Fill(s.ingress, FillIngress))
  }

  function FillService(t: Service): Service {
    t.(kind := Or(t.kind, "ClusterIP"))
  }

  function FillStorage(t: Storage): Storage {
    Storage(Or(t.size, DEFAULT_STORAGE_SIZE))
  }

  function NoOrchardMint(): OrchardMint {
    OrchardMint("", "", "", None, None, None, None)
  }

  function FillRPC(r: OrchardRPC, mtls: bool): OrchardRPC {
    OrchardRPC(Or(r.host, DEFAULT_LOOPBACK_HOST), OrNum(r.port, 8086), OrSome(r.mtls, mtls))
  }

  function FillOrchardMint(m: OrchardMint, mtls: bool): OrchardMint {
    m.(kind := Or(m.kind, "cdk"), rpc := if m.rpc.Some? then Some(FillRPC(m.rpc.value, mtls)) else None)
  }

  function FillOrchardServer(o: Orchard, engine: string): Orchard {
    o.(image := Or(o.image, DefaultOrchardImage(engine)),
       imagePullPolicy := Or(o.imagePullPolicy, "IfNotPresent"),
       host := Or(o.host, DEFAULT_LISTEN_HOST),
       port := OrNum(o.port, 3321),
       basePath := Or(o.basePath, "api"),
       logLevel := Or(o.logLevel, "warn"),
       throttleTTL := OrSome(o.throttleTTL, 60000),
       throttleLimit := OrSome(o.throttleLimit, 20))
  }

  function FillOrchardParts(o: Orchard): Orchard {
    o.(storage := Some(FillStorage(GetOr(o.storage, Storage("")))),
       service := Some(FillService(GetOr(o.service, Service("", "")))),
       ingress := Fill(o.ingress, FillIngress))
  }

  function FillOrchardLinks(o: Orchard, mtls: bool): Orchard {
    o.(mint := Some(FillOrchardMint(GetOr(o.mint, NoOrchardMint()), mtls)),
       bitcoin := if o.bitcoin.Some? then Some(o.bitcoin.value.(kind := Or(o.bitcoin.value.kind, "core"))) else None,
       taproot := if o.taproot.Some? then Some(o.taproot.value.(kind := Or(o.taproot.value.kind, "tapd"))) else None)
  }

  function WithManagementRPC(s: Spec): Spec {
    s.(managementRPC := OrSome(s.managementRPC, ManagementRPC(true, "", 0, None)))
  }

  function OrchardDefaults(s: Spec): Spec {
    if !OrchardOn(s) then s
    else
      var o := FillOrchardParts(FillOrchardServer(s.orchard.value, s.database.engine));
      var t := WithManagementRPC(s);
      t.(orchard := Some(FillOrchardLinks(o, ManagementTLSOn(t))))
  }

  function FillLogging(l: Logging): Logging {
    l.(level := Or(l.level, "info"), format := Or(l.format, "json"))
  }

  function FillHTTPCache(c: HTTPCache): HTTPCache {
    c.(backend := Or(c.backend, "memory"), ttl := OrSome(c.ttl, 60), tti := OrSome(c.tti, 60))
  }

  function FillManagementRPC(m: ManagementRPC): ManagementRPC {
    if m.enabled then m.(address := Or(m.address, DEFAULT_LOOPBACK_HOST), port := OrNum(m.port, 8086)) else m
  }

  function FillPrometheus(p: Prometheus): Prometheus {
    if p.enabled then p.(address := Or(p.address, DEFAULT_LISTEN_HOST),
       port := OrSome(p.port, DEFAULT_PROMETHEUS_PORT)) else p
  }

  function FillBackup(b: Backup, mintName: string): Backup {
    if b.enabled then
      b.(schedule := Or(b.schedule, "0 */6 * * *"),
         retentionCount := OrSome(b.retentionCount, 14),
         s3 := if b.s3.Some? then Some(b.s3.value.(prefix := Or(b.s3.value.prefix, mintName))) else None)
    else b
  }

  function FillAuth(a: Auth): Auth {
    if a.enabled then
      a.(mintMaxBat := OrSome(a.mintMaxBat, 50),
         mint := Or(a.mint, "clear"),
         getMintQuote := Or(a.getMintQuote, "clear"),
         checkMintQuote := Or(a.checkMintQuote, "clear"),
         melt := Or(a.melt, "clear"),
         getMeltQuote := Or(a.getMeltQuote, "clear"),
         checkMeltQuote := Or(a.checkMeltQuote, "clear"),
         swap := Or(a.swap, "clear"),
         restore := Or(a.restore, "clear"),
         checkProofState := Or(a.checkProofState, "clear"))
    else a
  }

  function OperationalDefaults(s: Spec, mintName: string): Spec {
    s.(logging := Fill(s.logging, FillLogging),
       storage := Fill(s.storage, FillStorage),
       service := Fill(s.service, FillService),
       httpCache := Fill(s.httpCache, FillHTTPCache),
       managementRPC := Fill(s.managementRPC, FillManagementRPC),
       prometheus := Fill(s.prometheus, FillPrometheus),
       backup := Fill(s.backup, b => FillBackup(b, mintName)),
       auth := Fill(s.auth, FillAuth))
  }

  function OrUnits(units: seq<string>): seq<string> {
    if units == [] then ["sat"] else units
  }

  function FillLND(l: LND): LND {
    l.(feePercent := OrSome(l.feePercent, 40000), reserveFeeMin := OrSome(l.reserveFeeMin, 4))
  }

  function FillCLN(c: CLN): CLN {
    c.(feePercent := OrSome(c.feePercent, 40000), reserveFeeMin := OrSome(c.reserveFeeMin, 4))
  }

  function FillLNBits(l: LNBits): LNBits {
    l.(feePercent := OrSome(l.feePercent, 20000), reserveFeeMin := OrSome(l.reserveFeeMin, 2))
  }

  function FillFakeWallet(f: FakeWallet): FakeWallet {
    FakeWallet(OrUnits(f.supportedUnits), OrSome(f.feePercent, 20000), OrSome(f.reserveFeeMin, 1),
               OrSome(f.minDelayTime, 1), OrSome(f.maxDelayTime, 3))
  }

  function FillSidecar(c: Sidecar): Sidecar {
    if c.enabled then c.(imagePullPolicy := Or(c.imagePullPolicy, "IfNotPresent")) else c
  }

  function FillGRPC(g: GRPCProcessor): GRPCProcessor {
    g.(supportedUnits := OrUnits(g.supportedUnits), port := OrNum(g.port, 50051),
        sidecar := Fill(g.sidecar, FillSidecar))
  }

  function FillLDK(l: LDKNode): LDKNode {
    if l.enabled then
      l.(feePercent := OrSome(l.feePercent, 40000),
         reserveFeeMin := OrSome(l.reserveFeeMin, 4),
         bitcoinNetwork := Or(l.bitcoinNetwork, "signet"),
         chainSourceType := Or(l.chainSourceType, "esplora"),
         host := Or(l.host, DEFAULT_LISTEN_HOST),
         port := OrNum(l.port, 8090),
         gossipSourceType := Or(l.gossipSourceType, "rgs"),
         webserverHost := Or(l.webserverHost, DEFAULT_LOOPBACK_HOST),
         webserverPort := OrNum(l.webserverPort, 8888))
    else l
  }

  function FillBackends(p: PaymentBackend): PaymentBackend {
    p.(lnd := Fill(p.lnd, FillLND), cln := Fill(p.cln, FillCLN), lnbits := Fill(p.lnbits, FillLNBits),
       fakeWallet := Fill(p.fakeWallet, FillFakeWallet), grpc := Fill(p.grpc, FillGRPC))
  }

  function PaymentDefaults(s: Spec): Spec {
    s.(paymentBackend := FillBackends(s.paymentBackend), ldkNode := Fill(s.ldkNode, FillLDK))
  }

  // ---------------------------------------------------------------- the passes together

  datatype Pass = MintInfoPass | DatabasePass | IngressPass | OrchardPass | OperationalPass | PaymentPass

  function Run(p: Pass, s: Spec, mintName: string): Spec {
    match p
    case MintInfoPass => MintInfoDefaults(s)
    case DatabasePass => DatabaseDefaults(s)
    case IngressPass => IngressDefaults(s)
    case OrchardPass => OrchardDefaults(s)
    case OperationalPass => OperationalDefaults(s, mintName)
    case PaymentPass => PaymentDefaults(s)
  }

  function RunAll(passes: seq<Pass>, s: Spec, mintName: string): Spec {
    if passes == [] then s else RunAll(passes[1..], Run(passes[0], s, mintName), mintName)
  }

  function Defaults(s: Spec, mintName: string): Spec {
    PaymentDefaults(OperationalDefaults(OrchardDefaults(IngressDefaults(DatabaseDefaults(MintInfoDefaults(s)))),
        mintName))
  }

  // Filling in twice is filling in once, part by part.

  lemma IngressTwice(i: Ingress)
    ensures FillIngress(FillIngress(i)) == FillIngress(i)
  {}

  lemma DatabaseTwice(d: Database)
    ensures FillDatabase(FillDatabase(d)) == FillDatabase(d)
  {}

  lemma OperationalTwice(s: Spec, mintName: string)
    ensures OperationalDefaults(OperationalDefaults(s, mintName), mintName) == OperationalDefaults(s, mintName)
  {
    if s.backup.Some? {
      BackupTwice(s.backup.value, mintName);
    }
    if s.auth.Some? {
      AuthTwice(s.auth.value);
    }
  }

  lemma BackupTwice(b: Backup, mintName: string)
    ensures FillBackup(FillBackup(b, mintName), mintName) == FillBackup(b, mintName)
  {}

  lemma AuthTwice(a: Auth)
    ensures FillAuth(FillAuth(a)) == FillAuth(a)
  {}

  lemma BackendsTwice(p: PaymentBackend)
    ensures FillBackends(FillBackends(p)) == FillBackends(p)
  {}

  lemma LDKTwice(l: LDKNode)
    ensures FillLDK(FillLDK(l)) == FillLDK(l)
  {}

  predicate OrchardFilled(o: Orchard) {
    && FillOrchardServer(o, ENGINE_POSTGRES) == o == FillOrchardServer(o, ENGINE_SQLITE)
    && FillOrchardParts(o) == o
    && FillOrchardLinks(o, true) == o == FillOrchardLinks(o, false)
  }

  /** The Orchard pass leaves nothing for a later one to fill in, whatever the engine and the
      management RPC are by then. */
  lemma OrchardTwice(o: Orchard, engine: string, mtls: bool)
    requires o.enabled
    ensures OrchardFilled(FillOrchardLinks(FillOrchardParts(FillOrchardServer(o, engine)), mtls))
  {
    if o.ingress.Some? {
      IngressTwice(o.ingress.value);
    }
  }

  lemma FilledOrchardStays(s: Spec)
    requires OrchardOn(s) ==> s.managementRPC.Some? && OrchardFilled(s.orchard.value)
    ensures OrchardDefaults(s) == s
  {
    if OrchardOn(s) {
      var o := s.orchard.value;
      assert FillOrchardServer(o, s.database.engine) == o;
      assert FillOrchardLinks(o, ManagementTLSOn(s)) == o;
    }
  }

  lemma AfterMintInfo(s: Spec)
    ensures MintInfoDefaults(MintInfoDefaults(s)) == MintInfoDefaults(s)
  {}

  /** The spec as Default leaves it, by the pass that last wrote each part. */
  lemma DefaultsByPart(s: Spec, mintName: string)
    ensures var d := Defaults(s, mintName);
            && d.image == MintInfoDefaults(s).image && d.replicas == MintInfoDefaults(s).replicas
            && d.mintInfo == MintInfoDefaults(s).mintInfo
            && d.database == FillDatabase(s.database)
            && d.ingress == Fill(s.ingress, FillIngress)
            && d.paymentBackend == FillBackends(s.paymentBackend)
            && d.ldkNode == Fill(s.ldkNode, FillLDK)
  {}

  lemma DefaultsOrchard(s: Spec, mintName: string)
    ensures var d := Defaults(s, mintName);
            OrchardOn(d) ==> d.managementRPC.Some? && OrchardFilled(d.orchard.value)
  {
    if OrchardOn(s) {
      var t := IngressDefaults(DatabaseDefaults(MintInfoDefaults(s)));
      OrchardTwice(s.orchard.value, t.database.engine, ManagementTLSOn(WithManagementRPC(t)));
    }
  }

  lemma DefaultsOperational(s: Spec, mintName: string)
    ensures OperationalDefaults(Defaults(s, mintName), mintName) == Defaults(s, mintName)
  {
    OperationalTwice(OrchardDefaults(IngressDefaults(DatabaseDefaults(MintInfoDefaults(s)))), mintName);
  }

  lemma DefaultsPayment(s: Spec, mintName: string)
    ensures PaymentDefaults(Defaults(s, mintName)) == Defaults(s, mintName)
  {
    DefaultsByPart(s, mintName);
    BackendsTwice(s.paymentBackend);
    if s.ldkNode.Some? {
      LDKTwice(s.ldkNode.value);
    }
  }

  /** Every pass leaves the result of Default as it is. */
  lemma PassChangesNothing(p: Pass, s: Spec, mintName: string)
    ensures Run(p, Defaults(s, mintName), mintName) == Defaults(s, mintName)
  {
    match p
    case MintInfoPass =>
      DefaultsByPart(s, mintName);
      AfterMintInfo(s);
    case DatabasePass =>
      DefaultsByPart(s, mintName);
      DatabaseTwice(s.database);
    case IngressPass =>
      DefaultsByPart(s, mintName);
      if s.ingress.Some? {
        IngressTwice(s.ingress.value);
      }
    case OrchardPass =>
      DefaultsOrchard(s, mintName);
      FilledOrchardStays(Defaults(s, mintName));
    case OperationalPass => DefaultsOperational(s, mintName);
    case PaymentPass => DefaultsPayment(s, mintName);
  }

  /** So does any number of passes in any order; in particular Default is idempotent. */
  lemma {:induction false} FixedPoint(passes: seq<Pass>, s: Spec, mintName: string)
    ensures RunAll(passes, Defaults(s, mintName), mintName) == Defaults(s, mintName)
  {
    if passes != [] {
      PassChangesNothing(passes[0], s, mintName);
      FixedPoint(passes[1..], s, mintName);
    }
  }

  /** The database pass has to run before the Orchard pass for exactly the specs that leave both the
      engine and the Orchard image to the defaults. */
  lemma DatabaseBeforeOrchard(s: Spec)
    ensures OrchardDefaults(DatabaseDefaults(s)) == DatabaseDefaults(OrchardDefaults(s))
       <==> !(OrchardOn(s) && s.orchard.value.image == "" && s.database.engine == "")
  {}

  /** The Orchard pass has to run before the operational pass exactly when it is the one that turns the
      management RPC on. */
  lemma OrchardBeforeOperational(s: Spec, mintName: string)
    ensures OperationalDefaults(OrchardDefaults(s), mintName) == OrchardDefaults(OperationalDefaults(s, mintName))
       <==> !(OrchardOn(s) && s.managementRPC.None?)
  {}
}
