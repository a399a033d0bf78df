/** The CashuMint custom resource of api/v1alpha1/cashumint_types.go as values. A Go pointer is an
    Option, a zero string or number is "unset" as in the source, int32 and int64 fields are only
    copied, compared and printed and so are plain integers, and a float64 fee is its value in
    millionths, the precision %f prints. Fields the operator passes through unread are left out. */
module MintTypes {
  import opened Options

  const ENGINE_POSTGRES := "postgres"
  const ENGINE_SQLITE := "sqlite"
  const ENGINE_REDB := "redb"

  const DEFAULT_LISTEN_HOST := "0.0.0.0"
  const DEFAULT_LOOPBACK_HOST := "127.0.0.1"
  const DEFAULT_STORAGE_SIZE := "10Gi"
  const DEFAULT_ISSUER_KIND := "ClusterIssuer"
  const DEFAULT_INGRESS_CLASS := "nginx"
  const DEFAULT_MINT_IMAGE := "cashubtc/mintd:0.16"
  const DEFAULT_ORCHARD_SQLITE_IMAGE := "ghcr.io/cashubtc/orchard-mintdb-sqlite:1.8.1"
  const DEFAULT_ORCHARD_POSTGRES_IMAGE := "ghcr.io/cashubtc/orchard-mintdb-postgres:1.8.1"
  const DEFAULT_PROMETHEUS_PORT := 9000

  const BACKEND_LND := "lnd"
  const BACKEND_CLN := "cln"
  const BACKEND_LNBITS := "lnbits"
  const BACKEND_FAKE_WALLET := "fakewallet"
  const BACKEND_GRPC := "grpcprocessor"

  datatype SecretKey = SecretKey(name: string, key: string)

  datatype QuoteTTL = QuoteTTL(mintTTL: Option<int>, meltTTL: Option<int>)

  datatype MintInfo = MintInfo(
    url: string,
    listenHost: string,
    listenPort: int,
    mnemonicSecretRef: Option<SecretKey>,
    autoGenerateMnemonic: bool,
    name: string,
    description: string,
    descriptionLong: string,
    motd: string,
    pubkeyHex: string,
    iconURL: string,
    contactEmail: string,
    contactNostrPubkey: string,
    tosURL: string,
    inputFeePPK: Option<int>,
    useKeysetV2: Option<bool>,
    quoteTTL: Option<QuoteTTL>)

  datatype AutoProvisionSpec = AutoProvisionSpec(storageSize: string, version: string)

  datatype Postgres = Postgres(
    url: string,
    urlSecretRef: Option<SecretKey>,
    tlsMode: string,
    maxConnections: Option<int>,
    connectionTimeoutSeconds: Option<int>,
    autoProvision: bool,
    autoProvisionSpec: Option<AutoProvisionSpec>)

  datatype SQLite = SQLite(dataDir: string)

  datatype Database = Database(engine: string, postgres: Option<Postgres>, sqlite: Option<SQLite>)

  datatype LND = LND(address: string, macaroonSecretRef: Option<SecretKey>, certSecretRef: Option<SecretKey>,
                     feePercent: Option<int>, reserveFeeMin: Option<int>)

  datatype CLN = CLN(rpcPath: string, bolt12: Option<bool>, feePercent: Option<int>, reserveFeeMin: Option<int>)

  datatype LNBits = LNBits(api: string, adminAPIKeySecretRef: SecretKey, invoiceAPIKeySecretRef: SecretKey,
                           retroAPI: bool, feePercent: Option<int>, reserveFeeMin: Option<int>)

  datatype FakeWallet = FakeWallet(supportedUnits: seq<string>, feePercent: Option<int>, reserveFeeMin: Option<int>,
                                   minDelayTime: Option<int>, maxDelayTime: Option<int>)

  datatype Sidecar = Sidecar(enabled: bool, image: string, imagePullPolicy: string, workingDir: string,
                             enableTLS: bool, tlsSecretRef: Option<SecretKey>)

  datatype GRPCProcessor = GRPCProcessor(address: string, port: int, supportedUnits: seq<string>,
                                         tlsSecretRef: Option<SecretKey>, sidecar: Option<Sidecar>)

  datatype PaymentBackend = PaymentBackend(
    minMint: Option<int>,
    maxMint: Option<int>,
    minMelt: Option<int>,
    maxMelt: Option<int>,
    lnd: Option<LND>,
    cln: Option<CLN>,
    lnbits: Option<LNBits>,
    fakeWallet: Option<FakeWallet>,
    grpc: Option<GRPCProcessor>)

  datatype BitcoinRPC = BitcoinRPC(host: string, port: int, userSecretRef: SecretKey, passwordSecretRef: SecretKey)

  datatype LDKNode = LDKNode(
    enabled: bool,
    feePercent: Option<int>,
    reserveFeeMin: Option<int>,
    bitcoinNetwork: string,
    chainSourceType: string,
    esploraURL: string,
    bitcoinRPC: Option<BitcoinRPC>,
    storageDirPath: string,
    logDirPath: string,
    mnemonicSecretRef: Option<SecretKey>,
    host: string,
    port: int,
    announceAddresses: seq<string>,
    gossipSourceType: string,
    rgsURL: string,
    webserverHost: string,
    webserverPort: int)

  datatype Auth = Auth(
    enabled: bool,
    openIDDiscovery: string,
    openIDClientID: string,
    mintMaxBat: Option<int>,
    mint: string,
    getMintQuote: string,
    checkMintQuote: string,
    melt: string,
    getMeltQuote: string,
    checkMeltQuote: string,
    swap: string,
    restore: string,
    checkProofState: string,
    // AuthDatabaseConfig has the one field Postgres; nil at either level means no auth database
    postgres: Option<Postgres>)

  datatype Redis = Redis(keyPrefix: string, connectionString: string, connectionStringSecretRef: Option<SecretKey>)

  datatype HTTPCache = HTTPCache(backend: string, ttl: Option<int>, tti: Option<int>, redis: Option<Redis>)

  datatype ManagementRPC = ManagementRPC(enabled: bool, address: string, port: int, tlsSecretName: Option<string>)

  datatype OrchardRPC = OrchardRPC(host: string, port: int, mtls: Option<bool>)

  datatype OrchardMint = OrchardMint(kind: string, api: string, database: string, caRef: Option<SecretKey>,
                                     certRef: Option<SecretKey>, keyRef: Option<SecretKey>, rpc: Option<OrchardRPC>)

  datatype OrchardBitcoin = OrchardBitcoin(kind: string, rpcHost: string, rpcPort: int,
                                           userRef: Option<SecretKey>, passwordRef: Option<SecretKey>)

  datatype OrchardLightning = OrchardLightning(kind: string, rpcHost: string, rpcPort: int,
                                               macaroonRef: Option<SecretKey>, certRef: Option<SecretKey>,
                                               keyRef: Option<SecretKey>, caRef: Option<SecretKey>)

  datatype OrchardTaproot = OrchardTaproot(kind: string, rpcHost: string, rpcPort: int,
                                           macaroonRef: Option<SecretKey>, certRef: Option<SecretKey>)

  datatype CertManager = CertManager(enabled: bool, issuerName: string, issuerKind: string)

  datatype IngressTLS = IngressTLS(enabled: bool, secretName: string, certManager: Option<CertManager>)

  datatype Ingress = Ingress(enabled: bool, className: string, host: string, tls: Option<IngressTLS>,
                             annotations: map<string, string>)

  datatype Service = Service(kind: string, loadBalancerIP: string)

  datatype Storage = Storage(size: string)

  datatype Orchard = Orchard(
    enabled: bool,
    image: string,
    imagePullPolicy: string,
    host: string,
    port: int,
    basePath: string,
    logLevel: string,
    setupKeySecretRef: Option<SecretKey>,
    throttleTTL: Option<int>,
    throttleLimit: Option<int>,
    mint: Option<OrchardMint>,
    bitcoin: Option<OrchardBitcoin>,
    lightning: Option<OrchardLightning>,
    taproot: Option<OrchardTaproot>,
    aiAPI: Option<string>,
    service: Option<Service>,
    ingress: Option<Ingress>,
    storage: Option<Storage>)

  datatype Prometheus = Prometheus(enabled: bool, address: string, port: Option<int>)

  datatype Limits = Limits(maxInputs: Option<int>, maxOutputs: Option<int>)

  datatype Logging = Logging(level: string, fileLevel: string, format: string)

  datatype S3Backup = S3Backup(bucket: string, prefix: string, accessKeyRef: SecretKey, secretKeyRef: SecretKey)

  datatype Backup = Backup(enabled: bool, schedule: string, retentionCount: Option<int>, s3: Option<S3Backup>)

  // quantities in the smallest unit of each resource
  datatype Resources = Resources(limits: map<string, int>, requests: map<string, int>)

  datatype Spec = Spec(
    image: string,
    replicas: Option<int>,
    mintInfo: MintInfo,
    database: Database,
    paymentBackend: PaymentBackend,
    ldkNode: Option<LDKNode>,
    auth: Option<Auth>,
    httpCache: Option<HTTPCache>,
    managementRPC: Option<ManagementRPC>,
    orchard: Option<Orchard>,
    prometheus: Option<Prometheus>,
    limits: Option<Limits>,
    ingress: Option<Ingress>,
    service: Option<Service>,
    resources: Option<Resources>,
    logging: Option<Logging>,
    storage: Option<Storage>,
    backup: Option<Backup>)

  // ---------------------------------------------------------------- questions asked of a spec

  /** The names of the backends that are set. */
  function Configured(p: PaymentBackend): set<string> {
    (if p.lnd.Some? then {BACKEND_LND} else {})
    + (if p.cln.Some? then {BACKEND_CLN} else {})
    + (if p.lnbits.Some? then {BACKEND_LNBITS} else {})
    + (if p.fakeWallet.Some? then {BACKEND_FAKE_WALLET} else {})
    + (if p.grpc.Some? then {BACKEND_GRPC} else {})
  }

  function ActiveBackend(p: PaymentBackend): string {
    match (p.lnd, p.cln, p.lnbits, p.fakeWallet, p.grpc)
    case (Some(_), None, None, None, None) => BACKEND_LND
    case (None, Some(_), None, None, None) => BACKEND_CLN
    case (None, None, Some(_), None, None) => BACKEND_LNBITS
    case (None, None, None, Some(_), None) => BACKEND_FAKE_WALLET
    case (None, None, None, None, Some(_)) => BACKEND_GRPC
    case _ => ""
  }

  /** The counting loop-free scan of the source: the last backend seen wins unless another was seen. */
  method FindActiveBackend(p: PaymentBackend) returns (result: string)
    ensures result == ActiveBackend(p)
    ensures result != "" ==> Configured(p) == {result}
  {
    var count := 0;
    result := "";
    if p.lnd.Some? {
      count := count + 1;
      result := BACKEND_LND;
    }
    if p.cln.Some? {
      count := count + 1;
      result := BACKEND_CLN;
    }
    if p.lnbits.Some? {
      count := count + 1;
      result := BACKEND_LNBITS;
    }
    if p.fakeWallet.Some? {
      count := count + 1;
      result := BACKEND_FAKE_WALLET;
    }
    if p.grpc.Some? {
      count := count + 1;
      result := BACKEND_GRPC;
    }
    if count != 1 {
      result := "";
    }
  }

  function CountConfigured(p: PaymentBackend): nat {
    (if p.lnd.Some? then 1 else 0) + (if p.cln.Some? then 1 else 0) + (if p.lnbits.Some? then 1 else 0)
    + (if p.fakeWallet.Some? then 1 else 0) + (if p.grpc.Some? then 1 else 0)
  }

  /** The active backend is the one that is set, and there is none unless exactly one is. */
  lemma ActiveIsTheOnlyOne(p: PaymentBackend)
    ensures ActiveBackend(p) != "" <==> CountConfigured(p) == 1
    ensures ActiveBackend(p) != "" ==> Configured(p) == {ActiveBackend(p)}
  {}

  predicate OrchardOn(s: Spec) {
    s.orchard.Some? && s.orchard.value.enabled
  }

  predicate ManagementRPCOn(s: Spec) {
    s.managementRPC.Some? && s.managementRPC.value.enabled
  }

  predicate ManagementTLSOn(s: Spec) {
    ManagementRPCOn(s) && (OrchardOn(s) || s.managementRPC.value.tlsSecretName.Some?)
  }

  function ManagementTLSSecretName(s: Spec, mintName: string): string {
    if s.managementRPC.Some? && s.managementRPC.value.tlsSecretName.Some?
       && s.managementRPC.value.tlsSecretName.value != ""
    then s.managementRPC.value.tlsSecretName.value
    else mintName + "-management-rpc-tls"
  }

  function DefaultOrchardImage(engine: string): string {
    if engine == ENGINE_POSTGRES then DEFAULT_ORCHARD_POSTGRES_IMAGE else DEFAULT_ORCHARD_SQLITE_IMAGE
  }

  predicate AutoProvision(s: Spec) {
    s.database.postgres.Some? && s.database.postgres.value.autoProvision
  }

  predicate UsesPostgres(s: Spec) {
    s.database.engine == ENGINE_POSTGRES && s.database.postgres.Some?
  }

  predicate LocalEngine(s: Spec) {
    s.database.engine == ENGINE_SQLITE || s.database.engine == ENGINE_REDB
  }

  predicate PrometheusOn(s: Spec) {
    s.prometheus.Some? && s.prometheus.value.enabled
  }

  predicate LDKOn(s: Spec) {
    s.ldkNode.Some? && s.ldkNode.value.enabled
  }

  predicate AuthOn(s: Spec) {
    s.auth.Some? && s.auth.value.enabled
  }

  // ---------------------------------------------------------------- "unless set" for the source's zero values

  function Or(s: string, d: string): string {
    if s == "" then d else s
  }

  function OrNum(n: int, d: int): int {
    if n == 0 then d else n
  }

  function OrSome<T>(o: Option<T>, d: T): Option<T> {
    if o.None? then Some(d) else o
  }

  function GetOr<T>(o: Option<T>, d: T): T {
    if o.None? then d else o.value
  }

  // the ports and lists several generators default in the same way
  function ListenPort(s: Spec): int { OrNum(s.mintInfo.listenPort, 8085) }

  function ListenHost(s: Spec): string { Or(s.mintInfo.listenHost, DEFAULT_LISTEN_HOST) }
}
