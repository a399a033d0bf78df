/** The config.toml of internal/controller/generators/configmap.go: what each section holds as a
    function of the spec. */
module ConfigToml {
  import opened Options
  import opened MintTypes
  import opened Text
  import opened Toml
  import opened TomlDoc
  import opened TomlLayout
  import Credentials

  const GRPC_TLS_MOUNT := "/secrets/grpc"
  const MANAGEMENT_TLS_MOUNT := "/secrets/management-rpc-tls"
  const DEFAULT_FEE_MILLIONTHS := 20000

  // ---------------------------------------------------------------- values with a default

  function Units(units: seq<string>): seq<string> {
    if units == [] then ["sat"] else units
  }

  /** The address always carries a scheme, and one that carries it already is left alone. */
  function GRPCAddress(g: GRPCProcessor): (r: string)
    ensures "http://" <= r || "https://" <= r
    ensures "http://" <= g.address || "https://" <= g.address ==> r == g.address
  {
    var a := Or(g.address, "http://127.0.0.1");
    if "http://" <= a || "https://" <= a then a else "http://" + a
  }

  function GRPCPort(g: GRPCProcessor): int {
    OrNum(g.port, 50051)
  }

  function PrometheusPort(p: Prometheus): int {
    GetOr(p.port, DEFAULT_PROMETHEUS_PORT)
  }

  function MainURL(pg: Postgres, mintName: string, password: string): string {
    if pg.autoProvision then Credentials.ConfigURL(password, mintName) else pg.url
  }

  function MainTLSMode(pg: Postgres): string {
    if pg.autoProvision then "disable" else Or(pg.tlsMode, "require")
  }

  // ---------------------------------------------------------------- the key lines of each table

  function InfoSlots(s: Spec): seq<Slot> {
    [Always("url", Str(s.mintInfo.url)),
     Always("listen_host", Str(ListenHost(s))),
     Always("listen_port", Num(ListenPort(s))),
     SetFlag("use_keyset_v2", s.mintInfo.useKeysetV2)]
  }

  function QuoteTTLSlots(q: QuoteTTL): seq<Slot> {
    [SetNumber("mint_ttl", q.mintTTL), SetNumber("melt_ttl", q.meltTTL)]
  }

  function RedisText(c: HTTPCache, f: Redis -> string): string {
    if c.backend == "redis" && c.redis.Some? then f(c.redis.value) else ""
  }

  function HTTPCacheSlots(c: HTTPCache): seq<Slot> {
    [Always("backend", Str(Or(c.backend, "memory"))),
     SetNumber("ttl", c.ttl),
     SetNumber("tti", c.tti)]
    + RedisSlots(c)
  }

  function RedisSlots(c: HTTPCache): seq<Slot> {
    [SetText("key_prefix", RedisText(c, (r: Redis) => r.keyPrefix)),
     SetText("connection_string", RedisText(c, (r: Redis) => r.connectionString))]
  }

  function LoggingSlots(l: Logging): seq<Slot> {
    [Always("output", Str("stderr")), SetText("console_level", l.level), SetText("file_level", l.fileLevel)]
  }

  predicate NoMintInfo(m: MintInfo) {
    m.name == "" && m.description == "" && m.descriptionLong == "" && m.motd == "" && m.pubkeyHex == ""
    && m.iconURL == "" && m.contactEmail == "" && m.contactNostrPubkey == "" && m.tosURL == "" && m.inputFeePPK.None?
  }

  function MintInfoSlots(m: MintInfo): seq<Slot> {
    NamingSlots(m) + ContactSlots(m)
  }

  function NamingSlots(m: MintInfo): seq<Slot> {
    [SetText("name", m.name),
     SetText("description", m.description),
     SetText("description_long", m.descriptionLong),
     SetText("motd", m.motd),
     SetText("pubkey", m.pubkeyHex)]
  }

  function ContactSlots(m: MintInfo): seq<Slot> {
    [SetText("icon_url", m.iconURL),
     SetText("contact_email", m.contactEmail),
     SetText("contact_nostr_public_key", m.contactNostrPubkey),
     SetText("tos_url", m.tosURL),
     SetNumber("input_fee_ppk", m.inputFeePPK)]
  }

  function PostgresSlots(pg: Postgres, mintName: string, password: string): seq<Slot> {
    [SetText("url", MainURL(pg, mintName, password)),
     Always("tls_mode", Str(MainTLSMode(pg))),
     SetNumber("max_connections", pg.maxConnections),
     SetNumber("connection_timeout_seconds", pg.connectionTimeoutSeconds)]
  }

  function AuthPostgresSlots(pg: Postgres): seq<Slot> {
    [Always("url", Str(pg.url)),
     Always("tls_mode", Str(Or(pg.tlsMode, "disable"))),
     SetNumber("max_connections", pg.maxConnections),
     SetNumber("connection_timeout_seconds", pg.connectionTimeoutSeconds)]
  }

  function LnSlots(p: PaymentBackend): seq<Slot> {
    [Always("ln_backend", Str(ActiveBackend(p))),
     SetNumber("min_mint", p.minMint),
     SetNumber("max_mint", p.maxMint),
     SetNumber("min_melt", p.minMelt),
     SetNumber("max_melt", p.maxMelt)]
  }

  function LNDSlots(l: LND): seq<Slot> {
    [Always("address", Str(l.address)),
     When(l.macaroonSecretRef.Some?, "macaroon_file", Str("/secrets/lnd/macaroon")),
     When(l.certSecretRef.Some?, "cert_file", Str("/secrets/lnd/cert")),
     SetFee("fee_percent", l.feePercent),
     SetNumber("reserve_fee_min", l.reserveFeeMin)]
  }

  function CLNSlots(c: CLN): seq<Slot> {
    [Always("rpc_path", Str(c.rpcPath)),
     SetFlag("bolt12", c.bolt12),
     SetFee("fee_percent", c.feePercent),
     SetNumber("reserve_fee_min", c.reserveFeeMin)]
  }

  function LNBitsSlots(l: LNBits): seq<Slot> {
    [Always("lnbits_api", Str(l.api)),
     When(l.retroAPI, "retro_api", Flag(true)),
     SetFee("fee_percent", l.feePercent),
     SetNumber("reserve_fee_min", l.reserveFeeMin)]
  }

  function FakeWalletSlots(f: FakeWallet): seq<Slot> {
    [Always("supported_units", Strs(Units(f.supportedUnits))),
     Always("fee_percent", Fixed(GetOr(f.feePercent, DEFAULT_FEE_MILLIONTHS))),
     Always("reserve_fee_min", Num(GetOr(f.reserveFeeMin, 1))),
     Always("min_delay_time", Num(GetOr(f.minDelayTime, 1))),
     Always("max_delay_time", Num(GetOr(f.maxDelayTime, 3)))]
  }

  function GRPCSlots(g: GRPCProcessor): seq<Slot> {
    [Always("addr", Str(GRPCAddress(g))),
     Always("port", Num(GRPCPort(g))),
     Always("supported_units", Strs(Units(g.supportedUnits))),
     When(g.tlsSecretRef.Some?, "tls_dir", Str(GRPC_TLS_MOUNT))]
  }

  function LDKSlots(l: LDKNode): seq<Slot> {
    LDKChainSlots(l) + BitcoinRPCSlots(l) + LDKNodeSlots(l) + LDKGossipSlots(l)
  }

  function LDKChainSlots(l: LDKNode): seq<Slot> {
    [SetFee("fee_percent", l.feePercent),
     SetNumber("reserve_fee_min", l.reserveFeeMin),
     Always("bitcoin_network", Str(l.bitcoinNetwork)),
     Always("chain_source", Str(l.chainSourceType)),
     SetText("esplora_url", l.esploraURL)]
  }

  function BitcoinRPCSlots(l: LDKNode): seq<Slot> {
    [When(l.bitcoinRPC.Some?, "bitcoin_rpc_host", Str(if l.bitcoinRPC.Some? then l.bitcoinRPC.value.host else "")),
     When(l.bitcoinRPC.Some?, "bitcoin_rpc_port", Num(if l.bitcoinRPC.Some? then l.bitcoinRPC.value.port else 0))]
  }

  function LDKNodeSlots(l: LDKNode): seq<Slot> {
    [SetText("storage_dir_path", l.storageDirPath),
     SetText("log_dir_path", l.logDirPath),
     Always("ldk_node_host", Str(Or(l.host, DEFAULT_LISTEN_HOST))),
     Always("ldk_node_port", Num(OrNum(l.port, 8090))),
     When(l.announceAddresses != [], "announce_addresses", Strs(l.announceAddresses))]
  }

  function LDKGossipSlots(l: LDKNode): seq<Slot> {
    [Always("gossip_source", Str(l.gossipSourceType)),
     SetText("rgs_url", l.rgsURL),
     Always("webserver_host", Str(Or(l.webserverHost, DEFAULT_LOOPBACK_HOST))),
     Always("webserver_port", Num(OrNum(l.webserverPort, 8888)))]
  }

  function AuthSlots(a: Auth): seq<Slot> {
    OpenIDSlots(a) + MintLevelSlots(a) + SwapLevelSlots(a)
  }

  function OpenIDSlots(a: Auth): seq<Slot> {
    [Always("auth_enabled", Flag(true)),
     SetText("openid_discovery", a.openIDDiscovery),
     SetText("openid_client_id", a.openIDClientID),
     SetNumber("mint_max_bat", a.mintMaxBat)]
  }

  function MintLevelSlots(a: Auth): seq<Slot> {
    [SetText("mint", a.mint),
     SetText("get_mint_quote", a.getMintQuote),
     SetText("check_mint_quote", a.checkMintQuote),
     SetText("melt", a.melt),
     SetText("get_melt_quote", a.getMeltQuote)]
  }

  function SwapLevelSlots(a: Auth): seq<Slot> {
    [SetText("check_melt_quote", a.checkMeltQuote),
     SetText("swap", a.swap),
     SetText("restore", a.restore),
     SetText("check_proof_state", a.checkProofState)]
  }

  function ManagementRPCSlots(s: Spec): seq<Slot>
    requires ManagementRPCOn(s)
  {
    [Always("enabled", Flag(true)),
     Always("address", Str(Or(s.managementRPC.value.address, DEFAULT_LOOPBACK_HOST))),
     Always("port", Num(OrNum(s.managementRPC.value.port, 8086))),
     When(ManagementTLSOn(s), "tls_dir_path", Str(MANAGEMENT_TLS_MOUNT))]
  }

  function LimitsSlots(l: Limits): seq<Slot> {
    [SetNumber("max_inputs", l.maxInputs), SetNumber("max_outputs", l.maxOutputs)]
  }

  function PrometheusSlots(p: Prometheus): seq<Slot> {
    [Always("enabled", Flag(true)),
     Always("address", Str(Or(p.address, DEFAULT_LISTEN_HOST))),
     Always("port", Num(PrometheusPort(p)))]
  }

  // ---------------------------------------------------------------- the tables

  function OptionalSlots<T>(o: Option<T>, f: T -> seq<Slot>): Option<seq<Slot>> {
    if o.Some? then Some(f(o.value)) else None
  }

  function InfoSections(s: Spec): seq<Section> {
    [Section(["info"], Some(InfoSlots(s))),
     Section(["info", "quote_ttl"], OptionalSlots(s.mintInfo.quoteTTL, QuoteTTLSlots)),
     Section(["info", "http_cache"], OptionalSlots(s.httpCache, HTTPCacheSlots)),
     Section(["info", "logging"], OptionalSlots(s.logging, LoggingSlots))]
  }

  function MintInfoSection(s: Spec): Section {
    Section(["mint_info"], if NoMintInfo(s.mintInfo) then None else Some(MintInfoSlots(s.mintInfo)))
  }

  function DatabaseSections(s: Spec, mintName: string, password: string): seq<Section> {
    [Section(["database"], Some([Always("engine", Str(s.database.engine))])),
     Section(["database", "postgres"],
             if UsesPostgres(s) then Some(PostgresSlots(s.database.postgres.value, mintName, password)) else None),
     Section(["auth_database", "postgres"],
             if AuthOn(s) && s.auth.value.postgres.Some? then Some(AuthPostgresSlots(s.auth.value.postgres.value))
                else None)]
  }

  function BackendSlots<T>(p: PaymentBackend, backend: string, o: Option<T>, f: T -> seq<Slot>): Option<seq<Slot>> {
    if ActiveBackend(p) == backend then OptionalSlots(o, f) else None
  }

  function PaymentSections(p: PaymentBackend): seq<Section> {
    [Section(["ln"], Some(LnSlots(p))),
     Section(["lnd"], BackendSlots(p, BACKEND_LND, p.lnd, LNDSlots)),
     Section(["cln"], BackendSlots(p, BACKEND_CLN, p.cln, CLNSlots)),
     Section(["lnbits"], BackendSlots(p, BACKEND_LNBITS, p.lnbits, LNBitsSlots)),
     Section(["fake_wallet"], BackendSlots(p, BACKEND_FAKE_WALLET, p.fakeWallet, FakeWalletSlots)),
     Section(["grpc_processor"], BackendSlots(p, BACKEND_GRPC, p.grpc, GRPCSlots))]
  }

  function LDKSection(s: Spec): Section {
    Section(["ldk_node"], if LDKOn(s) then Some(LDKSlots(s.ldkNode.value)) else None)
  }

  function AuthSection(s: Spec): Section {
    Section(["auth"], if AuthOn(s) then Some(AuthSlots(s.auth.value)) else None)
  }

  function ManagementRPCSection(s: Spec): Section {
    Section(["mint_management_rpc"], if ManagementRPCOn(s) then Some(ManagementRPCSlots(s)) else None)
  }

  function LimitsSection(s: Spec): Section {
    Section(["limits"], OptionalSlots(s.limits, LimitsSlots))
  }

  function PrometheusSection(s: Spec): Section {
    Section(["prometheus"], if PrometheusOn(s) then Some(PrometheusSlots(s.prometheus.value)) else None)
  }

  function LaterSections(s: Spec): seq<Section> {
    [LDKSection(s), AuthSection(s), ManagementRPCSection(s), LimitsSection(s), PrometheusSection(s)]
  }

  function AllSections(s: Spec, mintName: string, password: string): seq<Section> {
    InfoSections(s) + [MintInfoSection(s)] + DatabaseSections(s, mintName, password)
    + PaymentSections(s.paymentBackend) + LaterSections(s)
  }

  /** The settings of a mint: what config.toml is meant to say. */
  function ConfigDoc(s: Spec, mintName: string, password: string): Doc {
    DocOf(AllSections(s, mintName, password))
  }

  function ConfigText(isPrint: char -> bool, s: Spec, mintName: string, password: string): string {
    DocText(isPrint, ConfigDoc(s, mintName, password))
  }
}
