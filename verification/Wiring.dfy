/** Settings that reach mintd twice, through its environment and through config.toml, are the same. */
module Wiring {
  import opened Options
  import opened MintTypes
  import opened Choices
  import opened Toml
  import opened TomlDoc
  import opened TomlLayout
  import opened ConfigToml
  import opened ConfigMeaning
  import opened Pod
  import opened Env
  import opened Defaulting

  /** What a process finds under a name: the last definition wins. */
  function EnvOf(vars: seq<EnvVar>, name: string): Option<EnvValue> {
    if vars == [] then None
    else if vars[|vars| - 1].name == name then Some(vars[|vars| - 1].value)
    else EnvOf(vars[..|vars| - 1], name)
  }

  lemma EnvOfNext(vars: seq<EnvVar>, v: EnvVar, name: string)
    ensures EnvOf(vars + [v], name) == if v.name == name then Some(v.value) else EnvOf(vars, name)
  {
    assert (vars + [v])[..|vars|] == vars;
  }

  predicate Distinct(cs: seq<Choice<EnvVar>>) {
    forall i, j | 0 <= i < j < |cs| :: cs[i].item.name != cs[j].item.name
  }

  lemma {:induction false} EnvAbsent(cs: seq<Choice<EnvVar>>, name: string)
    requires forall i | 0 <= i < |cs| :: cs[i].item.name != name
    ensures EnvOf(Chosen(cs), name) == None
  {
    if cs != [] {
      var front, last := cs[..|cs| - 1], cs[|cs| - 1];
      EnvAbsent(front, name);
      EnvOfNext(Chosen(front), last.item, name);
      assert Chosen(front) + [] == Chosen(front);
    }
  }

  lemma {:induction false} EnvAt(cs: seq<Choice<EnvVar>>, k: nat)
    requires Distinct(cs) && k < |cs|
    ensures EnvOf(Chosen(cs), cs[k].item.name) == if cs[k].on then Some(cs[k].item.value) else None
  {
    var front, last := cs[..|cs| - 1], cs[|cs| - 1];
    EnvOfNext(Chosen(front), last.item, cs[k].item.name);
    assert Chosen(front) + [] == Chosen(front);
    if k < |front| {
      EnvAt(front, k);
      assert front[k] == cs[k] && cs[k].item.name != cs[|cs| - 1].item.name;
    } else {
      EnvAbsent(front, last.item.name);
    }
  }

  const ENV_NAMES: seq<string> :=
    ["CDK_MINTD_WORK_DIR", "HOME", "CDK_MINTD_LN_BACKEND", "CDK_MINTD_URL", "CDK_MINTD_LISTEN_HOST",
     "CDK_MINTD_LISTEN_PORT", "CDK_MINTD_DATABASE", "CDK_MINTD_LOGGING_OUTPUT", "RUST_LOG",
     "CDK_MINTD_LOGGING_CONSOLE_LEVEL", "CDK_MINTD_LOGGING_FILE_LEVEL", "CDK_MINTD_MNEMONIC",
     "CDK_MINTD_MINT_MANAGEMENT_ENABLED", "CDK_MINTD_MANAGEMENT_ADDRESS", "CDK_MINTD_MANAGEMENT_PORT",
     "CDK_MINTD_MANAGEMENT_TLS_DIR_PATH", "CDK_MINTD_PROMETHEUS_ENABLED", "LNBITS_ADMIN_API_KEY",
     "LNBITS_INVOICE_API_KEY", "CDK_MINTD_GRPC_PAYMENT_PROCESSOR_SUPPORTED_UNITS",
     "CDK_MINTD_GRPC_PAYMENT_PROCESSOR_ADDRESS", "CDK_MINTD_GRPC_PAYMENT_PROCESSOR_PORT",
     "CDK_MINTD_GRPC_PAYMENT_PROCESSOR_TLS_DIR", "BITCOIN_RPC_USER", "BITCOIN_RPC_PASSWORD",
     "CDK_LDK_NODE_MNEMONIC", "REDIS_CONNECTION_STRING"]

  lemma EnvNamesDistinct()
    ensures forall i, j | 0 <= i < j < 27 :: ENV_NAMES[i] != ENV_NAMES[j]
  {}

  lemma EarlyEnv(s: Spec, mintName: string)
    ensures forall i | 0 <= i < 8 :: CoreEnv(s)[i].item.name == ENV_NAMES[i]
    ensures forall i | 0 <= i < 3 :: LoggingEnv(s)[i].item.name == ENV_NAMES[8 + i]
    ensures MnemonicEnv(s, mintName)[0].item.name == ENV_NAMES[11]
    ensures forall i | 0 <= i < 4 :: ManagementEnv(s)[i].item.name == ENV_NAMES[12 + i]
  {}

  lemma LateEnv(s: Spec)
    ensures PrometheusEnv(s)[0].item.name == ENV_NAMES[16]
    ensures forall i | 0 <= i < 2 :: LNBitsEnv(s)[i].item.name == ENV_NAMES[17 + i]
    ensures forall i | 0 <= i < 4 :: GRPCEnv(s)[i].item.name == ENV_NAMES[19 + i]
    ensures forall i | 0 <= i < 3 :: LDKEnv(s)[i].item.name == ENV_NAMES[23 + i]
    ensures CacheEnv(s)[0].item.name == ENV_NAMES[26]
  {}

  lemma EnvIndex(s: Spec, mintName: string)
    ensures var cs := MintEnv(s, mintName);
            && |cs| == 27
            && (forall i | 0 <= i < 8 :: cs[i] == CoreEnv(s)[i])
            && (forall i | 8 <= i < 11 :: cs[i] == LoggingEnv(s)[i - 8])
            && cs[11] == MnemonicEnv(s, mintName)[0]
            && (forall i | 12 <= i < 16 :: cs[i] == ManagementEnv(s)[i - 12])
            && cs[16] == PrometheusEnv(s)[0]
            && (forall i | 17 <= i < 19 :: cs[i] == LNBitsEnv(s)[i - 17])
            && (forall i | 19 <= i < 23 :: cs[i] == GRPCEnv(s)[i - 19])
            && (forall i | 23 <= i < 26 :: cs[i] == LDKEnv(s)[i - 23])
            && cs[26] == CacheEnv(s)[0]
  {}

  /** No variable is defined twice. */
  lemma EnvDistinct(s: Spec, mintName: string)
    ensures |MintEnv(s, mintName)| == 27 && Distinct(MintEnv(s, mintName))
    ensures forall i | 0 <= i < 27 :: MintEnv(s, mintName)[i].item.name == ENV_NAMES[i]
  {
    EnvIndex(s, mintName);
    EarlyEnv(s, mintName);
    LateEnv(s);
    EnvNamesDistinct();
  }

  // ---------------------------------------------------------------- the same setting in both places

  /** A value of config.toml as the environment spells it. */
  function EnvText(v: Value): string {
    match v
    case Str(t) => t
    case Num(n) => NumText(n)
    case Flag(b) => if b then "true" else "false"
    case Fixed(m) => FixedText(m)
    case Strs(elems) => Commas(elems)
  }

  /** The settings given in both places. */
  datatype Shared =
    | LnBackend | URL | Host | Port | Engine
    | LogOutput | ConsoleLevel | FileLevel
    | RPCEnabled | RPCAddress | RPCPort | RPCTLSDir
    | PrometheusEnabled
    | GRPCUnits | GRPCAddr | GRPCPortNumber | GRPCTLSDir

  function EnvNo(x: Shared): (k: nat)
    ensures k < 27
  {
    match x
    case LnBackend => 2 case URL => 3 case Host => 4 case Port => 5 case Engine => 6
    case LogOutput => 7 case ConsoleLevel => 9 case FileLevel => 10
    case RPCEnabled => 12 case RPCAddress => 13 case RPCPort => 14 case RPCTLSDir => 15
    case PrometheusEnabled => 16
    case GRPCUnits => 19 case GRPCAddr => 20 case GRPCPortNumber => 21 case GRPCTLSDir => 22
  }

  function SectionNo(x: Shared): (i: nat)
    ensures i < 19
  {
    match x
    case LnBackend => 8 case URL => 0 case Host => 0 case Port => 0 case Engine => 5
    case LogOutput => 3 case ConsoleLevel => 3 case FileLevel => 3
    case RPCEnabled => 16 case RPCAddress => 16 case RPCPort => 16 case RPCTLSDir => 16
    case PrometheusEnabled => 18
    case GRPCUnits => 13 case GRPCAddr => 13 case GRPCPortNumber => 13 case GRPCTLSDir => 13
  }

  function SlotNo(x: Shared): nat {
    match x
    case LnBackend => 0 case URL => 0 case Host => 1 case Port => 2 case Engine => 0
    case LogOutput => 0 case ConsoleLevel => 1 case FileLevel => 2
    case RPCEnabled => 0 case RPCAddress => 1 case RPCPort => 2 case RPCTLSDir => 3
    case PrometheusEnabled => 0
    case GRPCUnits => 2 case GRPCAddr => 0 case GRPCPortNumber => 1 case GRPCTLSDir => 3
  }

  function KeyName(x: Shared): string {
    match x
    case LnBackend => "ln_backend" case URL => "url" case Host => "listen_host" case Port => "listen_port"
    case Engine => "engine" case LogOutput => "output" case ConsoleLevel => "console_level"
    case FileLevel => "file_level" case RPCEnabled => "enabled" case RPCAddress => "address" case RPCPort => "port"
    case RPCTLSDir => "tls_dir_path" case PrometheusEnabled => "enabled" case GRPCUnits => "supported_units"
    case GRPCAddr => "addr" case GRPCPortNumber => "port" case GRPCTLSDir => "tls_dir"
  }

  /** What the process finds in its environment. */
  function Setting(s: Spec, mintName: string, x: Shared): Option<EnvValue> {
    EnvOf(Chosen(MintEnv(s, mintName)), ENV_NAMES[EnvNo(x)])
  }

  /** What a reader of the file finds. */
  function Configured(s: Spec, mintName: string, password: string, x: Shared): Option<Value> {
    Lookup(ConfigDoc(s, mintName, password), TablePath(SectionNo(x)), KeyName(x))
  }

  /** A key of the file has the variable with the same text, and the variable is set only when the file
      has the key, except for the log output, which mintd needs in any case. */
  predicate Agrees(env: Option<EnvValue>, v: Option<Value>, x: Shared) {
    && (v.Some? ==> env == Some(Literal(EnvText(v.value))))
    && (!x.LogOutput? && env.Some? ==> v.Some?)
  }

  function SlotOf(section: Section, j: nat): Option<Value> {
    if section.slots.Some? && j < |section.slots.value| then section.slots.value[j].value else None
  }

  function EnvChoice(c: Choice<EnvVar>): Option<EnvValue> {
    if c.on then Some(c.item.value) else None
  }

  lemma EnvSide(s: Spec, mintName: string, x: Shared)
    ensures |MintEnv(s, mintName)| == 27
    ensures Setting(s, mintName, x) == EnvChoice(MintEnv(s, mintName)[EnvNo(x)])
  {
    EnvDistinct(s, mintName);
    EnvAt(MintEnv(s, mintName), EnvNo(x));
  }

  predicate HasKey(section: Section, j: nat, key: string) {
    section.slots.Some? ==> j < |section.slots.value| && section.slots.value[j].key == key
  }

  lemma FileSide(s: Spec, mintName: string, password: string, x: Shared)
    requires |AllSections(s, mintName, password)| == 19
    requires HasKey(AllSections(s, mintName, password)[SectionNo(x)], SlotNo(x), KeyName(x))
    ensures Configured(s, mintName, password, x) == SlotOf(AllSections(s, mintName, password)[SectionNo(x)], SlotNo(x))
  {
    var ss := AllSections(s, mintName, password);
    LayoutGood(s, mintName, password);
    SectionPaths(s, mintName, password);
    if ss[SectionNo(x)].slots.Some? {
      SlotLookup(ss, SectionNo(x), SlotNo(x));
    } else {
      MissingLookup(ss, SectionNo(x), KeyName(x));
    }
  }

  predicate Core(x: Shared) { x.LnBackend? || x.URL? || x.Host? || x.Port? || x.Engine? }

  predicate Log(x: Shared) { x.LogOutput? || x.ConsoleLevel? || x.FileLevel? }

  predicate RPC(x: Shared) { x.RPCEnabled? || x.RPCAddress? || x.RPCPort? || x.RPCTLSDir? }

  predicate GRPC(x: Shared) { x.GRPCUnits? || x.GRPCAddr? || x.GRPCPortNumber? || x.GRPCTLSDir? }

  // The two candidates before anything is chosen, block by block.

  function CoreSection(s: Spec, x: Shared): Section {
    if x.LnBackend? then PaymentSections(s.paymentBackend)[0]
    else if x.Engine? then DatabaseSections(s, "", "")[0] else InfoSections(s)[0]
  }

  lemma CoreMatch(s: Spec, x: Shared)
    requires Core(x)
    ensures EnvNo(x) < 8 && HasKey(CoreSection(s, x), SlotNo(x), KeyName(x))
    ensures Agrees(EnvChoice(CoreEnv(s)[EnvNo(x)]), SlotOf(CoreSection(s, x), SlotNo(x)), x)
  {}

  lemma LogMatch(s: Spec, x: Shared)
    requires Log(x)
    ensures HasKey(InfoSections(s)[3], SlotNo(x), KeyName(x))
    ensures Agrees(EnvChoice(if x.LogOutput? then CoreEnv(s)[7] else LoggingEnv(s)[EnvNo(x) - 8]),
                   SlotOf(InfoSections(s)[3], SlotNo(x)), x)
  {}

  lemma RPCMatch(s: Spec, x: Shared)
    requires RPC(x)
    ensures HasKey(ManagementRPCSection(s), SlotNo(x), KeyName(x))
    ensures Agrees(EnvChoice(ManagementEnv(s)[EnvNo(x) - 12]), SlotOf(ManagementRPCSection(s), SlotNo(x)), x)
  {}

  lemma PrometheusMatch(s: Spec, x: Shared)
    requires x.PrometheusEnabled?
    ensures HasKey(PrometheusSection(s), SlotNo(x), KeyName(x))
    ensures Agrees(EnvChoice(PrometheusEnv(s)[0]), SlotOf(PrometheusSection(s), SlotNo(x)), x)
  {}

  lemma GRPCMatch(s: Spec, x: Shared)
    requires GRPC(x)
    ensures HasKey(PaymentSections(s.paymentBackend)[5], SlotNo(x), KeyName(x))
    ensures Agrees(EnvChoice(GRPCEnv(s)[EnvNo(x) - 19]), SlotOf(PaymentSections(s.paymentBackend)[5], SlotNo(x)), x)
  {}

  function SharedSection(s: Spec, x: Shared): Section {
    if Core(x) then CoreSection(s, x)
    else if Log(x) then InfoSections(s)[3]
    else if RPC(x) then ManagementRPCSection(s)
    else if x.PrometheusEnabled? then PrometheusSection(s)
    else PaymentSections(s.paymentBackend)[5]
  }

  function SharedEnv(s: Spec, x: Shared): Choice<EnvVar> {
    if Core(x) || x.LogOutput? then CoreEnv(s)[EnvNo(x)]
    else if Log(x) then LoggingEnv(s)[EnvNo(x) - 8]
    else if RPC(x) then ManagementEnv(s)[EnvNo(x) - 12]
    else if x.PrometheusEnabled? then PrometheusEnv(s)[0]
    else GRPCEnv(s)[EnvNo(x) - 19]
  }

  lemma SharedMatch(s: Spec, x: Shared)
    ensures HasKey(SharedSection(s, x), SlotNo(x), KeyName(x))
    ensures Agrees(EnvChoice(SharedEnv(s, x)), SlotOf(SharedSection(s, x), SlotNo(x)), x)
  {
    if Core(x) {
      CoreMatch(s, x);
    } else if Log(x) {
      LogMatch(s, x);
    } else if RPC(x) {
      RPCMatch(s, x);
    } else if x.PrometheusEnabled? {
      PrometheusMatch(s, x);
    } else {
      GRPCMatch(s, x);
    }
  }

  lemma SharedInFile(s: Spec, mintName: string, password: string, x: Shared)
    ensures |AllSections(s, mintName, password)| == 19
    ensures AllSections(s, mintName, password)[SectionNo(x)] == SharedSection(s, x)
  {
    SectionAt(s, mintName, password);
  }

  lemma SharedInEnv(s: Spec, mintName: string, x: Shared)
    ensures |MintEnv(s, mintName)| == 27 && MintEnv(s, mintName)[EnvNo(x)] == SharedEnv(s, x)
  {
    EnvIndex(s, mintName);
  }

  /** For every spec, each setting given in both places is the same in both. */
  lemma WiringAgrees(s: Spec, mintName: string, password: string, x: Shared)
    ensures Agrees(Setting(s, mintName, x), Configured(s, mintName, password, x), x)
  {
    SharedMatch(s, x);
    SharedInFile(s, mintName, password, x);
    SharedInEnv(s, mintName, x);
    EnvSide(s, mintName, x);
    FileSide(s, mintName, password, x);
  }

  function RedisSetting(s: Spec, mintName: string): Option<EnvValue> {
    EnvOf(Chosen(MintEnv(s, mintName)), "REDIS_CONNECTION_STRING")
  }

  function RedisLine(s: Spec, mintName: string, password: string): Option<Value> {
    Lookup(ConfigDoc(s, mintName, password), ["info", "http_cache"], "connection_string")
  }

  lemma RedisInEnv(s: Spec, mintName: string)
    ensures RedisSetting(s, mintName) == EnvChoice(CacheEnv(s)[0])
  {
    EnvIndex(s, mintName);
    EnvDistinct(s, mintName);
    EnvAt(MintEnv(s, mintName), 26);
  }

  lemma RedisConfigured(s: Spec, mintName: string, password: string)
    ensures RedisLine(s, mintName, password) == if RedisString(s) != "" then Some(Str(RedisString(s))) else None
  {
    var ss := AllSections(s, mintName, password);
    SectionAt(s, mintName, password);
    LayoutGood(s, mintName, password);
    if s.httpCache.Some? {
      assert ss[2].slots.value == HTTPCacheSlots(s.httpCache.value);
      SlotLookup(ss, 2, 4);
    } else {
      MissingLookup(ss, 2, "connection_string");
    }
  }

  /** The one setting that can differ: a Redis connection string given directly and from a Secret. */
  lemma RedisAgrees(s: Spec, mintName: string, password: string)
    ensures (RedisLine(s, mintName, password).Some? ==>
               RedisSetting(s, mintName) == Some(Literal(EnvText(RedisLine(s, mintName, password).value))))
       <==> !(RedisRef(s).Some? && RedisString(s) != "")
  {
    RedisInEnv(s, mintName);
    RedisConfigured(s, mintName, password);
  }

  // ---------------------------------------------------------------- with and without the webhook

  lemma SameProcessor(s: Spec, mintName: string)
    ensures var p, d := s.paymentBackend, FillBackends(s.paymentBackend);
            && PaymentSections(d)[4] == PaymentSections(p)[4]
            && PaymentSections(d)[5] == PaymentSections(p)[5]
            && ActiveBackend(d) == ActiveBackend(p)
  {}

  lemma SameGRPCEnv(s: Spec, mintName: string)
    ensures GRPCEnv(Defaults(s, mintName)) == GRPCEnv(s)
  {
    DefaultsByPart(s, mintName);
    var d := Defaults(s, mintName);
    assert GRPCTLS(d) == GRPCTLS(s) && GRPCActive(d) == GRPCActive(s);
    if GRPCActive(s) {
      SameUnits(Processor(s));
    }
  }

  lemma SameUnits(g: GRPCProcessor)
    ensures Units(FillGRPC(g).supportedUnits) == Units(g.supportedUnits)
    ensures GRPCAddress(FillGRPC(g)) == GRPCAddress(g) && GRPCPort(FillGRPC(g)) == GRPCPort(g)
  {}

  lemma SameListen(s: Spec, mintName: string)
    ensures var d := Defaults(s, mintName);
            d.mintInfo.url == s.mintInfo.url && ListenHost(d) == ListenHost(s) && ListenPort(d) == ListenPort(s)
  {
    DefaultsByPart(s, mintName);
  }

  lemma SamePrometheus(s: Spec, mintName: string)
    ensures var d := Defaults(s, mintName);
            PrometheusSection(d) == PrometheusSection(s) && PrometheusEnv(d) == PrometheusEnv(s)
  {
    PrometheusByPart(s, mintName);
  }

  lemma PrometheusByPart(s: Spec, mintName: string)
    ensures Defaults(s, mintName).prometheus == Fill(s.prometheus, FillPrometheus)
  {}

  /** The listen address, the fake wallet, the gRPC processor and Prometheus come out the same whether
      or not Default ran. */
  lemma SameWithoutDefault(s: Spec, mintName: string)
    ensures var d := Defaults(s, mintName);
            && (forall i | 0 <= i < 3 :: InfoSlots(d)[i] == InfoSlots(s)[i])
            && PaymentSections(d.paymentBackend)[4] == PaymentSections(s.paymentBackend)[4]
            && PaymentSections(d.paymentBackend)[5] == PaymentSections(s.paymentBackend)[5]
            && PrometheusSection(d) == PrometheusSection(s)
            && PrometheusEnv(d) == PrometheusEnv(s) && GRPCEnv(d) == GRPCEnv(s)
  {
    DefaultsByPart(s, mintName);
    SameListen(s, mintName);
    SameProcessor(s, mintName);
    SameGRPCEnv(s, mintName);
    SamePrometheus(s, mintName);
  }

  /** The port Orchard dials for the management RPC. */
  function OrchardRPCPort(s: Spec): int {
    if s.orchard.Some? && s.orchard.value.mint.Some? && s.orchard.value.mint.value.rpc.Some?
       && s.orchard.value.mint.value.rpc.value.port != 0
    then s.orchard.value.mint.value.rpc.value.port
    else ManagementPort(s)
  }

  /** The rpc block of Orchard names a port, and another one than the management RPC's. */
  predicate OtherRPCPort(s: Spec) {
    && s.orchard.Some? && s.orchard.value.mint.Some? && s.orchard.value.mint.value.rpc.Some?
    && s.orchard.value.mint.value.rpc.value.port !in {0, ManagementPort(s)}
  }

  /** The port Orchard dials is the one config.toml tells mintd to listen on, exactly unless Orchard is told
      another. */
  lemma OrchardDialsMintd(s: Spec, mintName: string, password: string)
    requires ManagementRPCOn(s)
    ensures Configured(s, mintName, password, RPCPort) == Some(Num(OrchardRPCPort(s))) <==> !OtherRPCPort(s)
  {
    SharedInFile(s, mintName, password, RPCPort);
    SharedMatch(s, RPCPort);
    FileSide(s, mintName, password, RPCPort);
  }

  /** Default breaks that for exactly these specs: it writes 8086 into an rpc block without a port even
      when the management RPC listens elsewhere. */
  lemma DefaultMovesOrchardPort(s: Spec, mintName: string)
    requires ManagementRPCOn(s)
    ensures OrchardRPCPort(Defaults(s, mintName)) == OrchardRPCPort(s)
       <==> !(OrchardOn(s) && s.orchard.value.mint.Some? && s.orchard.value.mint.value.rpc.Some?
              && s.orchard.value.mint.value.rpc.value.port == 0 && ManagementPort(s) != 8086)
  {
    DefaultsByPart(s, mintName);
  }
}
