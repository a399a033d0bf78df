/** The environment of the mintd container, which repeats settings of config.toml. */
module Env {
  import opened Options
  import opened MintTypes
  import opened Choices
  import opened Toml
  import opened ConfigToml
  import opened Pod

  datatype EnvValue = Literal(text: string) | FromKey(ref: SecretKey)

  datatype EnvVar = EnvVar(name: string, value: EnvValue)

  function Always(name: string, text: string): Choice<EnvVar> {
    Choice(true, EnvVar(name, Literal(text)))
  }

  function FromRef(name: string, ref: Option<SecretKey>): Choice<EnvVar> {
    Choice(ref.Some?, EnvVar(name, FromKey(GetOr(ref, SecretKey("", "")))))
  }

  function CoreEnv(s: Spec): seq<Choice<EnvVar>> {
    [Always("CDK_MINTD_WORK_DIR", "/data"),
     Always("HOME", "/data"),
     Always("CDK_MINTD_LN_BACKEND", ActiveBackend(s.paymentBackend)),
     Always("CDK_MINTD_URL", s.mintInfo.url),
     Always("CDK_MINTD_LISTEN_HOST", ListenHost(s)),
     Always("CDK_MINTD_LISTEN_PORT", NumText(ListenPort(s))),
     Always("CDK_MINTD_DATABASE", s.database.engine),
     Always("CDK_MINTD_LOGGING_OUTPUT", "stderr")]
  }

  function LogLevel(s: Spec): string {
    if s.logging.Some? then s.logging.value.level else ""
  }

  function LogFileLevel(s: Spec): string {
    if s.logging.Some? then s.logging.value.fileLevel else ""
  }

  function LoggingEnv(s: Spec): seq<Choice<EnvVar>> {
    [Choice(LogLevel(s) != "", EnvVar("RUST_LOG", Literal(LogLevel(s)))),
     Choice(LogLevel(s) != "", EnvVar("CDK_MINTD_LOGGING_CONSOLE_LEVEL", Literal(LogLevel(s)))),
     Choice(LogFileLevel(s) != "", EnvVar("CDK_MINTD_LOGGING_FILE_LEVEL", Literal(LogFileLevel(s))))]
  }

  function MnemonicSecretName(mintName: string): string {
    mintName + "-mnemonic"
  }

  /** The user's mnemonic, or the one the operator generated, or none. */
  function MnemonicRef(s: Spec, mintName: string): Option<SecretKey> {
    if s.mintInfo.mnemonicSecretRef.Some? then s.mintInfo.mnemonicSecretRef
    else if s.mintInfo.autoGenerateMnemonic then Some(SecretKey(MnemonicSecretName(mintName), "mnemonic"))
    else None
  }

  function MnemonicEnv(s: Spec, mintName: string): seq<Choice<EnvVar>> {
    [FromRef("CDK_MINTD_MNEMONIC", MnemonicRef(s, mintName))]
  }

  function ManagementAddress(s: Spec): string {
    if s.managementRPC.Some? then Or(s.managementRPC.value.address, DEFAULT_LOOPBACK_HOST) else DEFAULT_LOOPBACK_HOST
  }

  function ManagementPort(s: Spec): int {
    if s.managementRPC.Some? then OrNum(s.managementRPC.value.port, 8086) else 8086
  }

  function ManagementEnv(s: Spec): seq<Choice<EnvVar>> {
    [Choice(ManagementRPCOn(s), EnvVar("CDK_MINTD_MINT_MANAGEMENT_ENABLED", Literal("true"))),
     Choice(ManagementRPCOn(s), EnvVar("CDK_MINTD_MANAGEMENT_ADDRESS", Literal(ManagementAddress(s)))),
     Choice(ManagementRPCOn(s), EnvVar("CDK_MINTD_MANAGEMENT_PORT", Literal(NumText(ManagementPort(s))))),
     Choice(ManagementTLSOn(s), EnvVar("CDK_MINTD_MANAGEMENT_TLS_DIR_PATH", Literal(MANAGEMENT_TLS_MOUNT)))]
  }

  function PrometheusEnv(s: Spec): seq<Choice<EnvVar>> {
    [Choice(PrometheusOn(s), EnvVar("CDK_MINTD_PROMETHEUS_ENABLED", Literal("true")))]
  }

  function AdminKey(s: Spec): Option<SecretKey> {
    if ActiveBackend(s.paymentBackend) == BACKEND_LNBITS then Some(s.paymentBackend.lnbits.value.adminAPIKeySecretRef)
       else None
  }

  function InvoiceKey(s: Spec): Option<SecretKey> {
    if ActiveBackend(s.paymentBackend) == BACKEND_LNBITS
       then Some(s.paymentBackend.lnbits.value.invoiceAPIKeySecretRef) else None
  }

  function LNBitsEnv(s: Spec): seq<Choice<EnvVar>> {
    [FromRef("LNBITS_ADMIN_API_KEY", AdminKey(s)), FromRef("LNBITS_INVOICE_API_KEY", InvoiceKey(s))]
  }

  /** strings.Join(units, ",") */
  function Commas(units: seq<string>): string {
    if units == [] then "" else if |units| == 1 then units[0] else units[0] + "," + Commas(units[1..])
  }

  function Processor(s: Spec): GRPCProcessor {
    GetOr(s.paymentBackend.grpc, GRPCProcessor("", 0, [], None, None))
  }

  function GRPCEnv(s: Spec): seq<Choice<EnvVar>> {
    [Choice(GRPCActive(s), EnvVar("CDK_MINTD_GRPC_PAYMENT_PROCESSOR_SUPPORTED_UNITS",
        Literal(Commas(Units(Processor(s).supportedUnits))))),
     Choice(GRPCActive(s), EnvVar("CDK_MINTD_GRPC_PAYMENT_PROCESSOR_ADDRESS", Literal(GRPCAddress(Processor(s))))),
     Choice(GRPCActive(s), EnvVar("CDK_MINTD_GRPC_PAYMENT_PROCESSOR_PORT", Literal(NumText(GRPCPort(Processor(s)))))),
     Choice(GRPCTLS(s).Some?, EnvVar("CDK_MINTD_GRPC_PAYMENT_PROCESSOR_TLS_DIR", Literal(GRPC_TLS_MOUNT)))]
  }

  function BitcoinUser(s: Spec): Option<SecretKey> {
    if LDKOn(s) && s.ldkNode.value.bitcoinRPC.Some? then Some(s.ldkNode.value.bitcoinRPC.value.userSecretRef) else None
  }

  function BitcoinPassword(s: Spec): Option<SecretKey> {
    if LDKOn(s) && s.ldkNode.value.bitcoinRPC.Some? then Some(s.ldkNode.value.bitcoinRPC.value.passwordSecretRef)
       else None
  }

  function LDKMnemonic(s: Spec): Option<SecretKey> {
    if LDKOn(s) then s.ldkNode.value.mnemonicSecretRef else None
  }

  function LDKEnv(s: Spec): seq<Choice<EnvVar>> {
    [FromRef("BITCOIN_RPC_USER", BitcoinUser(s)), FromRef("BITCOIN_RPC_PASSWORD", BitcoinPassword(s)),
     FromRef("CDK_LDK_NODE_MNEMONIC", LDKMnemonic(s))]
  }

  function RedisRef(s: Spec): Option<SecretKey> {
    if s.httpCache.Some? && s.httpCache.value.backend == "redis" && s.httpCache.value.redis.Some?
    then s.httpCache.value.redis.value.connectionStringSecretRef else None
  }

  function RedisString(s: Spec): string {
    if s.httpCache.Some? then RedisText(s.httpCache.value, (r: Redis) => r.connectionString) else ""
  }

  function CacheEnv(s: Spec): seq<Choice<EnvVar>> {
    [Choice(RedisRef(s).Some? || RedisString(s) != "",
            EnvVar("REDIS_CONNECTION_STRING",
                if RedisRef(s).Some? then FromKey(RedisRef(s).value) else Literal(RedisString(s))))]
  }

  function BackendEnv(s: Spec): seq<Choice<EnvVar>> {
    LNBitsEnv(s) + GRPCEnv(s)
  }

  function MintEnv(s: Spec, mintName: string): seq<Choice<EnvVar>> {
    CoreEnv(s) + LoggingEnv(s) + MnemonicEnv(s, mintName) + ManagementEnv(s) + PrometheusEnv(s) + BackendEnv(s)
        + LDKEnv(s)
    + CacheEnv(s)
  }

  // ---------------------------------------------------------------- the generators

  method MintCoreEnvVars(s: Spec) returns (vars: seq<EnvVar>)
    ensures vars == Chosen(CoreEnv(s))
  {
    var listenHost := s.mintInfo.listenHost;
    if listenHost == "" {
      listenHost := DEFAULT_LISTEN_HOST;
    }
    var listenPort := s.mintInfo.listenPort;
    if listenPort == 0 {
      listenPort := 8085;
    }
    var backend := FindActiveBackend(s.paymentBackend);
    vars := [EnvVar("CDK_MINTD_WORK_DIR", Literal("/data")),
             EnvVar("HOME", Literal("/data")),
             EnvVar("CDK_MINTD_LN_BACKEND", Literal(backend)),
             EnvVar("CDK_MINTD_URL", Literal(s.mintInfo.url)),
             EnvVar("CDK_MINTD_LISTEN_HOST", Literal(listenHost)),
             EnvVar("CDK_MINTD_LISTEN_PORT", Literal(NumText(listenPort))),
             EnvVar("CDK_MINTD_DATABASE", Literal(s.database.engine)),
             EnvVar("CDK_MINTD_LOGGING_OUTPUT", Literal("stderr"))];
    AllChosen(CoreEnv(s));
  }

  method MintLoggingEnvVars(s: Spec) returns (vars: seq<EnvVar>)
    ensures vars == Chosen(LoggingEnv(s))
  {
    vars := [];
    if s.logging.Some? {
      if s.logging.value.level != "" {
        vars := vars + [EnvVar("RUST_LOG", Literal(s.logging.value.level)),
                        EnvVar("CDK_MINTD_LOGGING_CONSOLE_LEVEL", Literal(s.logging.value.level))];
      }
      if s.logging.value.fileLevel != "" {
        vars := vars + [EnvVar("CDK_MINTD_LOGGING_FILE_LEVEL", Literal(s.logging.value.fileLevel))];
      }
    }
    var cs := LoggingEnv(s);
    ChosenTwo(cs[0], cs[1]);
    ChosenNext([cs[0], cs[1]], cs[2]);
    assert cs == [cs[0], cs[1]] + [cs[2]];
  }

  method MintMnemonicEnvVars(s: Spec, mintName: string) returns (vars: seq<EnvVar>)
    ensures vars == Chosen(MnemonicEnv(s, mintName))
  {
    var ref := s.mintInfo.mnemonicSecretRef;
    if ref.None? && s.mintInfo.autoGenerateMnemonic {
      ref := Some(SecretKey(MnemonicSecretName(mintName), "mnemonic"));
    }
    ChosenOne(MnemonicEnv(s, mintName)[0]);
    if ref.None? {
      return [];
    }
    return [EnvVar("CDK_MINTD_MNEMONIC", FromKey(ref.value))];
  }

  method MintManagementRPCEnvVars(s: Spec) returns (vars: seq<EnvVar>)
    ensures vars == Chosen(ManagementEnv(s))
  {
    var cs := ManagementEnv(s);
    ChosenFour(cs[0], cs[1], cs[2], cs[3]);
    if s.managementRPC.None? || !s.managementRPC.value.enabled {
      return [];
    }
    var port := s.managementRPC.value.port;
    if port == 0 {
      port := 8086;
    }
    var address := s.managementRPC.value.address;
    if address == "" {
      address := DEFAULT_LOOPBACK_HOST;
    }
    vars := [EnvVar("CDK_MINTD_MINT_MANAGEMENT_ENABLED", Literal("true")),
             EnvVar("CDK_MINTD_MANAGEMENT_ADDRESS", Literal(address)),
             EnvVar("CDK_MINTD_MANAGEMENT_PORT", Literal(NumText(port)))];
    if ManagementTLSOn(s) {
      vars := vars + [EnvVar("CDK_MINTD_MANAGEMENT_TLS_DIR_PATH", Literal(MANAGEMENT_TLS_MOUNT))];
    }
  }

  method MintPaymentBackendEnvVars(s: Spec) returns (vars: seq<EnvVar>)
    ensures vars == Chosen(BackendEnv(s))
  {
    var lnbits, grpc := LNBitsEnv(s), GRPCEnv(s);
    ChosenConcat(lnbits, grpc);
    ChosenTwo(lnbits[0], lnbits[1]);
    ChosenFour(grpc[0], grpc[1], grpc[2], grpc[3]);
    var backend := FindActiveBackend(s.paymentBackend);
    vars := [];
    if backend == BACKEND_LNBITS {
      vars := [EnvVar("LNBITS_ADMIN_API_KEY", FromKey(s.paymentBackend.lnbits.value.adminAPIKeySecretRef)),
               EnvVar("LNBITS_INVOICE_API_KEY", FromKey(s.paymentBackend.lnbits.value.invoiceAPIKeySecretRef))];
    } else if backend == BACKEND_GRPC {
      vars := MintGRPCProcessorEnvVars(s);
    }
  }

  method MintGRPCProcessorEnvVars(s: Spec) returns (vars: seq<EnvVar>)
    requires GRPCActive(s)
    ensures vars == Chosen(GRPCEnv(s))
  {
    var cs := GRPCEnv(s);
    ChosenFour(cs[0], cs[1], cs[2], cs[3]);
    var gp := s.paymentBackend.grpc.value;
    vars := [EnvVar("CDK_MINTD_GRPC_PAYMENT_PROCESSOR_SUPPORTED_UNITS", Literal(Commas(Units(gp.supportedUnits)))),
             EnvVar("CDK_MINTD_GRPC_PAYMENT_PROCESSOR_ADDRESS", Literal(GRPCAddress(gp))),
             EnvVar("CDK_MINTD_GRPC_PAYMENT_PROCESSOR_PORT", Literal(NumText(GRPCPort(gp))))];
    if gp.tlsSecretRef.Some? {
      vars := vars + [EnvVar("CDK_MINTD_GRPC_PAYMENT_PROCESSOR_TLS_DIR", Literal(GRPC_TLS_MOUNT))];
    }
  }

  method MintLDKEnvVars(s: Spec) returns (vars: seq<EnvVar>)
    ensures vars == Chosen(LDKEnv(s))
  {
    var cs := LDKEnv(s);
    ChosenTwo(cs[0], cs[1]);
    ChosenNext([cs[0], cs[1]], cs[2]);
    assert cs == [cs[0], cs[1]] + [cs[2]];
    vars := [];
    if s.ldkNode.Some? && s.ldkNode.value.enabled {
      if s.ldkNode.value.bitcoinRPC.Some? {
        vars := vars + [EnvVar("BITCOIN_RPC_USER", FromKey(s.ldkNode.value.bitcoinRPC.value.userSecretRef)),
                        EnvVar("BITCOIN_RPC_PASSWORD", FromKey(s.ldkNode.value.bitcoinRPC.value.passwordSecretRef))];
      }
      if s.ldkNode.value.mnemonicSecretRef.Some? {
        vars := vars + [EnvVar("CDK_LDK_NODE_MNEMONIC", FromKey(s.ldkNode.value.mnemonicSecretRef.value))];
      }
    }
  }

  method MintHTTPCacheEnvVars(s: Spec) returns (vars: seq<EnvVar>)
    ensures vars == Chosen(CacheEnv(s))
  {
    ChosenOne(CacheEnv(s)[0]);
    if s.httpCache.None? || s.httpCache.value.backend != "redis" || s.httpCache.value.redis.None? {
      return [];
    }
    var redis := s.httpCache.value.redis.value;
    if redis.connectionStringSecretRef.Some? {
      return [EnvVar("REDIS_CONNECTION_STRING", FromKey(redis.connectionStringSecretRef.value))];
    }
    if redis.connectionString != "" {
      return [EnvVar("REDIS_CONNECTION_STRING", Literal(redis.connectionString))];
    }
    return [];
  }

  method GenerateEnvironmentVariables(s: Spec, mintName: string) returns (vars: seq<EnvVar>)
    ensures vars == Chosen(MintEnv(s, mintName))
  {
    vars := MintCoreEnvVars(s);
    var logging := MintLoggingEnvVars(s);
    var mnemonic := MintMnemonicEnvVars(s, mintName);
    var management := MintManagementRPCEnvVars(s);
    var prometheus := if PrometheusOn(s) then [EnvVar("CDK_MINTD_PROMETHEUS_ENABLED", Literal("true"))] else [];
    ChosenOne(PrometheusEnv(s)[0]);
    var backend := MintPaymentBackendEnvVars(s);
    var ldk := MintLDKEnvVars(s);
    var cache := MintHTTPCacheEnvVars(s);
    vars := vars + logging + mnemonic + management + prometheus + backend + ldk + cache;
    MintEnvRuns(s, mintName);
  }

  lemma MintEnvRuns(s: Spec, mintName: string)
    ensures Chosen(MintEnv(s, mintName))
         == Chosen(CoreEnv(s)) + Chosen(LoggingEnv(s)) + Chosen(MnemonicEnv(s, mintName)) + Chosen(ManagementEnv(s))
            + Chosen(PrometheusEnv(s)) + Chosen(BackendEnv(s)) + Chosen(LDKEnv(s)) + Chosen(CacheEnv(s))
  {
    var a := CoreEnv(s);
    ChosenConcat(a, LoggingEnv(s));
    var b := a + LoggingEnv(s);
    ChosenConcat(b, MnemonicEnv(s, mintName));
    var c := b + MnemonicEnv(s, mintName);
    ChosenConcat(c, ManagementEnv(s));
    var d := c + ManagementEnv(s);
    ChosenConcat(d, PrometheusEnv(s));
    var e := d + PrometheusEnv(s);
    ChosenConcat(e, BackendEnv(s));
    var f := e + BackendEnv(s);
    ChosenConcat(f, LDKEnv(s));
    ChosenConcat(f + LDKEnv(s), CacheEnv(s));
  }
}
