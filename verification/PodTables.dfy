/** What is in the pod and in front of it, name by name: each environment variable, volume, mount and port
    with the field of the spec it comes from, or what the generators put in its place. */
module PodTables {
  import opened Options
  import opened MintTypes
  import opened Choices
  import opened Toml
  import opened ConfigToml
  import opened Pod
  import opened PodClosure
  import opened PodMounts
  import opened Env
  import opened Network
  import opened Plan
  import Wiring

  // ---------------------------------------------------------------- environment variables

  /** The variable of this name is given this value. */
  predicate Given(s: Spec, mintName: string, name: string, value: EnvValue) {
    EnvVar(name, value) in Chosen(MintEnv(s, mintName))
  }

  predicate KeyOf(ref: Option<SecretKey>, value: EnvValue) {
    ref.Some? && value == FromKey(ref.value)
  }

  lemma EnvIs(s: Spec, mintName: string, k: nat, value: EnvValue)
    requires k < 27
    ensures |MintEnv(s, mintName)| == 27
    ensures var c := MintEnv(s, mintName)[k];
            Given(s, mintName, c.item.name, value) <==> c.on && c.item.value == value
  {
    Wiring.EnvDistinct(s, mintName);
    OnlyCandidate(MintEnv(s, mintName), k, EnvVar(MintEnv(s, mintName)[k].item.name, value));
  }

  lemma DirectoryVariables(s: Spec, mintName: string, value: EnvValue)
    ensures Given(s, mintName, "CDK_MINTD_WORK_DIR", value) <==> value == Literal("/data")
    ensures Given(s, mintName, "HOME", value) <==> value == Literal("/data")
    ensures Given(s, mintName, "CDK_MINTD_LOGGING_OUTPUT", value) <==> value == Literal("stderr")
  {
    Wiring.EnvIndex(s, mintName);
    EnvIs(s, mintName, 0, value);
    EnvIs(s, mintName, 1, value);
    EnvIs(s, mintName, 7, value);
  }

  lemma BackendVariables(s: Spec, mintName: string, value: EnvValue)
    ensures Given(s, mintName, "CDK_MINTD_LN_BACKEND", value) <==> value == Literal(ActiveBackend(s.paymentBackend))
    ensures Given(s, mintName, "CDK_MINTD_DATABASE", value) <==> value == Literal(s.database.engine)
  {
    Wiring.EnvIndex(s, mintName);
    EnvIs(s, mintName, 2, value);
    EnvIs(s, mintName, 6, value);
  }

  lemma AddressVariables(s: Spec, mintName: string, value: EnvValue)
    ensures Given(s, mintName, "CDK_MINTD_URL", value) <==> value == Literal(s.mintInfo.url)
    ensures Given(s, mintName, "CDK_MINTD_LISTEN_HOST", value)
       <==> value == Literal(if s.mintInfo.listenHost == "" then "0.0.0.0" else s.mintInfo.listenHost)
    ensures Given(s, mintName, "CDK_MINTD_LISTEN_PORT", value)
       <==> value == Literal(NumText(if s.mintInfo.listenPort == 0 then 8085 else s.mintInfo.listenPort))
  {
    Wiring.EnvIndex(s, mintName);
    EnvIs(s, mintName, 3, value);
    EnvIs(s, mintName, 4, value);
    EnvIs(s, mintName, 5, value);
  }

  lemma LoggingVariables(s: Spec, mintName: string, value: EnvValue)
    ensures Given(s, mintName, "RUST_LOG", value)
       <==> s.logging.Some? && s.logging.value.level != "" && value == Literal(s.logging.value.level)
    ensures Given(s, mintName, "CDK_MINTD_LOGGING_CONSOLE_LEVEL", value)
       <==> s.logging.Some? && s.logging.value.level != "" && value == Literal(s.logging.value.level)
    ensures Given(s, mintName, "CDK_MINTD_LOGGING_FILE_LEVEL", value)
       <==> s.logging.Some? && s.logging.value.fileLevel != "" && value == Literal(s.logging.value.fileLevel)
  {
    Wiring.EnvIndex(s, mintName);
    EnvIs(s, mintName, 8, value);
    EnvIs(s, mintName, 9, value);
    EnvIs(s, mintName, 10, value);
  }

  /** The user's mnemonic first, the generated one where one is. */
  lemma MnemonicVariable(s: Spec, mintName: string, value: EnvValue)
    ensures Given(s, mintName, "CDK_MINTD_MNEMONIC", value)
       <==> if s.mintInfo.mnemonicSecretRef.Some? then value == FromKey(s.mintInfo.mnemonicSecretRef.value)
            else s.mintInfo.autoGenerateMnemonic && value == FromKey(SecretKey(mintName + "-mnemonic", "mnemonic"))
  {
    Wiring.EnvIndex(s, mintName);
    EnvIs(s, mintName, 11, value);
  }

  lemma ManagementVariables(s: Spec, mintName: string, value: EnvValue)
    ensures var on := s.managementRPC.Some? && s.managementRPC.value.enabled;
            && (Given(s, mintName, "CDK_MINTD_MINT_MANAGEMENT_ENABLED", value) <==> on && value == Literal("true"))
            && (Given(s, mintName, "CDK_MINTD_MANAGEMENT_ADDRESS", value) <==>
                on && value == Literal(if s.managementRPC.value.address == "" then "127.0.0.1"
                                       else s.managementRPC.value.address))
            && (Given(s, mintName, "CDK_MINTD_MANAGEMENT_PORT", value) <==>
                on && value == Literal(NumText(if s.managementRPC.value.port == 0 then 8086
                                               else s.managementRPC.value.port)))
            && (Given(s, mintName, "CDK_MINTD_MANAGEMENT_TLS_DIR_PATH", value) <==>
                on && (s.managementRPC.value.tlsSecretName.Some? || (s.orchard.Some? && s.orchard.value.enabled))
                && value == Literal("/secrets/management-rpc-tls"))
  {
    Wiring.EnvIndex(s, mintName);
    EnvIs(s, mintName, 12, value);
    EnvIs(s, mintName, 13, value);
    EnvIs(s, mintName, 14, value);
    EnvIs(s, mintName, 15, value);
  }

  lemma PrometheusVariable(s: Spec, mintName: string, value: EnvValue)
    ensures Given(s, mintName, "CDK_MINTD_PROMETHEUS_ENABLED", value)
       <==> s.prometheus.Some? && s.prometheus.value.enabled && value == Literal("true")
  {
    Wiring.EnvIndex(s, mintName);
    EnvIs(s, mintName, 16, value);
  }

  lemma LNBitsVariables(s: Spec, mintName: string, value: EnvValue)
    ensures var lnbits := s.paymentBackend.lnbits;
            var on := lnbits.Some? && ActiveBackend(s.paymentBackend) == "lnbits";
            && (Given(s, mintName, "LNBITS_ADMIN_API_KEY", value) <==>
                on && value == FromKey(lnbits.value.adminAPIKeySecretRef))
            && (Given(s, mintName, "LNBITS_INVOICE_API_KEY", value) <==>
                on && value == FromKey(lnbits.value.invoiceAPIKeySecretRef))
  {
    Wiring.EnvIndex(s, mintName);
    EnvIs(s, mintName, 17, value);
    EnvIs(s, mintName, 18, value);
  }

  lemma ProcessorVariables(s: Spec, mintName: string, value: EnvValue)
    ensures var grpc := s.paymentBackend.grpc;
            var on := grpc.Some? && ActiveBackend(s.paymentBackend) == "grpcprocessor";
            && (Given(s, mintName, "CDK_MINTD_GRPC_PAYMENT_PROCESSOR_SUPPORTED_UNITS", value) <==>
                on && value == Literal(Commas(if grpc.value.supportedUnits == [] then ["sat"]
                                              else grpc.value.supportedUnits)))
            && (Given(s, mintName, "CDK_MINTD_GRPC_PAYMENT_PROCESSOR_ADDRESS", value) <==>
                on && value == Literal(GRPCAddress(grpc.value)))
            && (Given(s, mintName, "CDK_MINTD_GRPC_PAYMENT_PROCESSOR_PORT", value) <==>
                on && value == Literal(NumText(if grpc.value.port == 0 then 50051 else grpc.value.port)))
            && (Given(s, mintName, "CDK_MINTD_GRPC_PAYMENT_PROCESSOR_TLS_DIR", value) <==>
                on && grpc.value.tlsSecretRef.Some? && value == Literal("/secrets/grpc"))
  {
    Wiring.EnvIndex(s, mintName);
    EnvIs(s, mintName, 19, value);
    EnvIs(s, mintName, 20, value);
    EnvIs(s, mintName, 21, value);
    EnvIs(s, mintName, 22, value);
  }

  /** Units are joined with commas alone. */
  lemma JoinedUnits(unit: string, units: seq<string>)
    ensures Commas([unit]) == unit
    ensures units != [] ==> Commas([unit] + units) == unit + "," + Commas(units)
  {}

  lemma LDKVariables(s: Spec, mintName: string, value: EnvValue)
    ensures var on := s.ldkNode.Some? && s.ldkNode.value.enabled;
            && (Given(s, mintName, "BITCOIN_RPC_USER", value) <==>
                on && s.ldkNode.value.bitcoinRPC.Some?
                && value == FromKey(s.ldkNode.value.bitcoinRPC.value.userSecretRef))
            && (Given(s, mintName, "BITCOIN_RPC_PASSWORD", value) <==>
                on && s.ldkNode.value.bitcoinRPC.Some?
                && value == FromKey(s.ldkNode.value.bitcoinRPC.value.passwordSecretRef))
            && (Given(s, mintName, "CDK_LDK_NODE_MNEMONIC", value) <==>
                on && KeyOf(s.ldkNode.value.mnemonicSecretRef, value))
  {
    Wiring.EnvIndex(s, mintName);
    EnvIs(s, mintName, 23, value);
    EnvIs(s, mintName, 24, value);
    EnvIs(s, mintName, 25, value);
  }

  /** The Secret first, the text where no Secret is named. */
  lemma RedisVariable(s: Spec, mintName: string, value: EnvValue)
    ensures Given(s, mintName, "REDIS_CONNECTION_STRING", value)
       <==> && s.httpCache.Some? && s.httpCache.value.backend == "redis" && s.httpCache.value.redis.Some?
            && var redis := s.httpCache.value.redis.value;
               if redis.connectionStringSecretRef.Some? then value == FromKey(redis.connectionStringSecretRef.value)
               else redis.connectionString != "" && value == Literal(redis.connectionString)
  {
    Wiring.EnvIndex(s, mintName);
    EnvIs(s, mintName, 26, value);
  }

  // ---------------------------------------------------------------- volumes

  /** The volume of this name is there, and this is its source. */
  predicate Backed(s: Spec, mintName: string, name: string, source: Source) {
    Volume(name, source) in Chosen(PodVolumes(s, mintName))
  }

  predicate SecretOf(ref: Option<SecretKey>, source: Source) {
    ref.Some? && source == FromSecret(ref.value.name)
  }

  lemma VolumeIs(s: Spec, mintName: string, k: nat, source: Source)
    requires k < 15
    ensures |PodVolumes(s, mintName)| == 15
    ensures Backed(s, mintName, VOLUME_NAMES[k], source)
       <==> PodVolumes(s, mintName)[k].on && PodVolumes(s, mintName)[k].item.source == source
  {
    VolumeAt(s, mintName);
    NamesDistinct();
    OnlyCandidate(PodVolumes(s, mintName), k, Volume(VOLUME_NAMES[k], source));
  }

  lemma BaseVolumeTable(s: Spec, mintName: string, source: Source)
    ensures Backed(s, mintName, "config", source) <==> source == FromConfigMap(mintName + "-config")
    ensures Backed(s, mintName, "data", source)
       <==> source == if s.database.engine == "sqlite" || s.database.engine == "redb"
                      then FromClaim(mintName + "-data") else EmptyDir
  {
    VolumeAt(s, mintName);
    MintVolumeAt(s, mintName);
    VolumeIs(s, mintName, 0, source);
    VolumeIs(s, mintName, 1, source);
  }

  lemma LNDVolumeTable(s: Spec, mintName: string, source: Source)
    ensures var lnd := s.paymentBackend.lnd;
            var on := lnd.Some? && ActiveBackend(s.paymentBackend) == "lnd";
            && (Backed(s, mintName, "lnd-macaroon", source) <==> on && SecretOf(lnd.value.macaroonSecretRef, source))
            && (Backed(s, mintName, "lnd-cert", source) <==> on && SecretOf(lnd.value.certSecretRef, source))
  {
    VolumeAt(s, mintName);
    MintVolumeAt(s, mintName);
    VolumeIs(s, mintName, 2, source);
    VolumeIs(s, mintName, 3, source);
  }

  lemma ProcessorVolumeTable(s: Spec, mintName: string, source: Source)
    ensures var grpc := s.paymentBackend.grpc;
            var on := grpc.Some? && ActiveBackend(s.paymentBackend) == "grpcprocessor";
            && (Backed(s, mintName, "grpc-tls", source) <==> on && SecretOf(grpc.value.tlsSecretRef, source))
            && (Backed(s, mintName, "sidecar-tls", source) <==>
                on && grpc.value.sidecar.Some? && grpc.value.sidecar.value.enabled
                && grpc.value.sidecar.value.enableTLS && SecretOf(grpc.value.sidecar.value.tlsSecretRef, source))
  {
    VolumeAt(s, mintName);
    MintVolumeAt(s, mintName);
    VolumeIs(s, mintName, 4, source);
    VolumeIs(s, mintName, 6, source);
  }

  /** The management TLS Secret has the name the spec gives it, or one made of the mint's. */
  lemma ManagementVolumeTable(s: Spec, mintName: string, source: Source)
    ensures Backed(s, mintName, "management-rpc-tls", source)
       <==> && s.managementRPC.Some? && s.managementRPC.value.enabled
            && (s.managementRPC.value.tlsSecretName.Some? || (s.orchard.Some? && s.orchard.value.enabled))
            && source == FromSecret(var name := s.managementRPC.value.tlsSecretName;
                                    if name.Some? && name.value != "" then name.value
                                    else mintName + "-management-rpc-tls")
  {
    VolumeAt(s, mintName);
    MintVolumeAt(s, mintName);
    VolumeIs(s, mintName, 5, source);
  }

  lemma OrchardVolumeTable(s: Spec, mintName: string, source: Source)
    ensures var on := s.orchard.Some? && s.orchard.value.enabled;
            && (Backed(s, mintName, "orchard-data", source) <==> on && source == FromClaim(mintName + "-orchard-data"))
            && (Backed(s, mintName, "orchard-tmp", source) <==> on && source == EmptyDir)
  {
    VolumeAt(s, mintName);
    OrchardVolumeAt(s, mintName);
    VolumeIs(s, mintName, 7, source);
    VolumeIs(s, mintName, 8, source);
  }

  lemma LightningVolumeTable(s: Spec, mintName: string, source: Source)
    ensures var on := s.orchard.Some? && s.orchard.value.enabled && s.orchard.value.lightning.Some?;
            && (Backed(s, mintName, "orchard-lightning-macaroon", source) <==>
                on && SecretOf(s.orchard.value.lightning.value.macaroonRef, source))
            && (Backed(s, mintName, "orchard-lightning-cert", source) <==>
                on && SecretOf(s.orchard.value.lightning.value.certRef, source))
            && (Backed(s, mintName, "orchard-lightning-key", source) <==>
                on && SecretOf(s.orchard.value.lightning.value.keyRef, source))
            && (Backed(s, mintName, "orchard-lightning-ca", source) <==>
                on && SecretOf(s.orchard.value.lightning.value.caRef, source))
  {
    VolumeAt(s, mintName);
    OrchardVolumeAt(s, mintName);
    VolumeIs(s, mintName, 9, source);
    VolumeIs(s, mintName, 10, source);
    VolumeIs(s, mintName, 11, source);
    VolumeIs(s, mintName, 12, source);
  }

  lemma TaprootVolumeTable(s: Spec, mintName: string, source: Source)
    ensures var on := s.orchard.Some? && s.orchard.value.enabled && s.orchard.value.taproot.Some?;
            && (Backed(s, mintName, "orchard-taproot-macaroon", source) <==>
                on && SecretOf(s.orchard.value.taproot.value.macaroonRef, source))
            && (Backed(s, mintName, "orchard-taproot-cert", source) <==>
                on && SecretOf(s.orchard.value.taproot.value.certRef, source))
  {
    VolumeAt(s, mintName);
    OrchardVolumeAt(s, mintName);
    VolumeIs(s, mintName, 13, source);
    VolumeIs(s, mintName, 14, source);
  }

  // ---------------------------------------------------------------- mounts

  /** mintd sees this volume, or this file of it, at this path. */
  predicate MintSees(s: Spec, path: string, volume: string, subPath: string) {
    Mount(volume, path, subPath) in Chosen(MintMounts(s))
  }

  predicate OrchardSees(s: Spec, path: string, volume: string, subPath: string) {
    Mount(volume, path, subPath) in Chosen(OrchardMounts(s))
  }

  predicate FileOf(ref: Option<SecretKey>, subPath: string) {
    ref.Some? && subPath == ref.value.key
  }

  lemma MintMountIs(s: Spec, k: nat, volume: string, subPath: string)
    requires k < 6
    ensures |MintMounts(s)| == 6
    ensures MintSees(s, MINT_PATHS[k], volume, subPath)
       <==> MintMounts(s)[k].on && MintMounts(s)[k].item.volume == volume && MintMounts(s)[k].item.subPath == subPath
  {
    var cs := MintMounts(s);
    assert forall i | 0 <= i < 6 :: cs[i].item.path == MINT_PATHS[i];
    forall i | 0 <= i < 6 && i != k ensures MINT_PATHS[i] != MINT_PATHS[k] {
      if i < k {
        MintPathsApart(i, k);
      } else {
        MintPathsApart(k, i);
      }
    }
    OnlyCandidate(cs, k, Mount(volume, MINT_PATHS[k], subPath));
  }

  lemma OrchardMountIs(s: Spec, k: nat, volume: string, subPath: string)
    requires k < 10
    ensures |OrchardMounts(s)| == 10
    ensures OrchardSees(s, ORCHARD_PATHS[k], volume, subPath)
       <==> OrchardMounts(s)[k].on && OrchardMounts(s)[k].item.volume == volume
            && OrchardMounts(s)[k].item.subPath == subPath
  {
    OrchardPaths(s);
    forall i | 0 <= i < 10 && i != k ensures ORCHARD_PATHS[i] != ORCHARD_PATHS[k] {
      if i < k {
        OrchardPathsApart(i, k);
      } else {
        OrchardPathsApart(k, i);
      }
    }
    OnlyCandidate(OrchardMounts(s), k, Mount(volume, ORCHARD_PATHS[k], subPath));
  }

  lemma MintMountTable(s: Spec, volume: string, subPath: string)
    ensures MintSees(s, "/data", volume, subPath) <==> volume == "data" && subPath == ""
    ensures MintSees(s, "/data/config.toml", volume, subPath) <==> volume == "config" && subPath == "config.toml"
    ensures var lnd := s.paymentBackend.lnd;
            var on := lnd.Some? && ActiveBackend(s.paymentBackend) == "lnd";
            && (MintSees(s, "/secrets/lnd/macaroon", volume, subPath) <==>
                on && volume == "lnd-macaroon" && FileOf(lnd.value.macaroonSecretRef, subPath))
            && (MintSees(s, "/secrets/lnd/cert", volume, subPath) <==>
                on && volume == "lnd-cert" && FileOf(lnd.value.certSecretRef, subPath))
  {
    MintMountIs(s, 0, volume, subPath);
    MintMountIs(s, 1, volume, subPath);
    MintMountIs(s, 2, volume, subPath);
    MintMountIs(s, 3, volume, subPath);
  }

  lemma MintTLSMountTable(s: Spec, volume: string, subPath: string)
    ensures MintSees(s, "/secrets/grpc", volume, subPath)
       <==> s.paymentBackend.grpc.Some? && ActiveBackend(s.paymentBackend) == "grpcprocessor"
            && s.paymentBackend.grpc.value.tlsSecretRef.Some? && volume == "grpc-tls" && subPath == ""
    ensures MintSees(s, "/secrets/management-rpc-tls", volume, subPath)
       <==> s.managementRPC.Some? && s.managementRPC.value.enabled
            && (s.managementRPC.value.tlsSecretName.Some? || (s.orchard.Some? && s.orchard.value.enabled))
            && volume == "management-rpc-tls" && subPath == ""
  {
    MintMountIs(s, 4, volume, subPath);
    MintMountIs(s, 5, volume, subPath);
  }

  lemma OrchardMountTable(s: Spec, volume: string, subPath: string)
    ensures var on := s.orchard.Some? && s.orchard.value.enabled;
            && (OrchardSees(s, "/app/data", volume, subPath) <==> on && volume == "orchard-data" && subPath == "")
            && (OrchardSees(s, "/app/data/tmp", volume, subPath) <==> on && volume == "orchard-tmp" && subPath == "")
            && (OrchardSees(s, "/mnt/mint", volume, subPath) <==> on && volume == "data" && subPath == "")
            && (OrchardSees(s, "/secrets/management-rpc-tls", volume, subPath) <==>
                on && OrchardMTLS(s) && volume == "management-rpc-tls" && subPath == "")
  {
    OrchardMountIs(s, 0, volume, subPath);
    OrchardMountIs(s, 1, volume, subPath);
    OrchardMountIs(s, 2, volume, subPath);
    OrchardMountIs(s, 3, volume, subPath);
  }

  lemma LightningMountTable(s: Spec, volume: string, subPath: string)
    ensures var on := s.orchard.Some? && s.orchard.value.enabled && s.orchard.value.lightning.Some?;
            && (OrchardSees(s, "/secrets/orchard/lightning/macaroon", volume, subPath) <==>
                on && volume == "orchard-lightning-macaroon"
                && FileOf(s.orchard.value.lightning.value.macaroonRef, subPath))
            && (OrchardSees(s, "/secrets/orchard/lightning/cert", volume, subPath) <==>
                on && volume == "orchard-lightning-cert" && FileOf(s.orchard.value.lightning.value.certRef, subPath))
            && (OrchardSees(s, "/secrets/orchard/lightning/key", volume, subPath) <==>
                on && volume == "orchard-lightning-key" && FileOf(s.orchard.value.lightning.value.keyRef, subPath))
            && (OrchardSees(s, "/secrets/orchard/lightning/ca", volume, subPath) <==>
                on && volume == "orchard-lightning-ca" && FileOf(s.orchard.value.lightning.value.caRef, subPath))
  {
    OrchardMountIs(s, 4, volume, subPath);
    OrchardMountIs(s, 5, volume, subPath);
    OrchardMountIs(s, 6, volume, subPath);
    OrchardMountIs(s, 7, volume, subPath);
  }

  lemma TaprootMountTable(s: Spec, volume: string, subPath: string)
    ensures var on := s.orchard.Some? && s.orchard.value.enabled && s.orchard.value.taproot.Some?;
            && (OrchardSees(s, "/secrets/orchard/taproot/macaroon", volume, subPath) <==>
                on && volume == "orchard-taproot-macaroon"
                && FileOf(s.orchard.value.taproot.value.macaroonRef, subPath))
            && (OrchardSees(s, "/secrets/orchard/taproot/cert", volume, subPath) <==>
                on && volume == "orchard-taproot-cert" && FileOf(s.orchard.value.taproot.value.certRef, subPath))
  {
    OrchardMountIs(s, 8, volume, subPath);
    OrchardMountIs(s, 9, volume, subPath);
  }

  /** The sidecar works in a directory of mintd's volume and has its own certificates. */
  lemma SidecarMountTable(s: Spec)
    ensures var grpc := s.paymentBackend.grpc;
            var on := grpc.Some? && ActiveBackend(s.paymentBackend) == "grpcprocessor"
                      && grpc.value.sidecar.Some? && grpc.value.sidecar.value.enabled;
            Chosen(SidecarMounts(s))
            == (if on && grpc.value.sidecar.value.workingDir != ""
                then [Mount("data", grpc.value.sidecar.value.workingDir, "sidecar-processor")] else [])
             + (if on && grpc.value.sidecar.value.enableTLS && grpc.value.sidecar.value.tlsSecretRef.Some?
                then [Mount("sidecar-tls", "/secrets/sidecar-tls", "")] else [])
  {
    ChosenTwo(SidecarMounts(s)[0], SidecarMounts(s)[1]);
  }

  /** Orchard uses mutual TLS as its own block says, or as the management RPC does. */
  lemma OrchardTLSSwitch(s: Spec)
    requires s.orchard.Some? && s.orchard.value.enabled
    ensures OrchardMTLS(s)
       <==> var mint := s.orchard.value.mint;
            if mint.Some? && mint.value.rpc.Some? && mint.value.rpc.value.mtls.Some?
            then mint.value.rpc.value.mtls.value else s.managementRPC.Some? && s.managementRPC.value.enabled
  {}

  // ---------------------------------------------------------------- containers and ports

  /** The containers of the pod with their ports. */
  lemma ContainerTable(s: Spec, ports: seq<Port>, mounts: seq<Mount>)
    ensures Container("mintd", ports, mounts) in Containers(s)
       <==> mounts == Chosen(MintMounts(s))
            && ports == [Port("api", if s.mintInfo.listenPort == 0 then 8085 else s.mintInfo.listenPort)]
                 + (if s.prometheus.Some? && s.prometheus.value.enabled
                    then [Port("metrics", GetOr(s.prometheus.value.port, 9000))] else [])
    ensures Container("orchard", ports, mounts) in Containers(s)
       <==> s.orchard.Some? && s.orchard.value.enabled && mounts == Chosen(OrchardMounts(s))
            && ports == [Port("orchard", if s.orchard.value.port == 0 then 3321 else s.orchard.value.port)]
  {}

  lemma ExtraContainerTable(s: Spec, ports: seq<Port>, mounts: seq<Mount>)
    ensures Container("grpc-processor", ports, mounts) in Containers(s)
       <==> s.paymentBackend.grpc.Some? && ActiveBackend(s.paymentBackend) == "grpcprocessor"
            && var grpc := s.paymentBackend.grpc.value;
               && grpc.sidecar.Some? && grpc.sidecar.value.enabled && mounts == Chosen(SidecarMounts(s))
               && ports == [Port("grpc", if grpc.port == 0 then 50051 else grpc.port)]
    ensures Container("ldk-node", ports, mounts) in Containers(s)
       <==> s.ldkNode.Some? && s.ldkNode.value.enabled && mounts == [Mount("data", "/data", "")]
            && ports == [Port("ldk", if s.ldkNode.value.port == 0 then 8090 else s.ldkNode.value.port),
                         Port("webserver",
                              if s.ldkNode.value.webserverPort == 0 then 8888 else s.ldkNode.value.webserverPort)]
  {}

  /** The mint Service offers this port and sends it to this target. */
  predicate Offers(s: Spec, name: string, number: int, target: Target) {
    ServicePort(name, number, target) in Chosen(ServicePorts(s))
  }

  lemma OfferIs(s: Spec, k: nat, number: int, target: Target)
    requires k < 5
    ensures Offers(s, ["api", "ldk", "ldk-webserver", "management", "metrics"][k], number, target)
       <==> ServicePorts(s)[k].on && ServicePorts(s)[k].item.port == number && ServicePorts(s)[k].item.target == target
  {
    OnlyCandidate(ServicePorts(s), k,
                  ServicePort(["api", "ldk", "ldk-webserver", "management", "metrics"][k], number, target));
  }

  lemma ServicePortTable(s: Spec, number: int, target: Target)
    ensures Offers(s, "api", number, target)
       <==> number == (if s.mintInfo.listenPort == 0 then 8085 else s.mintInfo.listenPort) && target == ByName("api")
    ensures Offers(s, "management", number, target)
       <==> && s.managementRPC.Some? && s.managementRPC.value.enabled
            && number == (if s.managementRPC.value.port == 0 then 8086 else s.managementRPC.value.port)
            && target == ByNumber(number)
    ensures Offers(s, "metrics", number, target)
       <==> && s.prometheus.Some? && s.prometheus.value.enabled
            && number == (if s.prometheus.value.port.Some? then s.prometheus.value.port.value else 9000)
            && target == ByName("metrics")
  {
    OfferIs(s, 0, number, target);
    OfferIs(s, 3, number, target);
    OfferIs(s, 4, number, target);
  }

  lemma LDKServicePortTable(s: Spec, number: int, target: Target)
    ensures var on := s.ldkNode.Some? && s.ldkNode.value.enabled;
            && (Offers(s, "ldk", number, target) <==>
                on && number == (if s.ldkNode.value.port == 0 then 8090 else s.ldkNode.value.port)
                && target == ByName("ldk"))
            && (Offers(s, "ldk-webserver", number, target) <==>
                on && number == (if s.ldkNode.value.webserverPort == 0 then 8888 else s.ldkNode.value.webserverPort)
                && target == ByName("webserver"))
  {
    OfferIs(s, 1, number, target);
    OfferIs(s, 2, number, target);
  }

  // ---------------------------------------------------------------- Ingresses

  /** The annotation of this Ingress, unless the user gives another. */
  predicate Annotated(i: Ingress, built: IngressObject, key: string, value: string) {
    key in built.annotations
    && built.annotations[key] == if key in i.annotations then i.annotations[key] else value
  }

  lemma IngressTable(i: Ingress, name: string, port: int)
    ensures var built := IngressFor(i, name, port);
            && built.name == name && built.serviceName == name && built.servicePort == port && built.host == i.host
            && built.className == (if i.className == "" then "nginx" else i.className)
            && built.tlsSecret == if i.tls.Some? && i.tls.value.enabled
                                  then Some(if i.tls.value.secretName == "" then name + "-tls"
                                            else i.tls.value.secretName) else None
  {}

  lemma AnnotationTable(i: Ingress, name: string, port: int)
    ensures var built := IngressFor(i, name, port);
            && Annotated(i, built, "nginx.ingress.kubernetes.io/ssl-redirect", "true")
            && Annotated(i, built, "nginx.ingress.kubernetes.io/backend-protocol", "HTTP")
            && Annotated(i, built, "nginx.ingress.kubernetes.io/enable-cors", "true")
            && Annotated(i, built, "nginx.ingress.kubernetes.io/cors-allow-origin", "*")
            && (forall k | k in i.annotations :: k in built.annotations && built.annotations[k] == i.annotations[k])
  {}

  lemma IssuerTable(i: Ingress, name: string, port: int)
    ensures var built := IngressFor(i, name, port);
            if i.tls.Some? && i.tls.value.enabled && i.tls.value.certManager.Some?
               && i.tls.value.certManager.value.enabled
            then var issuer := i.tls.value.certManager.value;
                 && Annotated(i, built, "cert-manager.io/issuer", issuer.issuerName)
                 && Annotated(i, built, "cert-manager.io/issuer-kind",
                              if issuer.issuerKind == "" then "ClusterIssuer" else issuer.issuerKind)
            else && ("cert-manager.io/issuer" in built.annotations ==> "cert-manager.io/issuer" in i.annotations)
                 && ("cert-manager.io/issuer-kind" in built.annotations ==>
                       "cert-manager.io/issuer-kind" in i.annotations)
  {}

  // ---------------------------------------------------------------- where Orchard finds the database

  lemma OrchardDatabaseTable(s: Spec, mintName: string)
    requires s.orchard.Some? && (s.orchard.value.mint.Some? ==> s.orchard.value.mint.value.database == "")
    ensures s.database.engine == "sqlite" ==>
              OrchardDatabase(s, mintName) == Some(Literal("/mnt/mint/cdk-mintd.sqlite"))
    ensures s.database.engine == "postgres" && s.database.postgres.Some? ==>
              var pg := s.database.postgres.value;
              OrchardDatabase(s, mintName)
              == if pg.autoProvision then Some(FromKey(SecretKey(mintName + "-postgres-secret", "database-url")))
                 else if pg.urlSecretRef.Some? then Some(FromKey(pg.urlSecretRef.value))
                 else if pg.url != "" then Some(Literal(pg.url)) else None
    ensures s.database.engine != "sqlite" && (s.database.engine != "postgres" || s.database.postgres.None?) ==>
              OrchardDatabase(s, mintName) == None
  {}

  lemma GivenOrchardDatabase(s: Spec, mintName: string)
    requires s.orchard.Some? && s.orchard.value.mint.Some? && s.orchard.value.mint.value.database != ""
    ensures OrchardDatabase(s, mintName) == Some(Literal(s.orchard.value.mint.value.database))
  {}
}
