/** generateConfigToml and its section writers: one shared buffer, appended to under branches. */
module ConfigWriter {
  import opened Options
  import opened MintTypes
  import opened Text
  import opened Toml
  import opened TomlDoc
  import opened TomlLayout
  import opened ConfigToml
  import Credentials

  method WriteInfoTable(buf: Buffer, spec: Spec)
    requires buf.Valid() && buf.path == []
    modifies buf
    ensures buf.Valid() && buf.path != []
    ensures buf.Sections() == [InfoSections(spec)[0]]
  {
    buf.OpenFirst(["info"]);
    buf.Text("url", spec.mintInfo.url);
    var listenHost := spec.mintInfo.listenHost;
    if listenHost == "" {
      listenHost := DEFAULT_LISTEN_HOST;
    }
    buf.Text("listen_host", listenHost);
    var listenPort := spec.mintInfo.listenPort;
    if listenPort == 0 {
      listenPort := 8085;
    }
    buf.Number("listen_port", listenPort);
    buf.FlagIfSet("use_keyset_v2", spec.mintInfo.useKeysetV2);
    assert buf.slots == InfoSlots(spec);
  }

  method WriteQuoteTTLTable(buf: Buffer, spec: Spec)
    requires buf.Valid() && buf.path != []
    modifies buf
    ensures buf.Valid() && buf.path != []
    ensures buf.Sections() == old(buf.Sections()) + Written(InfoSections(spec)[1])
  {
    if spec.mintInfo.quoteTTL.Some? {
      buf.Open(["info", "quote_ttl"]);
      buf.NumberIfSet("mint_ttl", spec.mintInfo.quoteTTL.value.mintTTL);
      buf.NumberIfSet("melt_ttl", spec.mintInfo.quoteTTL.value.meltTTL);
      assert buf.slots == QuoteTTLSlots(spec.mintInfo.quoteTTL.value);
    }
  }

  method WriteHTTPCacheTable(buf: Buffer, spec: Spec)
    requires buf.Valid() && buf.path != []
    modifies buf
    ensures buf.Valid() && buf.path != []
    ensures buf.Sections() == old(buf.Sections()) + Written(InfoSections(spec)[2])
  {
    if spec.httpCache.Some? {
      var cache := spec.httpCache.value;
      var backend := cache.backend;
      if backend == "" {
        backend := "memory";
      }
      buf.Open(["info", "http_cache"]);
      buf.Text("backend", backend);
      buf.NumberIfSet("ttl", cache.ttl);
      buf.NumberIfSet("tti", cache.tti);
      WriteRedis(buf, cache);
      assert buf.slots == HTTPCacheSlots(cache);
    }
  }

  method WriteRedis(buf: Buffer, cache: HTTPCache)
    requires buf.Valid() && buf.path != []
    modifies buf
    ensures buf.Valid() && buf.Grows(old(buf.done), old(buf.path), old(buf.slots), RedisSlots(cache))
  {
    if cache.backend == "redis" && cache.redis.Some? {
      buf.TextIfSet("key_prefix", cache.redis.value.keyPrefix);
      buf.TextIfSet("connection_string", cache.redis.value.connectionString);
    } else {
      buf.Skip("key_prefix");
      buf.Skip("connection_string");
    }
  }

  method WriteLoggingTable(buf: Buffer, spec: Spec)
    requires buf.Valid() && buf.path != []
    modifies buf
    ensures buf.Valid() && buf.path != []
    ensures buf.Sections() == old(buf.Sections()) + Written(InfoSections(spec)[3])
  {
    if spec.logging.Some? {
      buf.Open(["info", "logging"]);
      buf.Text("output", "stderr");
      buf.TextIfSet("console_level", spec.logging.value.level);
      buf.TextIfSet("file_level", spec.logging.value.fileLevel);
      assert buf.slots == LoggingSlots(spec.logging.value);
    }
  }

  method WriteMintInfoSection(buf: Buffer, spec: Spec)
    requires buf.Valid() && buf.path != []
    modifies buf
    ensures buf.Valid() && buf.path != []
    ensures buf.Sections() == old(buf.Sections()) + Written(MintInfoSection(spec))
  {
    var m := spec.mintInfo;
    if m.name == "" && m.description == "" && m.descriptionLong == "" && m.motd == "" && m.pubkeyHex == ""
       && m.iconURL == "" && m.contactEmail == "" && m.contactNostrPubkey == "" && m.tosURL == ""
           && m.inputFeePPK.None? {
      return;
    }
    buf.Open(["mint_info"]);
    WriteNaming(buf, m);
    WriteContact(buf, m);
    assert buf.slots == MintInfoSlots(m);
  }

  method WriteNaming(buf: Buffer, m: MintInfo)
    requires buf.Valid() && buf.path != []
    modifies buf
    ensures buf.Valid() && buf.Grows(old(buf.done), old(buf.path), old(buf.slots), NamingSlots(m))
  {
    buf.TextIfSet("name", m.name);
    buf.TextIfSet("description", m.description);
    buf.TextIfSet("description_long", m.descriptionLong);
    buf.TextIfSet("motd", m.motd);
    buf.TextIfSet("pubkey", m.pubkeyHex);
  }

  method WriteContact(buf: Buffer, m: MintInfo)
    requires buf.Valid() && buf.path != []
    modifies buf
    ensures buf.Valid() && buf.Grows(old(buf.done), old(buf.path), old(buf.slots), ContactSlots(m))
  {
    buf.TextIfSet("icon_url", m.iconURL);
    buf.TextIfSet("contact_email", m.contactEmail);
    buf.TextIfSet("contact_nostr_public_key", m.contactNostrPubkey);
    buf.TextIfSet("tos_url", m.tosURL);
    buf.NumberIfSet("input_fee_ppk", m.inputFeePPK);
  }

  method WritePostgresTable(buf: Buffer, spec: Spec, mintName: string, password: string)
    requires buf.Valid() && buf.path != []
    modifies buf
    ensures buf.Valid() && buf.path != []
    ensures buf.Sections() == old(buf.Sections()) + Written(DatabaseSections(spec, mintName, password)[1])
  {
    if spec.database.engine == ENGINE_POSTGRES && spec.database.postgres.Some? {
      buf.Open(["database", "postgres"]);
      var pg := spec.database.postgres.value;
      if pg.autoProvision {
        var dbURL := "postgresql://cdk:" + password + "@" + mintName + "-postgres:5432/cdk_mintd?sslmode=disable";
        buf.Text("url", dbURL);
      } else if pg.url != "" {
        buf.Text("url", pg.url);
      } else {
        buf.Skip("url");
      }
      var tlsMode := pg.tlsMode;
      if pg.autoProvision {
        tlsMode := "disable";
      } else if tlsMode == "" {
        tlsMode := "require";
      }
      buf.Text("tls_mode", tlsMode);
      buf.NumberIfSet("max_connections", pg.maxConnections);
      buf.NumberIfSet("connection_timeout_seconds", pg.connectionTimeoutSeconds);
      assert buf.slots == PostgresSlots(pg, mintName, password);
    }
  }

  method WriteAuthPostgresTable(buf: Buffer, spec: Spec, mintName: string, password: string)
    requires buf.Valid() && buf.path != []
    modifies buf
    ensures buf.Valid() && buf.path != []
    ensures buf.Sections() == old(buf.Sections()) + Written(DatabaseSections(spec, mintName, password)[2])
  {
    if spec.auth.Some? && spec.auth.value.enabled && spec.auth.value.postgres.Some? {
      buf.Open(["auth_database", "postgres"]);
      var pg := spec.auth.value.postgres.value;
      if pg.url != "" {
        buf.Text("url", pg.url);
      } else {
        buf.Text("url", "");
      }
      var tlsMode := pg.tlsMode;
      if tlsMode == "" {
        tlsMode := "disable";
      }
      buf.Text("tls_mode", tlsMode);
      buf.NumberIfSet("max_connections", pg.maxConnections);
      buf.NumberIfSet("connection_timeout_seconds", pg.connectionTimeoutSeconds);
      assert buf.slots == AuthPostgresSlots(pg);
    }
  }

  method WriteDatabaseSection(buf: Buffer, spec: Spec, mintName: string, password: string)
    requires buf.Valid() && buf.path != []
    modifies buf
    ensures buf.Valid() && buf.path != []
    ensures buf.Sections() == old(buf.Sections()) + Shown(DatabaseSections(spec, mintName, password))
  {
    buf.Open(["database"]);
    buf.Text("engine", spec.database.engine);
    assert buf.slots == DatabaseSections(spec, mintName, password)[0].slots.value;
    WritePostgresTable(buf, spec, mintName, password);
    WriteAuthPostgresTable(buf, spec, mintName, password);
    ShownThree(DatabaseSections(spec, mintName, password));
  }

  method WriteLnTable(buf: Buffer, spec: Spec)
    requires buf.Valid() && buf.path != []
    modifies buf
    ensures buf.Valid() && buf.path != []
    ensures buf.Sections() == old(buf.Sections()) + [PaymentSections(spec.paymentBackend)[0]]
  {
    var backend := FindActiveBackend(spec.paymentBackend);
    buf.Open(["ln"]);
    buf.Text("ln_backend", backend);
    buf.NumberIfSet("min_mint", spec.paymentBackend.minMint);
    buf.NumberIfSet("max_mint", spec.paymentBackend.maxMint);
    buf.NumberIfSet("min_melt", spec.paymentBackend.minMelt);
    buf.NumberIfSet("max_melt", spec.paymentBackend.maxMelt);
    assert buf.slots == LnSlots(spec.paymentBackend);
  }

  method WriteLNDSection(buf: Buffer, spec: Spec)
    requires buf.Valid() && buf.path != []
    modifies buf
    ensures buf.Valid() && buf.path != []
    ensures buf.Sections() == old(buf.Sections())
            + Written(Section(["lnd"], OptionalSlots(spec.paymentBackend.lnd, LNDSlots)))
  {
    if spec.paymentBackend.lnd.None? {
      return;
    }
    var lnd := spec.paymentBackend.lnd.value;
    buf.Open(["lnd"]);
    buf.Text("address", lnd.address);
    buf.LineIf(lnd.macaroonSecretRef.Some?, "macaroon_file", Str("/secrets/lnd/macaroon"));
    buf.LineIf(lnd.certSecretRef.Some?, "cert_file", Str("/secrets/lnd/cert"));
    buf.FeeIfSet("fee_percent", lnd.feePercent);
    buf.NumberIfSet("reserve_fee_min", lnd.reserveFeeMin);
    assert buf.slots == LNDSlots(lnd);
  }

  method WriteCLNSection(buf: Buffer, spec: Spec)
    requires buf.Valid() && buf.path != []
    modifies buf
    ensures buf.Valid() && buf.path != []
    ensures buf.Sections() == old(buf.Sections())
            + Written(Section(["cln"], OptionalSlots(spec.paymentBackend.cln, CLNSlots)))
  {
    if spec.paymentBackend.cln.None? {
      return;
    }
    var cln := spec.paymentBackend.cln.value;
    buf.Open(["cln"]);
    buf.Text("rpc_path", cln.rpcPath);
    buf.FlagIfSet("bolt12", cln.bolt12);
    buf.FeeIfSet("fee_percent", cln.feePercent);
    buf.NumberIfSet("reserve_fee_min", cln.reserveFeeMin);
    assert buf.slots == CLNSlots(cln);
  }

  method WriteLNBitsSection(buf: Buffer, spec: Spec)
    requires buf.Valid() && buf.path != []
    modifies buf
    ensures buf.Valid() && buf.path != []
    ensures buf.Sections()
         == old(buf.Sections()) + Written(Section(["lnbits"], OptionalSlots(spec.paymentBackend.lnbits, LNBitsSlots)))
  {
    if spec.paymentBackend.lnbits.None? {
      return;
    }
    var lnbits := spec.paymentBackend.lnbits.value;
    buf.Open(["lnbits"]);
    buf.Text("lnbits_api", lnbits.api);
    buf.LineIf(lnbits.retroAPI, "retro_api", Flag(true));
    buf.FeeIfSet("fee_percent", lnbits.feePercent);
    buf.NumberIfSet("reserve_fee_min", lnbits.reserveFeeMin);
    assert buf.slots == LNBitsSlots(lnbits);
  }

  method FakeWalletValues(fw: FakeWallet)
    returns (supportedUnits: seq<string>, feePercent: int, reserveFeeMin: int, minDelayTime: int, maxDelayTime: int)
    ensures supportedUnits == Units(fw.supportedUnits) && feePercent == GetOr(fw.feePercent, DEFAULT_FEE_MILLIONTHS)
    ensures reserveFeeMin == GetOr(fw.reserveFeeMin, 1)
    ensures minDelayTime == GetOr(fw.minDelayTime, 1) && maxDelayTime == GetOr(fw.maxDelayTime, 3)
  {
    supportedUnits, feePercent, reserveFeeMin, minDelayTime, maxDelayTime := ["sat"], DEFAULT_FEE_MILLIONTHS, 1, 1, 3;
    if |fw.supportedUnits| > 0 {
      supportedUnits := fw.supportedUnits;
    }
    if fw.feePercent.Some? {
      feePercent := fw.feePercent.value;
    }
    if fw.reserveFeeMin.Some? {
      reserveFeeMin := fw.reserveFeeMin.value;
    }
    if fw.minDelayTime.Some? {
      minDelayTime := fw.minDelayTime.value;
    }
    if fw.maxDelayTime.Some? {
      maxDelayTime := fw.maxDelayTime.value;
    }
  }

  method WriteFakeWalletSection(buf: Buffer, spec: Spec)
    requires buf.Valid() && buf.path != []
    requires spec.paymentBackend.fakeWallet.Some?
    modifies buf
    ensures buf.Valid() && buf.path != []
    ensures buf.Sections()
         == old(buf.Sections()) + [Section(["fake_wallet"],
             Some(FakeWalletSlots(spec.paymentBackend.fakeWallet.value)))]
  {
    buf.Open(["fake_wallet"]);
    var fw := spec.paymentBackend.fakeWallet.value;
    var supportedUnits, feePercent, reserveFeeMin, minDelayTime, maxDelayTime := FakeWalletValues(fw);
    buf.Line("supported_units", Strs(supportedUnits));
    buf.Line("fee_percent", Fixed(feePercent));
    buf.Number("reserve_fee_min", reserveFeeMin);
    buf.Number("min_delay_time", minDelayTime);
    buf.Number("max_delay_time", maxDelayTime);
    assert buf.slots == FakeWalletSlots(fw);
  }

  method WriteGRPCProcessorSection(buf: Buffer, spec: Spec)
    requires buf.Valid() && buf.path != []
    modifies buf
    ensures buf.Valid() && buf.path != []
    ensures buf.Sections()
         == old(buf.Sections()) + Written(Section(["grpc_processor"],
             OptionalSlots(spec.paymentBackend.grpc, GRPCSlots)))
  {
    if spec.paymentBackend.grpc.None? {
      return;
    }
    var gp := spec.paymentBackend.grpc.value;
    buf.Open(["grpc_processor"]);
    buf.Text("addr", GRPCAddress(gp));
    buf.Number("port", GRPCPort(gp));
    buf.Line("supported_units", Strs(Units(gp.supportedUnits)));
    buf.LineIf(gp.tlsSecretRef.Some?, "tls_dir", Str(GRPC_TLS_MOUNT));
    assert buf.slots == GRPCSlots(gp);
  }

  method WriteLDKNodeSection(buf: Buffer, spec: Spec)
    requires buf.Valid() && buf.path != []
    modifies buf
    ensures buf.Valid() && buf.path != []
    ensures buf.Sections() == old(buf.Sections()) + Written(LDKSection(spec))
  {
    if spec.ldkNode.None? || !spec.ldkNode.value.enabled {
      return;
    }
    var ldk := spec.ldkNode.value;
    buf.Open(["ldk_node"]);
    WriteLDKChain(buf, ldk);
    WriteBitcoinRPC(buf, ldk);
    WriteLDKNode(buf, ldk);
    WriteLDKGossip(buf, ldk);
    assert buf.slots == LDKSlots(ldk);
  }

  method WriteLDKChain(buf: Buffer, ldk: LDKNode)
    requires buf.Valid() && buf.path != []
    modifies buf
    ensures buf.Valid() && buf.Grows(old(buf.done), old(buf.path), old(buf.slots), LDKChainSlots(ldk))
  {
    buf.FeeIfSet("fee_percent", ldk.feePercent);
    buf.NumberIfSet("reserve_fee_min", ldk.reserveFeeMin);
    buf.Text("bitcoin_network", ldk.bitcoinNetwork);
    buf.Text("chain_source", ldk.chainSourceType);
    buf.TextIfSet("esplora_url", ldk.esploraURL);
  }

  method WriteBitcoinRPC(buf: Buffer, ldk: LDKNode)
    requires buf.Valid() && buf.path != []
    modifies buf
    ensures buf.Valid() && buf.Grows(old(buf.done), old(buf.path), old(buf.slots), BitcoinRPCSlots(ldk))
  {
    if ldk.bitcoinRPC.Some? {
      buf.Text("bitcoin_rpc_host", ldk.bitcoinRPC.value.host);
      buf.Number("bitcoin_rpc_port", ldk.bitcoinRPC.value.port);
    } else {
      buf.Skip("bitcoin_rpc_host");
      buf.Skip("bitcoin_rpc_port");
    }
  }

  method WriteLDKNode(buf: Buffer, ldk: LDKNode)
    requires buf.Valid() && buf.path != []
    modifies buf
    ensures buf.Valid() && buf.Grows(old(buf.done), old(buf.path), old(buf.slots), LDKNodeSlots(ldk))
  {
    buf.TextIfSet("storage_dir_path", ldk.storageDirPath);
    buf.TextIfSet("log_dir_path", ldk.logDirPath);
    var host := ldk.host;
    if host == "" {
      host := DEFAULT_LISTEN_HOST;
    }
    buf.Text("ldk_node_host", host);
    var port := ldk.port;
    if port == 0 {
      port := 8090;
    }
    buf.Number("ldk_node_port", port);
    buf.LineIf(|ldk.announceAddresses| > 0, "announce_addresses", Strs(ldk.announceAddresses));
  }

  method WriteLDKGossip(buf: Buffer, ldk: LDKNode)
    requires buf.Valid() && buf.path != []
    modifies buf
    ensures buf.Valid() && buf.Grows(old(buf.done), old(buf.path), old(buf.slots), LDKGossipSlots(ldk))
  {
    buf.Text("gossip_source", ldk.gossipSourceType);
    buf.TextIfSet("rgs_url", ldk.rgsURL);
    var webserverHost := ldk.webserverHost;
    if webserverHost == "" {
      webserverHost := DEFAULT_LOOPBACK_HOST;
    }
    buf.Text("webserver_host", webserverHost);
    var webserverPort := ldk.webserverPort;
    if webserverPort == 0 {
      webserverPort := 8888;
    }
    buf.Number("webserver_port", webserverPort);
  }

  method WriteAuthSection(buf: Buffer, spec: Spec)
    requires buf.Valid() && buf.path != []
    modifies buf
    ensures buf.Valid() && buf.path != []
    ensures buf.Sections() == old(buf.Sections()) + Written(AuthSection(spec))
  {
    if spec.auth.None? || !spec.auth.value.enabled {
      return;
    }
    var auth := spec.auth.value;
    buf.Open(["auth"]);
    WriteOpenID(buf, auth);
    WriteMintLevels(buf, auth);
    WriteSwapLevels(buf, auth);
    assert buf.slots == AuthSlots(auth);
  }

  method WriteOpenID(buf: Buffer, auth: Auth)
    requires buf.Valid() && buf.path != []
    modifies buf
    ensures buf.Valid() && buf.Grows(old(buf.done), old(buf.path), old(buf.slots), OpenIDSlots(auth))
  {
    buf.Line("auth_enabled", Flag(true));
    buf.TextIfSet("openid_discovery", auth.openIDDiscovery);
    buf.TextIfSet("openid_client_id", auth.openIDClientID);
    buf.NumberIfSet("mint_max_bat", auth.mintMaxBat);
  }

  method WriteMintLevels(buf: Buffer, auth: Auth)
    requires buf.Valid() && buf.path != []
    modifies buf
    ensures buf.Valid() && buf.Grows(old(buf.done), old(buf.path), old(buf.slots), MintLevelSlots(auth))
  {
    buf.TextIfSet("mint", auth.mint);
    buf.TextIfSet("get_mint_quote", auth.getMintQuote);
    buf.TextIfSet("check_mint_quote", auth.checkMintQuote);
    buf.TextIfSet("melt", auth.melt);
    buf.TextIfSet("get_melt_quote", auth.getMeltQuote);
  }

  method WriteSwapLevels(buf: Buffer, auth: Auth)
    requires buf.Valid() && buf.path != []
    modifies buf
    ensures buf.Valid() && buf.Grows(old(buf.done), old(buf.path), old(buf.slots), SwapLevelSlots(auth))
  {
    buf.TextIfSet("check_melt_quote", auth.checkMeltQuote);
    buf.TextIfSet("swap", auth.swap);
    buf.TextIfSet("restore", auth.restore);
    buf.TextIfSet("check_proof_state", auth.checkProofState);
  }

  method WriteManagementRPCSection(buf: Buffer, spec: Spec)
    requires buf.Valid() && buf.path != []
    modifies buf
    ensures buf.Valid() && buf.path != []
    ensures buf.Sections() == old(buf.Sections()) + Written(ManagementRPCSection(spec))
  {
    if spec.managementRPC.None? || !spec.managementRPC.value.enabled {
      return;
    }
    buf.Open(["mint_management_rpc"]);
    buf.Line("enabled", Flag(true));
    var address := spec.managementRPC.value.address;
    if address == "" {
      address := DEFAULT_LOOPBACK_HOST;
    }
    buf.Text("address", address);
    var port := spec.managementRPC.value.port;
    if port == 0 {
      port := 8086;
    }
    buf.Number("port", port);
    buf.LineIf(ManagementTLSOn(spec), "tls_dir_path", Str(MANAGEMENT_TLS_MOUNT));
    assert buf.slots == ManagementRPCSlots(spec);
  }

  method WriteLimitsSection(buf: Buffer, spec: Spec)
    requires buf.Valid() && buf.path != []
    modifies buf
    ensures buf.Valid() && buf.path != []
    ensures buf.Sections() == old(buf.Sections()) + Written(LimitsSection(spec))
  {
    if spec.limits.None? {
      return;
    }
    buf.Open(["limits"]);
    buf.NumberIfSet("max_inputs", spec.limits.value.maxInputs);
    buf.NumberIfSet("max_outputs", spec.limits.value.maxOutputs);
    assert buf.slots == LimitsSlots(spec.limits.value);
  }

  method WritePrometheusSection(buf: Buffer, spec: Spec)
    requires buf.Valid() && buf.path != []
    modifies buf
    ensures buf.Valid() && buf.path != []
    ensures buf.Sections() == old(buf.Sections()) + Written(PrometheusSection(spec))
  {
    if spec.prometheus.None? || !spec.prometheus.value.enabled {
      return;
    }
    buf.Open(["prometheus"]);
    buf.Line("enabled", Flag(true));
    var address := spec.prometheus.value.address;
    if address == "" {
      address := DEFAULT_LISTEN_HOST;
    }
    buf.Text("address", address);
    var port := DEFAULT_PROMETHEUS_PORT;
    if spec.prometheus.value.port.Some? {
      port := spec.prometheus.value.port.value;
    }
    buf.Number("port", port);
    assert buf.slots == PrometheusSlots(spec.prometheus.value);
  }

  lemma ShownThree(ss: seq<Section>)
    requires |ss| == 3
    ensures Shown(ss) == Written(ss[0]) + Written(ss[1]) + Written(ss[2])
  {
    ShownConcat([ss[0], ss[1]], [ss[2]]);
    ShownConcat([ss[0]], [ss[1]]);
    assert ss == [ss[0], ss[1]] + [ss[2]] && [ss[0], ss[1]] == [ss[0]] + [ss[1]];
    ShownOne(ss[0]);
    ShownOne(ss[1]);
    ShownOne(ss[2]);
  }

  method WriteInfoSection(buf: Buffer, spec: Spec)
    requires buf.Valid() && buf.path == []
    modifies buf
    ensures buf.Valid() && buf.path != []
    ensures buf.Sections() == Shown(InfoSections(spec))
  {
    WriteInfoTable(buf, spec);
    WriteQuoteTTLTable(buf, spec);
    WriteHTTPCacheTable(buf, spec);
    WriteLoggingTable(buf, spec);
    ShownFour(InfoSections(spec));
  }

  lemma ShownFour(ss: seq<Section>)
    requires |ss| == 4
    ensures Shown(ss) == Written(ss[0]) + Written(ss[1]) + Written(ss[2]) + Written(ss[3])
  {
    var front := ss[..3];
    ShownThree(front);
    ShownConcat(front, [ss[3]]);
    ShownOne(ss[3]);
    assert ss == front + [ss[3]];
  }

  /** Of the tables of the backends at most the active one's is written. */
  function BackendTable(p: PaymentBackend): seq<Section> {
    Written(PaymentSections(p)[1]) + Written(PaymentSections(p)[2]) + Written(PaymentSections(p)[3])
    + Written(PaymentSections(p)[4]) + Written(PaymentSections(p)[5])
  }

  lemma ShownPayment(p: PaymentBackend)
    ensures Shown(PaymentSections(p)) == [PaymentSections(p)[0]] + BackendTable(p)
  {
    var ss := PaymentSections(p);
    ShownThree(ss[..3]);
    ShownThree(ss[3..]);
    ShownConcat(ss[..3], ss[3..]);
    assert ss == ss[..3] + ss[3..];
    Regroup(Written(ss[0]), Written(ss[1]), Written(ss[2]), Written(ss[3]), Written(ss[4]), Written(ss[5]));
  }

  lemma Regroup<T>(a: seq<T>, b: seq<T>, c: seq<T>, d: seq<T>, e: seq<T>, f: seq<T>)
    ensures (a + b + c) + (d + e + f) == a + (b + c + d + e + f)
  {}

  method WritePaymentBackendSection(buf: Buffer, spec: Spec)
    requires buf.Valid() && buf.path != []
    modifies buf
    ensures buf.Valid() && buf.path != []
    ensures buf.Sections() == old(buf.Sections()) + Shown(PaymentSections(spec.paymentBackend))
  {
    WriteLnTable(buf, spec);
    WriteBackendTable(buf, spec);
    ShownPayment(spec.paymentBackend);
  }

  method WriteBackendTable(buf: Buffer, spec: Spec)
    requires buf.Valid() && buf.path != []
    modifies buf
    ensures buf.Valid() && buf.path != []
    ensures buf.Sections() == old(buf.Sections()) + BackendTable(spec.paymentBackend)
  {
    var backend := FindActiveBackend(spec.paymentBackend);
    if backend == BACKEND_LND {
      WriteLNDSection(buf, spec);
    } else if backend == BACKEND_CLN {
      WriteCLNSection(buf, spec);
    } else if backend == BACKEND_LNBITS {
      WriteLNBitsSection(buf, spec);
    } else if backend == BACKEND_FAKE_WALLET {
      WriteFakeWalletSection(buf, spec);
    } else if backend == BACKEND_GRPC {
      WriteGRPCProcessorSection(buf, spec);
    }
  }

  lemma ShownLater(spec: Spec)
    ensures Shown(LaterSections(spec))
         == Written(LDKSection(spec)) + Written(AuthSection(spec)) + Written(ManagementRPCSection(spec))
            + Written(LimitsSection(spec)) + Written(PrometheusSection(spec))
  {
    var ss := LaterSections(spec);
    ShownFour(ss[..4]);
    ShownConcat(ss[..4], [ss[4]]);
    ShownOne(ss[4]);
    assert ss == ss[..4] + [ss[4]];
  }

  /** The file that is written is the text of the settings ConfigDoc lists. */
  method GenerateConfigToml(isPrint: char -> bool, spec: Spec, mintName: string, password: string)
      returns (text: string)
    ensures text == ConfigText(isPrint, spec, mintName, password)
  {
    var buf := new Buffer(isPrint);
    WriteInfoSection(buf, spec);
    WriteMintInfoSection(buf, spec);
    WriteDatabaseSection(buf, spec, mintName, password);
    WritePaymentBackendSection(buf, spec);
    WriteLDKNodeSection(buf, spec);
    WriteAuthSection(buf, spec);
    WriteManagementRPCSection(buf, spec);
    WriteLimitsSection(buf, spec);
    WritePrometheusSection(buf, spec);
    ShownAll(spec, mintName, password);
    PrintsText(isPrint, buf.data, buf.Sections());
    text := buf.data;
  }

  lemma ShownAll(spec: Spec, mintName: string, password: string)
    ensures DocOf(Shown(InfoSections(spec)) + Written(MintInfoSection(spec))
            + Shown(DatabaseSections(spec, mintName, password))
                  + Shown(PaymentSections(spec.paymentBackend))
                  + Written(LDKSection(spec)) + Written(AuthSection(spec)) + Written(ManagementRPCSection(spec))
                  + Written(LimitsSection(spec)) + Written(PrometheusSection(spec)))
         == ConfigDoc(spec, mintName, password)
  {
    var a, b, c := InfoSections(spec), [MintInfoSection(spec)], DatabaseSections(spec, mintName, password);
    var d, e := PaymentSections(spec.paymentBackend), LaterSections(spec);
    ShownOne(MintInfoSection(spec));
    ShownConcat(a, b);
    ShownConcat(a + b, c);
    ShownConcat(a + b + c, d);
    ShownConcat(a + b + c + d, e);
    DocOfShown(AllSections(spec, mintName, password));
    ShownLater(spec);
    RegroupFive(Shown(a) + Shown(b) + Shown(c) + Shown(d), Written(LDKSection(spec)), Written(AuthSection(spec)),
                Written(ManagementRPCSection(spec)), Written(LimitsSection(spec)), Written(PrometheusSection(spec)));
  }

  lemma RegroupFive<T>(x: seq<T>, a: seq<T>, b: seq<T>, c: seq<T>, d: seq<T>, e: seq<T>)
    ensures x + (a + b + c + d + e) == x + a + b + c + d + e
  {}
}
