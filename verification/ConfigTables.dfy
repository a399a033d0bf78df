/** What a reader of config.toml finds, table by table and key by key: the field of the spec, or what the
    writer puts in its place. */
module ConfigTables {
  import opened Options
  import opened MintTypes
  import opened Toml
  import opened TomlDoc
  import opened TomlLayout
  import opened ConfigToml
  import opened ConfigMeaning
  import Credentials

  // ---------------------------------------------------------------- a line that may be missing

  function NumberIf(n: Option<int>): Option<Value> {
    if n.Some? then Some(Num(n.value)) else None
  }

  function FeeIf(m: Option<int>): Option<Value> {
    if m.Some? then Some(Fixed(m.value)) else None
  }

  function FlagIf(b: Option<bool>): Option<Value> {
    if b.Some? then Some(Flag(b.value)) else None
  }

  function TextIf(s: string): Option<Value> {
    if s != "" then Some(Str(s)) else None
  }

  // ---------------------------------------------------------------- from the layout to the reader

  /** Table number i of the file. */
  function TableNo(s: Spec, mintName: string, password: string, i: nat): Section
    requires i < 19
  {
    if i < 4 then InfoSections(s)[i]
    else if i == 4 then MintInfoSection(s)
    else if i < 8 then DatabaseSections(s, mintName, password)[i - 5]
    else if i < 14 then PaymentSections(s.paymentBackend)[i - 8]
    else LaterSections(s)[i - 14]
  }

  lemma TableIs(s: Spec, mintName: string, password: string, i: nat)
    requires i < 19
    ensures |AllSections(s, mintName, password)| == 19
    ensures AllSections(s, mintName, password)[i] == TableNo(s, mintName, password, i)
  {
    SectionAt(s, mintName, password);
  }

  lemma KeyAt(s: Spec, mintName: string, password: string, i: nat, path: Path, slots: seq<Slot>, j: nat, key: string)
    requires i < 19 && TableNo(s, mintName, password, i) == Section(path, Some(slots))
    requires j < |slots| && slots[j].key == key
    ensures Lookup(ConfigDoc(s, mintName, password), path, key) == slots[j].value
  {
    TableIs(s, mintName, password, i);
    LayoutGood(s, mintName, password);
    SlotLookup(AllSections(s, mintName, password), i, j);
  }

  lemma NoTable(s: Spec, mintName: string, password: string, i: nat, path: Path)
    requires i < 19 && TableNo(s, mintName, password, i) == Section(path, None)
    ensures forall key: string :: Lookup(ConfigDoc(s, mintName, password), path, key) == None
  {
    TableIs(s, mintName, password, i);
    LayoutGood(s, mintName, password);
    forall key: string ensures Lookup(ConfigDoc(s, mintName, password), path, key) == None {
      MissingLookup(AllSections(s, mintName, password), i, key);
    }
  }

  // ---------------------------------------------------------------- the tables

  lemma InfoTable(s: Spec, mintName: string, password: string)
    ensures var d, i := ConfigDoc(s, mintName, password), s.mintInfo;
            && Lookup(d, ["info"], "url") == Some(Str(i.url))
            && Lookup(d, ["info"], "listen_host") == Some(Str(if i.listenHost == "" then "0.0.0.0" else i.listenHost))
            && Lookup(d, ["info"], "listen_port") == Some(Num(if i.listenPort == 0 then 8085 else i.listenPort))
            && Lookup(d, ["info"], "use_keyset_v2") == FlagIf(i.useKeysetV2)
  {
    var slots := InfoSlots(s);
    KeyAt(s, mintName, password, 0, ["info"], slots, 0, "url");
    KeyAt(s, mintName, password, 0, ["info"], slots, 1, "listen_host");
    KeyAt(s, mintName, password, 0, ["info"], slots, 2, "listen_port");
    KeyAt(s, mintName, password, 0, ["info"], slots, 3, "use_keyset_v2");
  }

  lemma QuoteTTLTable(s: Spec, mintName: string, password: string)
    ensures var d := ConfigDoc(s, mintName, password);
            if s.mintInfo.quoteTTL.Some? then
              var q := s.mintInfo.quoteTTL.value;
              && Lookup(d, ["info", "quote_ttl"], "mint_ttl") == NumberIf(q.mintTTL)
              && Lookup(d, ["info", "quote_ttl"], "melt_ttl") == NumberIf(q.meltTTL)
            else forall key: string :: Lookup(d, ["info", "quote_ttl"], key) == None
  {
    if s.mintInfo.quoteTTL.Some? {
      var slots := QuoteTTLSlots(s.mintInfo.quoteTTL.value);
      KeyAt(s, mintName, password, 1, ["info", "quote_ttl"], slots, 0, "mint_ttl");
      KeyAt(s, mintName, password, 1, ["info", "quote_ttl"], slots, 1, "melt_ttl");
    } else {
      NoTable(s, mintName, password, 1, ["info", "quote_ttl"]);
    }
  }

  lemma HTTPCacheTable(s: Spec, mintName: string, password: string)
    ensures var d := ConfigDoc(s, mintName, password);
            if s.httpCache.Some? then
              var c := s.httpCache.value;
              && Lookup(d, ["info", "http_cache"], "backend")
                 == Some(Str(if c.backend == "" then "memory" else c.backend))
              && Lookup(d, ["info", "http_cache"], "ttl") == NumberIf(c.ttl)
              && Lookup(d, ["info", "http_cache"], "tti") == NumberIf(c.tti)
              && Lookup(d, ["info", "http_cache"], "key_prefix")
                 == (if c.backend == "redis" && c.redis.Some? then TextIf(c.redis.value.keyPrefix) else None)
              && Lookup(d, ["info", "http_cache"], "connection_string")
                 == (if c.backend == "redis" && c.redis.Some? then TextIf(c.redis.value.connectionString) else None)
            else forall key: string :: Lookup(d, ["info", "http_cache"], key) == None
  {
    if s.httpCache.Some? {
      var slots := HTTPCacheSlots(s.httpCache.value);
      KeyAt(s, mintName, password, 2, ["info", "http_cache"], slots, 0, "backend");
      KeyAt(s, mintName, password, 2, ["info", "http_cache"], slots, 1, "ttl");
      KeyAt(s, mintName, password, 2, ["info", "http_cache"], slots, 2, "tti");
      KeyAt(s, mintName, password, 2, ["info", "http_cache"], slots, 3, "key_prefix");
      KeyAt(s, mintName, password, 2, ["info", "http_cache"], slots, 4, "connection_string");
    } else {
      NoTable(s, mintName, password, 2, ["info", "http_cache"]);
    }
  }

  lemma LoggingTable(s: Spec, mintName: string, password: string)
    ensures var d := ConfigDoc(s, mintName, password);
            if s.logging.Some? then
              var l := s.logging.value;
              && Lookup(d, ["info", "logging"], "output") == Some(Str("stderr"))
              && Lookup(d, ["info", "logging"], "console_level") == TextIf(l.level)
              && Lookup(d, ["info", "logging"], "file_level") == TextIf(l.fileLevel)
            else forall key: string :: Lookup(d, ["info", "logging"], key) == None
  {
    if s.logging.Some? {
      var slots := LoggingSlots(s.logging.value);
      KeyAt(s, mintName, password, 3, ["info", "logging"], slots, 0, "output");
      KeyAt(s, mintName, password, 3, ["info", "logging"], slots, 1, "console_level");
      KeyAt(s, mintName, password, 3, ["info", "logging"], slots, 2, "file_level");
    } else {
      NoTable(s, mintName, password, 3, ["info", "logging"]);
    }
  }

  lemma NoneSet(m: MintInfo, j: nat)
    requires NoMintInfo(m) && j < 10
    ensures MintInfoSlots(m)[j].value == None
  {}

  lemma MintInfoKey(s: Spec, mintName: string, password: string, j: nat, key: string)
    requires j < 10 && MintInfoSlots(s.mintInfo)[j].key == key
    ensures Lookup(ConfigDoc(s, mintName, password), ["mint_info"], key) == MintInfoSlots(s.mintInfo)[j].value
  {
    if NoMintInfo(s.mintInfo) {
      NoTable(s, mintName, password, 4, ["mint_info"]);
      NoneSet(s.mintInfo, j);
    } else {
      KeyAt(s, mintName, password, 4, ["mint_info"], MintInfoSlots(s.mintInfo), j, key);
    }
  }

  lemma NamingKeys(s: Spec, mintName: string, password: string)
    ensures var d, m := ConfigDoc(s, mintName, password), s.mintInfo;
            && Lookup(d, ["mint_info"], "name") == TextIf(m.name)
            && Lookup(d, ["mint_info"], "description") == TextIf(m.description)
            && Lookup(d, ["mint_info"], "description_long") == TextIf(m.descriptionLong)
            && Lookup(d, ["mint_info"], "motd") == TextIf(m.motd)
            && Lookup(d, ["mint_info"], "pubkey") == TextIf(m.pubkeyHex)
  {
    MintInfoKey(s, mintName, password, 0, "name");
    MintInfoKey(s, mintName, password, 1, "description");
    MintInfoKey(s, mintName, password, 2, "description_long");
    MintInfoKey(s, mintName, password, 3, "motd");
    MintInfoKey(s, mintName, password, 4, "pubkey");
  }

  lemma ContactKeys(s: Spec, mintName: string, password: string)
    ensures var d, m := ConfigDoc(s, mintName, password), s.mintInfo;
            && Lookup(d, ["mint_info"], "icon_url") == TextIf(m.iconURL)
            && Lookup(d, ["mint_info"], "contact_email") == TextIf(m.contactEmail)
            && Lookup(d, ["mint_info"], "contact_nostr_public_key") == TextIf(m.contactNostrPubkey)
            && Lookup(d, ["mint_info"], "tos_url") == TextIf(m.tosURL)
            && Lookup(d, ["mint_info"], "input_fee_ppk") == NumberIf(m.inputFeePPK)
  {
    MintInfoKey(s, mintName, password, 5, "icon_url");
    MintInfoKey(s, mintName, password, 6, "contact_email");
    MintInfoKey(s, mintName, password, 7, "contact_nostr_public_key");
    MintInfoKey(s, mintName, password, 8, "tos_url");
    MintInfoKey(s, mintName, password, 9, "input_fee_ppk");
  }

  lemma EngineTable(s: Spec, mintName: string, password: string)
    ensures var d := ConfigDoc(s, mintName, password);
            && Lookup(d, ["database"], "engine") == Some(Str(s.database.engine))
  {
    var slots := [Always("engine", Str(s.database.engine))];
    KeyAt(s, mintName, password, 5, ["database"], slots, 0, "engine");
  }

  lemma PostgresTable(s: Spec, mintName: string, password: string)
    ensures var d := ConfigDoc(s, mintName, password);
            if s.database.engine == "postgres" && s.database.postgres.Some? then
              var pg := s.database.postgres.value;
              && Lookup(d, ["database", "postgres"], "url")
                 == (if pg.autoProvision
                  then Some(Str("postgresql://cdk:" + password + "@" + mintName
                                + "-postgres:5432/cdk_mintd?sslmode=disable"))
                  else TextIf(pg.url))
              && Lookup(d, ["database", "postgres"], "tls_mode")
                 == Some(Str(if pg.autoProvision then "disable"
                       else if pg.tlsMode == "" then "require" else pg.tlsMode))
              && Lookup(d, ["database", "postgres"], "max_connections") == NumberIf(pg.maxConnections)
              && Lookup(d, ["database", "postgres"], "connection_timeout_seconds")
                 == NumberIf(pg.connectionTimeoutSeconds)
            else forall key: string :: Lookup(d, ["database", "postgres"], key) == None
  {
    if s.database.engine == "postgres" && s.database.postgres.Some? {
      var slots := PostgresSlots(s.database.postgres.value, mintName, password);
      KeyAt(s, mintName, password, 6, ["database", "postgres"], slots, 0, "url");
      KeyAt(s, mintName, password, 6, ["database", "postgres"], slots, 1, "tls_mode");
      KeyAt(s, mintName, password, 6, ["database", "postgres"], slots, 2, "max_connections");
      KeyAt(s, mintName, password, 6, ["database", "postgres"], slots, 3, "connection_timeout_seconds");
    } else {
      NoTable(s, mintName, password, 6, ["database", "postgres"]);
    }
  }

  lemma AuthPostgresTable(s: Spec, mintName: string, password: string)
    ensures var d := ConfigDoc(s, mintName, password);
            if s.auth.Some? && s.auth.value.enabled && s.auth.value.postgres.Some? then
              var pg := s.auth.value.postgres.value;
              && Lookup(d, ["auth_database", "postgres"], "url") == Some(Str(pg.url))
              && Lookup(d, ["auth_database", "postgres"], "tls_mode")
                 == Some(Str(if pg.tlsMode == "" then "disable" else pg.tlsMode))
              && Lookup(d, ["auth_database", "postgres"], "max_connections") == NumberIf(pg.maxConnections)
              && Lookup(d, ["auth_database", "postgres"], "connection_timeout_seconds")
                 == NumberIf(pg.connectionTimeoutSeconds)
            else forall key: string :: Lookup(d, ["auth_database", "postgres"], key) == None
  {
    if s.auth.Some? && s.auth.value.enabled && s.auth.value.postgres.Some? {
      var slots := AuthPostgresSlots(s.auth.value.postgres.value);
      KeyAt(s, mintName, password, 7, ["auth_database", "postgres"], slots, 0, "url");
      KeyAt(s, mintName, password, 7, ["auth_database", "postgres"], slots, 1, "tls_mode");
      KeyAt(s, mintName, password, 7, ["auth_database", "postgres"], slots, 2, "max_connections");
      KeyAt(s, mintName, password, 7, ["auth_database", "postgres"], slots, 3, "connection_timeout_seconds");
    } else {
      NoTable(s, mintName, password, 7, ["auth_database", "postgres"]);
    }
  }

  /** One backend is set, and no other. */
  predicate OnlySet(b: PaymentBackend, it: bool) {
    it && CountConfigured(b) == 1
  }

  lemma LnTable(s: Spec, mintName: string, password: string)
    ensures var d, b := ConfigDoc(s, mintName, password), s.paymentBackend;
            && Lookup(d, ["ln"], "ln_backend")
               == Some(Str(if OnlySet(b, b.lnd.Some?) then "lnd"
                     else if OnlySet(b, b.cln.Some?) then "cln"
                     else if OnlySet(b, b.lnbits.Some?) then "lnbits"
                     else if OnlySet(b, b.fakeWallet.Some?) then "fakewallet"
                     else if OnlySet(b, b.grpc.Some?) then "grpcprocessor" else ""))
            && Lookup(d, ["ln"], "min_mint") == NumberIf(b.minMint)
            && Lookup(d, ["ln"], "max_mint") == NumberIf(b.maxMint)
            && Lookup(d, ["ln"], "min_melt") == NumberIf(b.minMelt)
            && Lookup(d, ["ln"], "max_melt") == NumberIf(b.maxMelt)
  {
    var slots := LnSlots(s.paymentBackend);
    KeyAt(s, mintName, password, 8, ["ln"], slots, 0, "ln_backend");
    KeyAt(s, mintName, password, 8, ["ln"], slots, 1, "min_mint");
    KeyAt(s, mintName, password, 8, ["ln"], slots, 2, "max_mint");
    KeyAt(s, mintName, password, 8, ["ln"], slots, 3, "min_melt");
    KeyAt(s, mintName, password, 8, ["ln"], slots, 4, "max_melt");
  }

  lemma LNDTable(s: Spec, mintName: string, password: string)
    ensures var d := ConfigDoc(s, mintName, password);
            if OnlySet(s.paymentBackend, s.paymentBackend.lnd.Some?) then
              var l := s.paymentBackend.lnd.value;
              && Lookup(d, ["lnd"], "address") == Some(Str(l.address))
              && Lookup(d, ["lnd"], "macaroon_file")
                 == (if l.macaroonSecretRef.Some? then Some(Str("/secrets/lnd/macaroon")) else None)
              && Lookup(d, ["lnd"], "cert_file")
                 == (if l.certSecretRef.Some? then Some(Str("/secrets/lnd/cert")) else None)
              && Lookup(d, ["lnd"], "fee_percent") == FeeIf(l.feePercent)
              && Lookup(d, ["lnd"], "reserve_fee_min") == NumberIf(l.reserveFeeMin)
            else forall key: string :: Lookup(d, ["lnd"], key) == None
  {
    if OnlySet(s.paymentBackend, s.paymentBackend.lnd.Some?) {
      var slots := LNDSlots(s.paymentBackend.lnd.value);
      KeyAt(s, mintName, password, 9, ["lnd"], slots, 0, "address");
      KeyAt(s, mintName, password, 9, ["lnd"], slots, 1, "macaroon_file");
      KeyAt(s, mintName, password, 9, ["lnd"], slots, 2, "cert_file");
      KeyAt(s, mintName, password, 9, ["lnd"], slots, 3, "fee_percent");
      KeyAt(s, mintName, password, 9, ["lnd"], slots, 4, "reserve_fee_min");
    } else {
      NoTable(s, mintName, password, 9, ["lnd"]);
    }
  }

  lemma CLNTable(s: Spec, mintName: string, password: string)
    ensures var d := ConfigDoc(s, mintName, password);
            if OnlySet(s.paymentBackend, s.paymentBackend.cln.Some?) then
              var c := s.paymentBackend.cln.value;
              && Lookup(d, ["cln"], "rpc_path") == Some(Str(c.rpcPath))
              && Lookup(d, ["cln"], "bolt12") == FlagIf(c.bolt12)
              && Lookup(d, ["cln"], "fee_percent") == FeeIf(c.feePercent)
              && Lookup(d, ["cln"], "reserve_fee_min") == NumberIf(c.reserveFeeMin)
            else forall key: string :: Lookup(d, ["cln"], key) == None
  {
    if OnlySet(s.paymentBackend, s.paymentBackend.cln.Some?) {
      var slots := CLNSlots(s.paymentBackend.cln.value);
      KeyAt(s, mintName, password, 10, ["cln"], slots, 0, "rpc_path");
      KeyAt(s, mintName, password, 10, ["cln"], slots, 1, "bolt12");
      KeyAt(s, mintName, password, 10, ["cln"], slots, 2, "fee_percent");
      KeyAt(s, mintName, password, 10, ["cln"], slots, 3, "reserve_fee_min");
    } else {
      NoTable(s, mintName, password, 10, ["cln"]);
    }
  }

  lemma LNBitsTable(s: Spec, mintName: string, password: string)
    ensures var d := ConfigDoc(s, mintName, password);
            if OnlySet(s.paymentBackend, s.paymentBackend.lnbits.Some?) then
              var l := s.paymentBackend.lnbits.value;
              && Lookup(d, ["lnbits"], "lnbits_api") == Some(Str(l.api))
              && Lookup(d, ["lnbits"], "retro_api") == (if l.retroAPI then Some(Flag(true)) else None)
              && Lookup(d, ["lnbits"], "fee_percent") == FeeIf(l.feePercent)
              && Lookup(d, ["lnbits"], "reserve_fee_min") == NumberIf(l.reserveFeeMin)
            else forall key: string :: Lookup(d, ["lnbits"], key) == None
  {
    if OnlySet(s.paymentBackend, s.paymentBackend.lnbits.Some?) {
      var slots := LNBitsSlots(s.paymentBackend.lnbits.value);
      KeyAt(s, mintName, password, 11, ["lnbits"], slots, 0, "lnbits_api");
      KeyAt(s, mintName, password, 11, ["lnbits"], slots, 1, "retro_api");
      KeyAt(s, mintName, password, 11, ["lnbits"], slots, 2, "fee_percent");
      KeyAt(s, mintName, password, 11, ["lnbits"], slots, 3, "reserve_fee_min");
    } else {
      NoTable(s, mintName, password, 11, ["lnbits"]);
    }
  }

  lemma FakeWalletTable(s: Spec, mintName: string, password: string)
    ensures var d := ConfigDoc(s, mintName, password);
            if OnlySet(s.paymentBackend, s.paymentBackend.fakeWallet.Some?) then
              var f := s.paymentBackend.fakeWallet.value;
              && Lookup(d, ["fake_wallet"], "supported_units")
                 == Some(Strs(if f.supportedUnits == [] then ["sat"] else f.supportedUnits))
              && Lookup(d, ["fake_wallet"], "fee_percent")
                 == Some(Fixed(if f.feePercent.None? then 20000 else f.feePercent.value))
              && Lookup(d, ["fake_wallet"], "reserve_fee_min")
                 == Some(Num(if f.reserveFeeMin.None? then 1 else f.reserveFeeMin.value))
              && Lookup(d, ["fake_wallet"], "min_delay_time")
                 == Some(Num(if f.minDelayTime.None? then 1 else f.minDelayTime.value))
              && Lookup(d, ["fake_wallet"], "max_delay_time")
                 == Some(Num(if f.maxDelayTime.None? then 3 else f.maxDelayTime.value))
            else forall key: string :: Lookup(d, ["fake_wallet"], key) == None
  {
    if OnlySet(s.paymentBackend, s.paymentBackend.fakeWallet.Some?) {
      var slots := FakeWalletSlots(s.paymentBackend.fakeWallet.value);
      KeyAt(s, mintName, password, 12, ["fake_wallet"], slots, 0, "supported_units");
      KeyAt(s, mintName, password, 12, ["fake_wallet"], slots, 1, "fee_percent");
      KeyAt(s, mintName, password, 12, ["fake_wallet"], slots, 2, "reserve_fee_min");
      KeyAt(s, mintName, password, 12, ["fake_wallet"], slots, 3, "min_delay_time");
      KeyAt(s, mintName, password, 12, ["fake_wallet"], slots, 4, "max_delay_time");
    } else {
      NoTable(s, mintName, password, 12, ["fake_wallet"]);
    }
  }

  lemma SchemeAdded(g: GRPCProcessor)
    ensures GRPCAddress(g) == if g.address == "" then "http://127.0.0.1"
                              else if "http://" <= g.address || "https://" <= g.address then g.address
                              else "http://" + g.address
  {
    var a := "http://127.0.0.1";
    assert a[..7] == "http://";
  }

  lemma GRPCAddressKey(s: Spec, mintName: string, password: string)
    ensures var d := ConfigDoc(s, mintName, password);
            if OnlySet(s.paymentBackend, s.paymentBackend.grpc.Some?) then
              var g := s.paymentBackend.grpc.value;
              && Lookup(d, ["grpc_processor"], "addr")
                 == Some(Str(if g.address == "" then "http://127.0.0.1"
                     else if "http://" <= g.address || "https://" <= g.address then g.address
                     else "http://" + g.address))
            else forall key: string :: Lookup(d, ["grpc_processor"], key) == None
  {
    if OnlySet(s.paymentBackend, s.paymentBackend.grpc.Some?) {
      SchemeAdded(s.paymentBackend.grpc.value);
      var slots := GRPCSlots(s.paymentBackend.grpc.value);
      KeyAt(s, mintName, password, 13, ["grpc_processor"], slots, 0, "addr");
    } else {
      NoTable(s, mintName, password, 13, ["grpc_processor"]);
    }
  }

  lemma GRPCPlainKeys(s: Spec, mintName: string, password: string)
    ensures var d := ConfigDoc(s, mintName, password);
            if OnlySet(s.paymentBackend, s.paymentBackend.grpc.Some?) then
              var g := s.paymentBackend.grpc.value;
              && Lookup(d, ["grpc_processor"], "port") == Some(Num(if g.port == 0 then 50051 else g.port))
              && Lookup(d, ["grpc_processor"], "supported_units")
                 == Some(Strs(if g.supportedUnits == [] then ["sat"] else g.supportedUnits))
              && Lookup(d, ["grpc_processor"], "tls_dir")
                 == (if g.tlsSecretRef.Some? then Some(Str("/secrets/grpc")) else None)
            else forall key: string :: Lookup(d, ["grpc_processor"], key) == None
  {
    if OnlySet(s.paymentBackend, s.paymentBackend.grpc.Some?) {
      var slots := GRPCSlots(s.paymentBackend.grpc.value);
      KeyAt(s, mintName, password, 13, ["grpc_processor"], slots, 1, "port");
      KeyAt(s, mintName, password, 13, ["grpc_processor"], slots, 2, "supported_units");
      KeyAt(s, mintName, password, 13, ["grpc_processor"], slots, 3, "tls_dir");
    } else {
      NoTable(s, mintName, password, 13, ["grpc_processor"]);
    }
  }

  lemma LDKChainKeys(s: Spec, mintName: string, password: string)
    ensures var d := ConfigDoc(s, mintName, password);
            if s.ldkNode.Some? && s.ldkNode.value.enabled then
              var l := s.ldkNode.value;
              && Lookup(d, ["ldk_node"], "fee_percent") == FeeIf(l.feePercent)
              && Lookup(d, ["ldk_node"], "reserve_fee_min") == NumberIf(l.reserveFeeMin)
              && Lookup(d, ["ldk_node"], "bitcoin_network") == Some(Str(l.bitcoinNetwork))
              && Lookup(d, ["ldk_node"], "chain_source") == Some(Str(l.chainSourceType))
              && Lookup(d, ["ldk_node"], "esplora_url") == TextIf(l.esploraURL)
            else forall key: string :: Lookup(d, ["ldk_node"], key) == None
  {
    if s.ldkNode.Some? && s.ldkNode.value.enabled {
      var slots := LDKSlots(s.ldkNode.value);
      KeyAt(s, mintName, password, 14, ["ldk_node"], slots, 0, "fee_percent");
      KeyAt(s, mintName, password, 14, ["ldk_node"], slots, 1, "reserve_fee_min");
      KeyAt(s, mintName, password, 14, ["ldk_node"], slots, 2, "bitcoin_network");
      KeyAt(s, mintName, password, 14, ["ldk_node"], slots, 3, "chain_source");
      KeyAt(s, mintName, password, 14, ["ldk_node"], slots, 4, "esplora_url");
    } else {
      NoTable(s, mintName, password, 14, ["ldk_node"]);
    }
  }

  lemma LDKBitcoinKeys(s: Spec, mintName: string, password: string)
    ensures var d := ConfigDoc(s, mintName, password);
            if s.ldkNode.Some? && s.ldkNode.value.enabled then
              var l := s.ldkNode.value;
              && Lookup(d, ["ldk_node"], "bitcoin_rpc_host")
                 == (if l.bitcoinRPC.Some? then Some(Str(l.bitcoinRPC.value.host)) else None)
              && Lookup(d, ["ldk_node"], "bitcoin_rpc_port")
                 == (if l.bitcoinRPC.Some? then Some(Num(l.bitcoinRPC.value.port)) else None)
              && Lookup(d, ["ldk_node"], "storage_dir_path") == TextIf(l.storageDirPath)
              && Lookup(d, ["ldk_node"], "log_dir_path") == TextIf(l.logDirPath)
            else forall key: string :: Lookup(d, ["ldk_node"], key) == None
  {
    if s.ldkNode.Some? && s.ldkNode.value.enabled {
      var slots := LDKSlots(s.ldkNode.value);
      KeyAt(s, mintName, password, 14, ["ldk_node"], slots, 5, "bitcoin_rpc_host");
      KeyAt(s, mintName, password, 14, ["ldk_node"], slots, 6, "bitcoin_rpc_port");
      KeyAt(s, mintName, password, 14, ["ldk_node"], slots, 7, "storage_dir_path");
      KeyAt(s, mintName, password, 14, ["ldk_node"], slots, 8, "log_dir_path");
    } else {
      NoTable(s, mintName, password, 14, ["ldk_node"]);
    }
  }

  lemma LDKListenKeys(s: Spec, mintName: string, password: string)
    ensures var d := ConfigDoc(s, mintName, password);
            if s.ldkNode.Some? && s.ldkNode.value.enabled then
              var l := s.ldkNode.value;
              && Lookup(d, ["ldk_node"], "ldk_node_host") == Some(Str(if l.host == "" then "0.0.0.0" else l.host))
              && Lookup(d, ["ldk_node"], "ldk_node_port") == Some(Num(if l.port == 0 then 8090 else l.port))
              && Lookup(d, ["ldk_node"], "announce_addresses")
                 == (if l.announceAddresses != [] then Some(Strs(l.announceAddresses)) else None)
            else forall key: string :: Lookup(d, ["ldk_node"], key) == None
  {
    if s.ldkNode.Some? && s.ldkNode.value.enabled {
      var slots := LDKSlots(s.ldkNode.value);
      KeyAt(s, mintName, password, 14, ["ldk_node"], slots, 9, "ldk_node_host");
      KeyAt(s, mintName, password, 14, ["ldk_node"], slots, 10, "ldk_node_port");
      KeyAt(s, mintName, password, 14, ["ldk_node"], slots, 11, "announce_addresses");
    } else {
      NoTable(s, mintName, password, 14, ["ldk_node"]);
    }
  }

  lemma LDKGossipKeys(s: Spec, mintName: string, password: string)
    ensures var d := ConfigDoc(s, mintName, password);
            if s.ldkNode.Some? && s.ldkNode.value.enabled then
              var l := s.ldkNode.value;
              && Lookup(d, ["ldk_node"], "gossip_source") == Some(Str(l.gossipSourceType))
              && Lookup(d, ["ldk_node"], "rgs_url") == TextIf(l.rgsURL)
              && Lookup(d, ["ldk_node"], "webserver_host")
                 == Some(Str(if l.webserverHost == "" then "127.0.0.1" else l.webserverHost))
              && Lookup(d, ["ldk_node"], "webserver_port")
                 == Some(Num(if l.webserverPort == 0 then 8888 else l.webserverPort))
            else forall key: string :: Lookup(d, ["ldk_node"], key) == None
  {
    if s.ldkNode.Some? && s.ldkNode.value.enabled {
      var slots := LDKSlots(s.ldkNode.value);
      KeyAt(s, mintName, password, 14, ["ldk_node"], slots, 12, "gossip_source");
      KeyAt(s, mintName, password, 14, ["ldk_node"], slots, 13, "rgs_url");
      KeyAt(s, mintName, password, 14, ["ldk_node"], slots, 14, "webserver_host");
      KeyAt(s, mintName, password, 14, ["ldk_node"], slots, 15, "webserver_port");
    } else {
      NoTable(s, mintName, password, 14, ["ldk_node"]);
    }
  }

  lemma OpenIDKeys(s: Spec, mintName: string, password: string)
    ensures var d := ConfigDoc(s, mintName, password);
            if s.auth.Some? && s.auth.value.enabled then
              var a := s.auth.value;
              && Lookup(d, ["auth"], "auth_enabled") == Some(Flag(true))
              && Lookup(d, ["auth"], "openid_discovery") == TextIf(a.openIDDiscovery)
              && Lookup(d, ["auth"], "openid_client_id") == TextIf(a.openIDClientID)
              && Lookup(d, ["auth"], "mint_max_bat") == NumberIf(a.mintMaxBat)
            else forall key: string :: Lookup(d, ["auth"], key) == None
  {
    if s.auth.Some? && s.auth.value.enabled {
      var slots := AuthSlots(s.auth.value);
      KeyAt(s, mintName, password, 15, ["auth"], slots, 0, "auth_enabled");
      KeyAt(s, mintName, password, 15, ["auth"], slots, 1, "openid_discovery");
      KeyAt(s, mintName, password, 15, ["auth"], slots, 2, "openid_client_id");
      KeyAt(s, mintName, password, 15, ["auth"], slots, 3, "mint_max_bat");
    } else {
      NoTable(s, mintName, password, 15, ["auth"]);
    }
  }

  lemma MintLevelKeys(s: Spec, mintName: string, password: string)
    ensures var d := ConfigDoc(s, mintName, password);
            if s.auth.Some? && s.auth.value.enabled then
              var a := s.auth.value;
              && Lookup(d, ["auth"], "mint") == TextIf(a.mint)
              && Lookup(d, ["auth"], "get_mint_quote") == TextIf(a.getMintQuote)
              && Lookup(d, ["auth"], "check_mint_quote") == TextIf(a.checkMintQuote)
              && Lookup(d, ["auth"], "melt") == TextIf(a.melt)
              && Lookup(d, ["auth"], "get_melt_quote") == TextIf(a.getMeltQuote)
            else forall key: string :: Lookup(d, ["auth"], key) == None
  {
    if s.auth.Some? && s.auth.value.enabled {
      var slots := AuthSlots(s.auth.value);
      KeyAt(s, mintName, password, 15, ["auth"], slots, 4, "mint");
      KeyAt(s, mintName, password, 15, ["auth"], slots, 5, "get_mint_quote");
      KeyAt(s, mintName, password, 15, ["auth"], slots, 6, "check_mint_quote");
      KeyAt(s, mintName, password, 15, ["auth"], slots, 7, "melt");
      KeyAt(s, mintName, password, 15, ["auth"], slots, 8, "get_melt_quote");
    } else {
      NoTable(s, mintName, password, 15, ["auth"]);
    }
  }

  lemma SwapLevelKeys(s: Spec, mintName: string, password: string)
    ensures var d := ConfigDoc(s, mintName, password);
            if s.auth.Some? && s.auth.value.enabled then
              var a := s.auth.value;
              && Lookup(d, ["auth"], "check_melt_quote") == TextIf(a.checkMeltQuote)
              && Lookup(d, ["auth"], "swap") == TextIf(a.swap)
              && Lookup(d, ["auth"], "restore") == TextIf(a.restore)
              && Lookup(d, ["auth"], "check_proof_state") == TextIf(a.checkProofState)
            else forall key: string :: Lookup(d, ["auth"], key) == None
  {
    if s.auth.Some? && s.auth.value.enabled {
      var slots := AuthSlots(s.auth.value);
      KeyAt(s, mintName, password, 15, ["auth"], slots, 9, "check_melt_quote");
      KeyAt(s, mintName, password, 15, ["auth"], slots, 10, "swap");
      KeyAt(s, mintName, password, 15, ["auth"], slots, 11, "restore");
      KeyAt(s, mintName, password, 15, ["auth"], slots, 12, "check_proof_state");
    } else {
      NoTable(s, mintName, password, 15, ["auth"]);
    }
  }

  lemma ManagementRPCTable(s: Spec, mintName: string, password: string)
    ensures var d := ConfigDoc(s, mintName, password);
            if s.managementRPC.Some? && s.managementRPC.value.enabled then
              var r := s.managementRPC.value;
              && Lookup(d, ["mint_management_rpc"], "enabled") == Some(Flag(true))
              && Lookup(d, ["mint_management_rpc"], "address")
                 == Some(Str(if r.address == "" then "127.0.0.1" else r.address))
              && Lookup(d, ["mint_management_rpc"], "port") == Some(Num(if r.port == 0 then 8086 else r.port))
              && Lookup(d, ["mint_management_rpc"], "tls_dir_path")
                 == (if (s.orchard.Some? && s.orchard.value.enabled) || r.tlsSecretName.Some?
              then Some(Str("/secrets/management-rpc-tls")) else None)
            else forall key: string :: Lookup(d, ["mint_management_rpc"], key) == None
  {
    if s.managementRPC.Some? && s.managementRPC.value.enabled {
      var slots := ManagementRPCSlots(s);
      KeyAt(s, mintName, password, 16, ["mint_management_rpc"], slots, 0, "enabled");
      KeyAt(s, mintName, password, 16, ["mint_management_rpc"], slots, 1, "address");
      KeyAt(s, mintName, password, 16, ["mint_management_rpc"], slots, 2, "port");
      KeyAt(s, mintName, password, 16, ["mint_management_rpc"], slots, 3, "tls_dir_path");
    } else {
      NoTable(s, mintName, password, 16, ["mint_management_rpc"]);
    }
  }

  lemma LimitsTable(s: Spec, mintName: string, password: string)
    ensures var d := ConfigDoc(s, mintName, password);
            if s.limits.Some? then
              var l := s.limits.value;
              && Lookup(d, ["limits"], "max_inputs") == NumberIf(l.maxInputs)
              && Lookup(d, ["limits"], "max_outputs") == NumberIf(l.maxOutputs)
            else forall key: string :: Lookup(d, ["limits"], key) == None
  {
    if s.limits.Some? {
      var slots := LimitsSlots(s.limits.value);
      KeyAt(s, mintName, password, 17, ["limits"], slots, 0, "max_inputs");
      KeyAt(s, mintName, password, 17, ["limits"], slots, 1, "max_outputs");
    } else {
      NoTable(s, mintName, password, 17, ["limits"]);
    }
  }

  lemma PrometheusTable(s: Spec, mintName: string, password: string)
    ensures var d := ConfigDoc(s, mintName, password);
            if s.prometheus.Some? && s.prometheus.value.enabled then
              var p := s.prometheus.value;
              && Lookup(d, ["prometheus"], "enabled") == Some(Flag(true))
              && Lookup(d, ["prometheus"], "address") == Some(Str(if p.address == "" then "0.0.0.0" else p.address))
              && Lookup(d, ["prometheus"], "port") == Some(Num(if p.port.None? then 9000 else p.port.value))
            else forall key: string :: Lookup(d, ["prometheus"], key) == None
  {
    if s.prometheus.Some? && s.prometheus.value.enabled {
      var slots := PrometheusSlots(s.prometheus.value);
      KeyAt(s, mintName, password, 18, ["prometheus"], slots, 0, "enabled");
      KeyAt(s, mintName, password, 18, ["prometheus"], slots, 1, "address");
      KeyAt(s, mintName, password, 18, ["prometheus"], slots, 2, "port");
    } else {
      NoTable(s, mintName, password, 18, ["prometheus"]);
    }
  }
}
