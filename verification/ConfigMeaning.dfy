/** What a reader of config.toml gets back. */
module ConfigMeaning {
  import opened Options
  import opened MintTypes
  import opened Text
  import opened Toml
  import opened TomlDoc
  import opened TomlLayout
  import opened ConfigToml
  import Credentials

  // ---------------------------------------------------------------- the layout is well formed

  predicate BareFrom(keys: seq<string>, lo: nat, hi: nat)
    requires hi <= |keys|
  {
    forall i | lo <= i < hi :: BareKey(keys[i])
  }

  predicate AllBare(keys: seq<string>) {
    BareFrom(keys, 0, |keys|)
  }

  predicate Distinct(keys: seq<string>) {
    forall i, j | 0 <= i < j < |keys| :: keys[i] != keys[j]
  }

  lemma KeysGood(slots: seq<Slot>, keys: seq<string>)
    requires |slots| == |keys| && forall i | 0 <= i < |keys| :: slots[i].key == keys[i]
    requires AllBare(keys) && Distinct(keys)
    ensures GoodSlots(slots)
  {}

  lemma InfoKeys(s: Spec)
    ensures GoodSlots(InfoSlots(s))
  {}

  lemma QuoteTTLKeys(q: QuoteTTL)
    ensures GoodSlots(QuoteTTLSlots(q))
  {}

  const HTTP_CACHE_KEYS: seq<string> := ["backend", "ttl", "tti", "key_prefix", "connection_string"]

  lemma HTTPCacheNames()
    ensures AllBare(HTTP_CACHE_KEYS) && Distinct(HTTP_CACHE_KEYS)
  {}

  lemma HTTPCacheKeys(c: HTTPCache)
    ensures GoodSlots(HTTPCacheSlots(c))
  {
    HTTPCacheNames();
    KeysGood(HTTPCacheSlots(c), HTTP_CACHE_KEYS);
  }

  lemma LoggingKeys(l: Logging)
    ensures GoodSlots(LoggingSlots(l))
  {}

  const MINT_INFO_KEYS: seq<string> :=
    ["name", "description", "description_long", "motd", "pubkey", "icon_url", "contact_email",
     "contact_nostr_public_key", "tos_url", "input_fee_ppk"]

  lemma MintInfoKeyBareFirst()
    ensures BareFrom(MINT_INFO_KEYS, 0, 3)
  {}

  lemma MintInfoKeyBareMiddle()
    ensures BareFrom(MINT_INFO_KEYS, 3, 6)
  {}

  lemma MintInfoKeyBareLast()
    ensures BareFrom(MINT_INFO_KEYS, 6, 10)
  {}

  lemma MintInfoKeyBare()
    ensures AllBare(MINT_INFO_KEYS)
  {
    MintInfoKeyBareFirst();
    MintInfoKeyBareMiddle();
    MintInfoKeyBareLast();
  }

  lemma MintInfoKeyDistinct()
    ensures Distinct(MINT_INFO_KEYS)
  {}

  lemma MintInfoKeys(m: MintInfo)
    ensures GoodSlots(MintInfoSlots(m))
  {
    MintInfoKeyBare();
    MintInfoKeyDistinct();
    KeysGood(MintInfoSlots(m), MINT_INFO_KEYS);
  }

  const POSTGRES_KEYS: seq<string> := ["url", "tls_mode", "max_connections", "connection_timeout_seconds"]

  lemma PostgresNames()
    ensures AllBare(POSTGRES_KEYS) && Distinct(POSTGRES_KEYS)
  {}

  lemma PostgresKeys(pg: Postgres, mintName: string, password: string)
    ensures GoodSlots(PostgresSlots(pg, mintName, password))
  {
    PostgresNames();
    KeysGood(PostgresSlots(pg, mintName, password), POSTGRES_KEYS);
  }

  lemma AuthPostgresKeys(pg: Postgres)
    ensures GoodSlots(AuthPostgresSlots(pg))
  {
    PostgresNames();
    KeysGood(AuthPostgresSlots(pg), POSTGRES_KEYS);
  }

  const LN_KEYS: seq<string> := ["ln_backend", "min_mint", "max_mint", "min_melt", "max_melt"]

  lemma LnNames()
    ensures AllBare(LN_KEYS) && Distinct(LN_KEYS)
  {}

  lemma LnKeys(p: PaymentBackend)
    ensures GoodSlots(LnSlots(p))
  {
    LnNames();
    KeysGood(LnSlots(p), LN_KEYS);
  }

  const LND_KEYS: seq<string> := ["address", "macaroon_file", "cert_file", "fee_percent", "reserve_fee_min"]

  lemma LNDNames()
    ensures AllBare(LND_KEYS) && Distinct(LND_KEYS)
  {}

  lemma LNDKeys(l: LND)
    ensures GoodSlots(LNDSlots(l))
  {
    LNDNames();
    KeysGood(LNDSlots(l), LND_KEYS);
  }

  const CLN_KEYS: seq<string> := ["rpc_path", "bolt12", "fee_percent", "reserve_fee_min"]

  lemma CLNNames()
    ensures AllBare(CLN_KEYS) && Distinct(CLN_KEYS)
  {}

  lemma CLNKeys(c: CLN)
    ensures GoodSlots(CLNSlots(c))
  {
    CLNNames();
    KeysGood(CLNSlots(c), CLN_KEYS);
  }

  const LNBITS_KEYS: seq<string> := ["lnbits_api", "retro_api", "fee_percent", "reserve_fee_min"]

  lemma LNBitsNames()
    ensures AllBare(LNBITS_KEYS) && Distinct(LNBITS_KEYS)
  {}

  lemma LNBitsKeys(l: LNBits)
    ensures GoodSlots(LNBitsSlots(l))
  {
    LNBitsNames();
    KeysGood(LNBitsSlots(l), LNBITS_KEYS);
  }

  const FAKE_WALLET_KEYS: seq<string> :=
      ["supported_units", "fee_percent", "reserve_fee_min", "min_delay_time", "max_delay_time"]

  lemma FakeWalletNames()
    ensures AllBare(FAKE_WALLET_KEYS) && Distinct(FAKE_WALLET_KEYS)
  {}

  lemma FakeWalletKeys(f: FakeWallet)
    ensures GoodSlots(FakeWalletSlots(f))
  {
    FakeWalletNames();
    KeysGood(FakeWalletSlots(f), FAKE_WALLET_KEYS);
  }

  const GRPC_KEYS: seq<string> := ["addr", "port", "supported_units", "tls_dir"]

  lemma GRPCNames()
    ensures AllBare(GRPC_KEYS) && Distinct(GRPC_KEYS)
  {}

  lemma GRPCKeys(g: GRPCProcessor)
    ensures GoodSlots(GRPCSlots(g))
  {
    GRPCNames();
    KeysGood(GRPCSlots(g), GRPC_KEYS);
  }

  const LDK_KEYS: seq<string> :=
    ["fee_percent", "reserve_fee_min", "bitcoin_network", "chain_source", "esplora_url", "bitcoin_rpc_host",
     "bitcoin_rpc_port", "storage_dir_path", "log_dir_path", "ldk_node_host", "ldk_node_port",
     "announce_addresses", "gossip_source", "rgs_url", "webserver_host", "webserver_port"]

  lemma LDKKeyBare1()
    ensures BareFrom(LDK_KEYS, 0, 4)
  {}

  lemma LDKKeyBare2()
    ensures BareFrom(LDK_KEYS, 4, 7)
  {}

  lemma LDKKeyBare3()
    ensures BareFrom(LDK_KEYS, 7, 9)
  {}

  lemma LDKKeyBare4()
    ensures BareFrom(LDK_KEYS, 9, 11)
  {}

  lemma LDKKeyBare5()
    ensures BareFrom(LDK_KEYS, 11, 13)
  {}

  lemma LDKKeyBare6()
    ensures BareFrom(LDK_KEYS, 13, 16)
  {}

  lemma LDKKeyBare()
    ensures AllBare(LDK_KEYS)
  {
    LDKKeyBare1();
    LDKKeyBare2();
    LDKKeyBare3();
    LDKKeyBare4();
    LDKKeyBare5();
    LDKKeyBare6();
  }

  lemma LDKKeyDistinct()
    ensures Distinct(LDK_KEYS)
  {}

  lemma LDKKeys(l: LDKNode)
    ensures GoodSlots(LDKSlots(l))
  {
    LDKKeyBare();
    LDKKeyDistinct();
    KeysGood(LDKSlots(l), LDK_KEYS);
  }

  const AUTH_KEYS: seq<string> :=
    ["auth_enabled", "openid_discovery", "openid_client_id", "mint_max_bat", "mint", "get_mint_quote",
     "check_mint_quote", "melt", "get_melt_quote", "check_melt_quote", "swap", "restore", "check_proof_state"]

  lemma AuthKeyBareFirst()
    ensures BareFrom(AUTH_KEYS, 0, 4)
  {}

  lemma AuthKeyBareMiddle()
    ensures BareFrom(AUTH_KEYS, 4, 8)
  {}

  lemma AuthKeyBareLast()
    ensures BareFrom(AUTH_KEYS, 8, 13)
  {}

  lemma AuthKeyBare()
    ensures AllBare(AUTH_KEYS)
  {
    AuthKeyBareFirst();
    AuthKeyBareMiddle();
    AuthKeyBareLast();
  }

  lemma AuthKeyDistinct()
    ensures Distinct(AUTH_KEYS)
  {}

  lemma AuthKeys(a: Auth)
    ensures GoodSlots(AuthSlots(a))
  {
    AuthKeyBare();
    AuthKeyDistinct();
    KeysGood(AuthSlots(a), AUTH_KEYS);
  }

  lemma ManagementRPCKeys(s: Spec)
    requires ManagementRPCOn(s)
    ensures GoodSlots(ManagementRPCSlots(s))
  {}

  lemma LimitsKeys(l: Limits)
    ensures GoodSlots(LimitsSlots(l))
  {}

  lemma PrometheusKeys(p: Prometheus)
    ensures GoodSlots(PrometheusSlots(p))
  {}

  // ---------------------------------------------------------------- the tables

  const TOP_NAMES: seq<string> :=
    ["info", "info", "info", "info", "mint_info", "database", "database", "auth_database", "ln", "lnd", "cln", "lnbits",
     "fake_wallet", "grpc_processor", "ldk_node", "auth", "mint_management_rpc", "limits", "prometheus"]

  const SUB_NAMES: seq<string> :=
    ["", "quote_ttl", "http_cache", "logging", "", "", "postgres", "postgres", "", "", "", "", "", "", "", "", "", "",
        ""]

  function TablePath(i: nat): Path
    requires i < 19
  {
    if SUB_NAMES[i] == "" then [TOP_NAMES[i]] else [TOP_NAMES[i], SUB_NAMES[i]]
  }

  lemma FirstPaths(s: Spec, mintName: string, password: string)
    ensures forall i | 0 <= i < 4 :: InfoSections(s)[i].path == TablePath(i)
    ensures MintInfoSection(s).path == TablePath(4)
    ensures forall i | 0 <= i < 3 :: DatabaseSections(s, mintName, password)[i].path == TablePath(5 + i)
  {}

  lemma LastPaths(s: Spec)
    ensures forall i | 0 <= i < 6 :: PaymentSections(s.paymentBackend)[i].path == TablePath(8 + i)
    ensures forall i | 0 <= i < 5 :: LaterSections(s)[i].path == TablePath(14 + i)
  {}

  lemma SectionAt(s: Spec, mintName: string, password: string)
    ensures var ss := AllSections(s, mintName, password);
            && |ss| == 19
            && (forall i | 0 <= i < 4 :: ss[i] == InfoSections(s)[i])
            && ss[4] == MintInfoSection(s)
            && (forall i | 5 <= i < 8 :: ss[i] == DatabaseSections(s, mintName, password)[i - 5])
            && (forall i | 8 <= i < 14 :: ss[i] == PaymentSections(s.paymentBackend)[i - 8])
            && (forall i | 14 <= i < 19 :: ss[i] == LaterSections(s)[i - 14])
  {}

  lemma SectionPaths(s: Spec, mintName: string, password: string)
    ensures |AllSections(s, mintName, password)| == 19
    ensures forall i | 0 <= i < 19 :: AllSections(s, mintName, password)[i].path == TablePath(i)
  {
    SectionAt(s, mintName, password);
    FirstPaths(s, mintName, password);
    LastPaths(s);
  }

  lemma NamesBare()
    ensures forall i | 0 <= i < 19 :: BareKey(TOP_NAMES[i]) && (SUB_NAMES[i] != "" ==> BareKey(SUB_NAMES[i]))
  {}

  lemma PathsGood()
    ensures forall i | 0 <= i < 19 :: GoodPath(TablePath(i))
  {
    NamesBare();
  }

  lemma TopNames()
    ensures forall i, j | 0 <= i < j < 19 && TOP_NAMES[i] == TOP_NAMES[j] :: j < 4 || (i == 5 && j == 6)
  {}

  lemma PathsDistinct()
    ensures forall i, j | 0 <= i < j < 19 :: TablePath(i) != TablePath(j)
  {
    TopNames();
  }

  predicate GoodSection(s: Section) {
    s.slots.Some? ==> GoodSlots(s.slots.value)
  }

  lemma InfoGood(s: Spec)
    ensures forall i | 0 <= i < 4 :: GoodSection(InfoSections(s)[i])
    ensures GoodSection(MintInfoSection(s))
  {
    InfoKeys(s);
    if s.mintInfo.quoteTTL.Some? { QuoteTTLKeys(s.mintInfo.quoteTTL.value); }
    if s.httpCache.Some? { HTTPCacheKeys(s.httpCache.value); }
    if s.logging.Some? { LoggingKeys(s.logging.value); }
    MintInfoKeys(s.mintInfo);
  }

  lemma DatabaseGood(s: Spec, mintName: string, password: string)
    ensures forall i | 0 <= i < 3 :: GoodSection(DatabaseSections(s, mintName, password)[i])
  {
    if UsesPostgres(s) { PostgresKeys(s.database.postgres.value, mintName, password); }
    if AuthOn(s) && s.auth.value.postgres.Some? { AuthPostgresKeys(s.auth.value.postgres.value); }
  }

  lemma PaymentGood(p: PaymentBackend)
    ensures forall i | 0 <= i < 6 :: GoodSection(PaymentSections(p)[i])
  {
    LnKeys(p);
    if p.lnd.Some? { LNDKeys(p.lnd.value); }
    if p.cln.Some? { CLNKeys(p.cln.value); }
    if p.lnbits.Some? { LNBitsKeys(p.lnbits.value); }
    if p.fakeWallet.Some? { FakeWalletKeys(p.fakeWallet.value); }
    if p.grpc.Some? { GRPCKeys(p.grpc.value); }
  }

  lemma LaterGood(s: Spec)
    ensures forall i | 0 <= i < 5 :: GoodSection(LaterSections(s)[i])
  {
    if LDKOn(s) { LDKKeys(s.ldkNode.value); }
    if AuthOn(s) { AuthKeys(s.auth.value); }
    if ManagementRPCOn(s) { ManagementRPCKeys(s); }
    if s.limits.Some? { LimitsKeys(s.limits.value); }
    if PrometheusOn(s) { PrometheusKeys(s.prometheus.value); }
  }

  lemma SectionsGood(s: Spec, mintName: string, password: string)
    ensures |AllSections(s, mintName, password)| == 19
    ensures forall i | 0 <= i < 19 :: GoodSection(AllSections(s, mintName, password)[i])
  {
    SectionAt(s, mintName, password);
    InfoGood(s);
    DatabaseGood(s, mintName, password);
    PaymentGood(s.paymentBackend);
    LaterGood(s);
  }

  predicate NoKey(slots: seq<Slot>, key: string) {
    forall j | 0 <= j < |slots| :: slots[j].key != key
  }

  /** The keys of a table with subtables are no subtables. */
  lemma NoKeyNamesATable(s: Spec, mintName: string, password: string)
    ensures NoKey(InfoSlots(s), "quote_ttl") && NoKey(InfoSlots(s), "http_cache") && NoKey(InfoSlots(s), "logging")
    ensures NoKey(DatabaseSections(s, mintName, password)[0].slots.value, "postgres")
  {}

  lemma Uncovered(s: Section, path: Path)
    requires |path| == 2 ==> s.slots.None? || s.path != [path[0]] || NoKey(s.slots.value, path[1])
    requires 1 <= |path| <= 2 && s.path != []
    ensures !Covers(s, path)
  {
    if s.slots.Some? {
      forall j | 0 <= j < |s.slots.value| ensures !(s.path + [s.slots.value[j].key] <= path) {
        var key := s.slots.value[j].key;
        var full := s.path + [key];
        assert full[0] == s.path[0] && full[|s.path|] == key;
        assert |s.path| == 1 ==> s.path == [s.path[0]];
      }
    }
  }

  /** A table whose path is one name and the table it is the parent of. */
  lemma Parents(i: nat, k: nat)
    requires i < 19 && k < 19 && |TablePath(k)| == 2 && TablePath(i) == [TablePath(k)[0]]
    ensures (i == 0 && 1 <= k <= 3) || (i == 5 && k == 6)
  {}

  lemma NothingCovered(s: Spec, mintName: string, password: string, i: nat, k: nat)
    requires i < 19 && k < 19
    ensures |AllSections(s, mintName, password)| == 19
    ensures !Covers(AllSections(s, mintName, password)[i], AllSections(s, mintName, password)[k].path)
  {
    var ss := AllSections(s, mintName, password);
    SectionPaths(s, mintName, password);
    if |TablePath(k)| == 2 && TablePath(i) == [TablePath(k)[0]] {
      Parents(i, k);
      SectionAt(s, mintName, password);
      NoKeyNamesATable(s, mintName, password);
    }
    Uncovered(ss[i], TablePath(k));
  }

  lemma LayoutGood(s: Spec, mintName: string, password: string)
    ensures GoodLayout(AllSections(s, mintName, password))
  {
    var ss := AllSections(s, mintName, password);
    SectionPaths(s, mintName, password);
    PathsDistinct();
    PathsGood();
    SectionsGood(s, mintName, password);
    forall i, k | 0 <= i < 19 && 0 <= k < 19 ensures !Covers(ss[i], ss[k].path) {
      NothingCovered(s, mintName, password, i, k);
    }
  }

  // ---------------------------------------------------------------- main results

  /** For every spec: no table twice, no key twice in a table, no key that is also a table. */
  lemma ConfigWellFormed(s: Spec, mintName: string, password: string)
    ensures WellFormed(ConfigDoc(s, mintName, password))
  {
    LayoutGood(s, mintName, password);
    LayoutWellFormed(AllSections(s, mintName, password));
  }

  /** The file reads back as the settings it was printed from, exactly when every string in it is one
      whose Go quoting TOML reads and every array element is one that needs no quoting. */
  lemma ConfigRoundTrip(isPrint: char -> bool, s: Spec, mintName: string, password: string)
    ensures ReadDoc(ConfigText(isPrint, s, mintName, password)) == Some(ConfigDoc(s, mintName, password))
       <==> AllPrinting(ConfigDoc(s, mintName, password))
  {
    ConfigWellFormed(s, mintName, password);
    DocRoundTrip(isPrint, ConfigDoc(s, mintName, password));
  }

  /** What the spec puts under a dotted name is what the reader of the file finds there. */
  lemma ReaderSees(isPrint: char -> bool, s: Spec, mintName: string, password: string, i: nat, j: nat)
    requires AllPrinting(ConfigDoc(s, mintName, password))
    requires i < |AllSections(s, mintName, password)| && AllSections(s, mintName, password)[i].slots.Some?
    requires j < |AllSections(s, mintName, password)[i].slots.value|
    ensures var section := AllSections(s, mintName, password)[i];
            var file := ReadDoc(ConfigText(isPrint, s, mintName, password));
            file.Some? && Lookup(file.value, section.path, section.slots.value[j].key) == section.slots.value[j].value
  {
    ConfigRoundTrip(isPrint, s, mintName, password);
    LayoutGood(s, mintName, password);
    SlotLookup(AllSections(s, mintName, password), i, j);
  }

  /** Equal files mean equal settings. */
  lemma EqualFilesEqualSettings(isPrint: char -> bool, s: Spec, mintName: string, password: string,
                                s': Spec, mintName': string, password': string)
    requires AllPrinting(ConfigDoc(s, mintName, password)) && AllPrinting(ConfigDoc(s', mintName', password'))
    requires ConfigText(isPrint, s, mintName, password) == ConfigText(isPrint, s', mintName', password')
    ensures ConfigDoc(s, mintName, password) == ConfigDoc(s', mintName', password')
  {
    ConfigWellFormed(s, mintName, password);
    ConfigWellFormed(s', mintName', password');
    TextDeterminesDoc(isPrint, ConfigDoc(s, mintName, password), ConfigDoc(s', mintName', password'));
  }

  function DatabaseURL(d: Doc): Option<Value> {
    Lookup(d, ["database", "postgres"], "url")
  }

  /** The main database url of the file: there is one exactly when the spec uses postgres and names a
      url or has it provisioned, it is never empty, and a provisioned one carries the password. */
  lemma MainDatabaseURL(s: Spec, mintName: string, password: string)
    ensures var url := DatabaseURL(ConfigDoc(s, mintName, password));
            && (url.Some? <==> UsesPostgres(s) && (AutoProvision(s) || s.database.postgres.value.url != ""))
            && (url.Some? ==> url.value.Str? && url.value.s != "")
            && (url.Some? && AutoProvision(s) ==> url.value.s == Credentials.ConfigURL(password, mintName))
            && (url.Some? && !AutoProvision(s) ==> url.value.s == s.database.postgres.value.url)
  {
    var ss := AllSections(s, mintName, password);
    LayoutGood(s, mintName, password);
    SectionAt(s, mintName, password);
    if UsesPostgres(s) {
      SlotLookup(ss, 6, 0);
    } else {
      MissingLookup(ss, 6, "url");
    }
  }
}
