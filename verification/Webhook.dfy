/** The mutating webhook: a CashuMint whose spec the passes of Default update in place. */
module Webhook {
  import opened Options
  import opened MintTypes
  import opened Defaulting
  import DefaultTables

  class Mint {
    const name: string
    var spec: Spec

    constructor (name: string, spec: Spec)
      ensures this.name == name && this.spec == spec
    {
      this.name, this.spec := name, spec;
    }

    method Default()
      modifies this
      ensures spec == Defaults(old(spec), name)
      ensures spec.database.engine == if old(spec).database.engine == "" then "postgres" else old(spec).database.engine
      ensures old(spec).orchard.Some? && old(spec).orchard.value.enabled && old(spec).orchard.value.image == "" ==>
                && spec.orchard.Some?
                && (spec.database.engine == "postgres" ==>
                      spec.orchard.value.image == "ghcr.io/cashubtc/orchard-mintdb-postgres:1.8.1")
                && (spec.database.engine != "postgres" ==>
                      spec.orchard.value.image == "ghcr.io/cashubtc/orchard-mintdb-sqlite:1.8.1")
    {
      DefaultTables.EngineTable(spec, name);
      if spec.orchard.Some? && spec.orchard.value.enabled {
        DefaultTables.OrchardImageTable(spec, name);
      }
      DefaultMintInfo();
      DefaultDatabase();
      DefaultIngress();
      DefaultOrchard();
      DefaultOperational();
      DefaultPaymentBackend();
    }

    method DefaultMintInfo()
      modifies this
      ensures spec == MintInfoDefaults(old(spec))
    {
      if spec.mintInfo.listenHost == "" {
        spec := spec.(mintInfo := spec.mintInfo.(listenHost := DEFAULT_LISTEN_HOST));
      }
      if spec.mintInfo.listenPort == 0 {
        spec := spec.(mintInfo := spec.mintInfo.(listenPort := 8085));
      }
      if spec.image == "" {
        spec := spec.(image := DEFAULT_MINT_IMAGE);
      }
      if spec.replicas.None? {
        spec := spec.(replicas := Some(1));
      }
      if spec.mintInfo.quoteTTL.Some? {
        var ttl := spec.mintInfo.quoteTTL.value;
        if ttl.mintTTL.None? {
          ttl := ttl.(mintTTL := Some(600));
        }
        if ttl.meltTTL.None? {
          ttl := ttl.(meltTTL := Some(120));
        }
        spec := spec.(mintInfo := spec.mintInfo.(quoteTTL := Some(ttl)));
      }
    }

    method DefaultDatabase()
      modifies this
      ensures spec == DatabaseDefaults(old(spec))
    {
      if spec.database.engine == "" {
        spec := spec.(database := spec.database.(engine := ENGINE_POSTGRES));
      }
      if spec.database.engine == ENGINE_POSTGRES && spec.database.postgres.Some? {
        DefaultPostgres();
      }
      if spec.database.engine == ENGINE_SQLITE && spec.database.sqlite.Some? {
        if spec.database.sqlite.value.dataDir == "" {
          spec := spec.(database := spec.database.(sqlite := Some(SQLite("/data"))));
        }
      }
    }

    method DefaultPostgres()
      requires spec.database.postgres.Some?
      modifies this
      ensures spec == old(spec).(database :=
              old(spec).database.(postgres := Some(FillPostgres(old(spec).database.postgres.value))))
    {
      var pg := spec.database.postgres.value;
      if pg.tlsMode == "" {
        if pg.autoProvision {
          pg := pg.(tlsMode := "disable");
        } else {
          pg := pg.(tlsMode := "require");
        }
      }
      if pg.maxConnections.None? {
        pg := pg.(maxConnections := Some(20));
      }
      if pg.connectionTimeoutSeconds.None? {
        pg := pg.(connectionTimeoutSeconds := Some(10));
      }
      if pg.autoProvision && pg.autoProvisionSpec.Some? {
        var p := pg.autoProvisionSpec.value;
        if p.storageSize == "" {
          p := p.(storageSize := DEFAULT_STORAGE_SIZE);
        }
        if p.version == "" {
          p := p.(version := "15");
        }
        pg := pg.(autoProvisionSpec := Some(p));
      }
      spec := spec.(database := spec.database.(postgres := Some(pg)));
    }

    method DefaultIngress()
      modifies this
      ensures spec == IngressDefaults(old(spec))
    {
      if spec.ingress.None? || !spec.ingress.value.enabled {
        return;
      }
      var ingress := DefaultIngressConfig(spec.ingress.value);
      spec := spec.(ingress := Some(ingress));
    }

    method DefaultOrchard()
      modifies this
      ensures spec == OrchardDefaults(old(spec))
      ensures old(spec).orchard.Some? && old(spec).orchard.value.enabled && old(spec).orchard.value.image == "" ==>
                spec.orchard.Some?
                && spec.orchard.value.image
                   == if spec.database.engine == "postgres" then "ghcr.io/cashubtc/orchard-mintdb-postgres:1.8.1"
                      else "ghcr.io/cashubtc/orchard-mintdb-sqlite:1.8.1"
    {
      if spec.orchard.None? || !spec.orchard.value.enabled {
        return;
      }
      DefaultOrchardServer();
      DefaultOrchardParts();
      if spec.managementRPC.None? {
        spec := spec.(managementRPC := Some(ManagementRPC(true, "", 0, None)));
      }
      DefaultOrchardLinks();
    }

    method DefaultOrchardServer()
      requires spec.orchard.Some?
      modifies this
      ensures spec == old(spec).(orchard := Some(FillOrchardServer(old(spec).orchard.value, spec.database.engine)))
    {
      var orchard := spec.orchard.value;
      if orchard.image == "" {
        orchard := orchard.(image := DefaultOrchardImage(spec.database.engine));
      }
      if orchard.imagePullPolicy == "" {
        orchard := orchard.(imagePullPolicy := "IfNotPresent");
      }
      if orchard.host == "" {
        orchard := orchard.(host := DEFAULT_LISTEN_HOST);
      }
      if orchard.port == 0 {
        orchard := orchard.(port := 3321);
      }
      orchard := DefaultOrchardLimits(orchard);
      spec := spec.(orchard := Some(orchard));
    }

    method DefaultOrchardParts()
      requires spec.orchard.Some?
      modifies this
      ensures spec == old(spec).(orchard := Some(FillOrchardParts(old(spec).orchard.value)))
    {
      var orchard := spec.orchard.value;
      if orchard.storage.None? {
        orchard := orchard.(storage := Some(Storage("")));
      }
      if orchard.storage.value.size == "" {
        orchard := orchard.(storage := Some(Storage(DEFAULT_STORAGE_SIZE)));
      }
      if orchard.service.None? {
        orchard := orchard.(service := Some(Service("", "")));
      }
      if orchard.service.value.kind == "" {
        orchard := orchard.(service := Some(orchard.service.value.(kind := "ClusterIP")));
      }
      if orchard.ingress.Some? && orchard.ingress.value.enabled {
        var ingress := DefaultIngressConfig(orchard.ingress.value);
        orchard := orchard.(ingress := Some(ingress));
      }
      spec := spec.(orchard := Some(orchard));
    }

    method DefaultOrchardLinks()
      requires spec.orchard.Some?
      modifies this
      ensures spec == old(spec).(orchard := Some(FillOrchardLinks(old(spec).orchard.value, ManagementTLSOn(old(spec)))))
    {
      var orchard := spec.orchard.value;
      if orchard.mint.None? {
        orchard := orchard.(mint := Some(NoOrchardMint()));
      }
      var mint := orchard.mint.value;
      if mint.kind == "" {
        mint := mint.(kind := "cdk");
      }
      if mint.rpc.Some? {
        var rpc := DefaultOrchardRPC(mint.rpc.value);
        mint := mint.(rpc := Some(rpc));
      }
      orchard := orchard.(mint := Some(mint));
      if orchard.bitcoin.Some? && orchard.bitcoin.value.kind == "" {
        orchard := orchard.(bitcoin := Some(orchard.bitcoin.value.(kind := "core")));
      }
      if orchard.taproot.Some? && orchard.taproot.value.kind == "" {
        orchard := orchard.(taproot := Some(orchard.taproot.value.(kind := "tapd")));
      }
      spec := spec.(orchard := Some(orchard));
    }

    method DefaultOrchardRPC(r: OrchardRPC) returns (rpc: OrchardRPC)
      ensures rpc == FillRPC(r, ManagementTLSOn(spec))
    {
      rpc := r;
      if rpc.host == "" {
        rpc := rpc.(host := DEFAULT_LOOPBACK_HOST);
      }
      if rpc.port == 0 {
        rpc := rpc.(port := 8086);
      }
      if rpc.mtls.None? {
        var mtls := ManagementTLSOn(spec);
        rpc := rpc.(mtls := Some(mtls));
      }
    }

    method DefaultOperational()
      modifies this
      ensures spec == OperationalDefaults(old(spec), name)
    {
      DefaultStores();
      DefaultServers();
      if spec.backup.Some? && spec.backup.value.enabled {
        var backup := DefaultBackup(spec.backup.value);
        spec := spec.(backup := Some(backup));
      }
      if spec.auth.Some? && spec.auth.value.enabled {
        var auth := DefaultAuth(spec.auth.value);
        spec := spec.(auth := Some(auth));
      }
    }

    /** Logging, storage and the Service, at the start of defaultOperational. */
    method DefaultStores()
      modifies this
      ensures spec == old(spec).(logging := Fill(old(spec).logging, FillLogging),
                                 storage := Fill(old(spec).storage, FillStorage),
                                 service := Fill(old(spec).service, FillService))
    {
      if spec.logging.Some? {
        var logging := spec.logging.value;
        if logging.level == "" {
          logging := logging.(level := "info");
        }
        if logging.format == "" {
          logging := logging.(format := "json");
        }
        spec := spec.(logging := Some(logging));
      }
      if spec.storage.Some? && spec.storage.value.size == "" {
        spec := spec.(storage := Some(Storage(DEFAULT_STORAGE_SIZE)));
      }
      if spec.service.Some? && spec.service.value.kind == "" {
        spec := spec.(service := Some(spec.service.value.(kind := "ClusterIP")));
      }
    }

    /** The cache, the management RPC and Prometheus, in the middle of defaultOperational. */
    method DefaultServers()
      modifies this
      ensures spec == old(spec).(httpCache := Fill(old(spec).httpCache, FillHTTPCache),
                                 managementRPC := Fill(old(spec).managementRPC, FillManagementRPC),
                                 prometheus := Fill(old(spec).prometheus, FillPrometheus))
    {
      if spec.httpCache.Some? {
        var cache := DefaultHTTPCache(spec.httpCache.value);
        spec := spec.(httpCache := Some(cache));
      }
      if spec.managementRPC.Some? && spec.managementRPC.value.enabled {
        var rpc := spec.managementRPC.value;
        if rpc.address == "" {
          rpc := rpc.(address := DEFAULT_LOOPBACK_HOST);
        }
        if rpc.port == 0 {
          rpc := rpc.(port := 8086);
        }
        spec := spec.(managementRPC := Some(rpc));
      }
      if spec.prometheus.Some? && spec.prometheus.value.enabled {
        var prometheus := spec.prometheus.value;
        if prometheus.address == "" {
          prometheus := prometheus.(address := DEFAULT_LISTEN_HOST);
        }
        if prometheus.port.None? {
          prometheus := prometheus.(port := Some(DEFAULT_PROMETHEUS_PORT));
        }
        spec := spec.(prometheus := Some(prometheus));
      }
    }

    method DefaultBackup(b: Backup) returns (backup: Backup)
      requires b.enabled
      ensures backup == FillBackup(b, name)
    {
      backup := b;
      if backup.schedule == "" {
        backup := backup.(schedule := "0 */6 * * *");
      }
      if backup.retentionCount.None? {
        backup := backup.(retentionCount := Some(14));
      }
      if backup.s3.Some? && backup.s3.value.prefix == "" {
        backup := backup.(s3 := Some(backup.s3.value.(prefix := name)));
      }
    }

    method DefaultPaymentBackend()
      modifies this
      ensures spec == PaymentDefaults(old(spec))
    {
      var p := spec.paymentBackend;
      if p.lnd.Some? {
        var lnd := DefaultLND(p.lnd.value);
        p := p.(lnd := Some(lnd));
      }
      if p.cln.Some? {
        var cln := DefaultCLN(p.cln.value);
        p := p.(cln := Some(cln));
      }
      if p.lnbits.Some? {
        var lnbits := DefaultLNBits(p.lnbits.value);
        p := p.(lnbits := Some(lnbits));
      }
      if p.fakeWallet.Some? {
        var fakeWallet := DefaultFakeWallet(p.fakeWallet.value);
        p := p.(fakeWallet := Some(fakeWallet));
      }
      if p.grpc.Some? {
        var grpc := DefaultGRPCProcessor(p.grpc.value);
        p := p.(grpc := Some(grpc));
      }
      spec := spec.(paymentBackend := p);
      if spec.ldkNode.Some? && spec.ldkNode.value.enabled {
        var ldk := DefaultLDKNode(spec.ldkNode.value);
        spec := spec.(ldkNode := Some(ldk));
      }
    }
  }

  method DefaultIngressConfig(i: Ingress) returns (ingress: Ingress)
    ensures ingress == FillIngress(i)
  {
    ingress := i;
    if !ingress.enabled {
      return;
    }
    if ingress.className == "" {
      ingress := ingress.(className := DEFAULT_INGRESS_CLASS);
    }
    if ingress.tls.Some? && ingress.tls.value.certManager.Some? {
      var certManager := ingress.tls.value.certManager.value;
      if certManager.issuerKind == "" {
        certManager := certManager.(issuerKind := DEFAULT_ISSUER_KIND);
      }
      ingress := ingress.(tls := Some(ingress.tls.value.(certManager := Some(certManager))));
    }
  }

  method DefaultOrchardLimits(o: Orchard) returns (orchard: Orchard)
    ensures orchard == o.(basePath := Or(o.basePath, "api"), logLevel := Or(o.logLevel, "warn"),
                          throttleTTL := OrSome(o.throttleTTL, 60000), throttleLimit := OrSome(o.throttleLimit, 20))
  {
    orchard := o;
    if orchard.basePath == "" {
      orchard := orchard.(basePath := "api");
    }
    if orchard.logLevel == "" {
      orchard := orchard.(logLevel := "warn");
    }
    if orchard.throttleTTL.None? {
      orchard := orchard.(throttleTTL := Some(60000));
    }
    if orchard.throttleLimit.None? {
      orchard := orchard.(throttleLimit := Some(20));
    }
  }

  method DefaultHTTPCache(c: HTTPCache) returns (cache: HTTPCache)
    ensures cache == FillHTTPCache(c)
  {
    cache := c;
    if cache.backend == "" {
      cache := cache.(backend := "memory");
    }
    if cache.ttl.None? {
      cache := cache.(ttl := Some(60));
    }
    if cache.tti.None? {
      cache := cache.(tti := Some(60));
    }
  }

  method DefaultAuth(a: Auth) returns (auth: Auth)
    requires a.enabled
    ensures auth == FillAuth(a)
  {
    auth := a;
    if auth.mintMaxBat.None? {
      auth := auth.(mintMaxBat := Some(50));
    }
    var defaultLevel := "clear";
    if auth.mint == "" {
      auth := auth.(mint := defaultLevel);
    }
    if auth.getMintQuote == "" {
      auth := auth.(getMintQuote := defaultLevel);
    }
    if auth.checkMintQuote == "" {
      auth := auth.(checkMintQuote := defaultLevel);
    }
    auth := DefaultLaterLevels(auth, defaultLevel);
  }

  method DefaultLaterLevels(a: Auth, defaultLevel: string) returns (auth: Auth)
    ensures auth == a.(melt := Or(a.melt, defaultLevel), getMeltQuote := Or(a.getMeltQuote, defaultLevel),
                       checkMeltQuote := Or(a.checkMeltQuote, defaultLevel), swap := Or(a.swap, defaultLevel),
                       restore := Or(a.restore, defaultLevel), checkProofState := Or(a.checkProofState, defaultLevel))
  {
    auth := a;
    if auth.melt == "" {
      auth := auth.(melt := defaultLevel);
    }
    if auth.getMeltQuote == "" {
      auth := auth.(getMeltQuote := defaultLevel);
    }
    if auth.checkMeltQuote == "" {
      auth := auth.(checkMeltQuote := defaultLevel);
    }
    if auth.swap == "" {
      auth := auth.(swap := defaultLevel);
    }
    if auth.restore == "" {
      auth := auth.(restore := defaultLevel);
    }
    if auth.checkProofState == "" {
      auth := auth.(checkProofState := defaultLevel);
    }
  }

  method DefaultLND(l: LND) returns (lnd: LND)
    ensures lnd == FillLND(l)
  {
    lnd := l;
    if lnd.feePercent.None? {
      lnd := lnd.(feePercent := Some(40000));
    }
    if lnd.reserveFeeMin.None? {
      lnd := lnd.(reserveFeeMin := Some(4));
    }
  }

  method DefaultCLN(c: CLN) returns (cln: CLN)
    ensures cln == FillCLN(c)
  {
    cln := c;
    if cln.feePercent.None? {
      cln := cln.(feePercent := Some(40000));
    }
    if cln.reserveFeeMin.None? {
      cln := cln.(reserveFeeMin := Some(4));
    }
  }

  method DefaultLNBits(l: LNBits) returns (lnbits: LNBits)
    ensures lnbits == FillLNBits(l)
  {
    lnbits := l;
    if lnbits.feePercent.None? {
      lnbits := lnbits.(feePercent := Some(20000));
    }
    if lnbits.reserveFeeMin.None? {
      lnbits := lnbits.(reserveFeeMin := Some(2));
    }
  }

  method DefaultFakeWallet(f: FakeWallet) returns (fw: FakeWallet)
    ensures fw == FillFakeWallet(f)
  {
    fw := f;
    if fw.feePercent.None? {
      fw := fw.(feePercent := Some(20000));
    }
    if fw.reserveFeeMin.None? {
      fw := fw.(reserveFeeMin := Some(1));
    }
    if fw.minDelayTime.None? {
      fw := fw.(minDelayTime := Some(1));
    }
    if fw.maxDelayTime.None? {
      fw := fw.(maxDelayTime := Some(3));
    }
    if |fw.supportedUnits| == 0 {
      fw := fw.(supportedUnits := ["sat"]);
    }
  }

  method DefaultGRPCProcessor(g: GRPCProcessor) returns (gp: GRPCProcessor)
    ensures gp == FillGRPC(g)
  {
    gp := g;
    if |gp.supportedUnits| == 0 {
      gp := gp.(supportedUnits := ["sat"]);
    }
    if gp.port == 0 {
      gp := gp.(port := 50051);
    }
    if gp.sidecar.Some? && gp.sidecar.value.enabled {
      if gp.sidecar.value.imagePullPolicy == "" {
        gp := gp.(sidecar := Some(gp.sidecar.value.(imagePullPolicy := "IfNotPresent")));
      }
    }
  }

  method DefaultLDKNode(l: LDKNode) returns (ldk: LDKNode)
    requires l.enabled
    ensures ldk == FillLDK(l)
  {
    ldk := l;
    if ldk.feePercent.None? {
      ldk := ldk.(feePercent := Some(40000));
    }
    if ldk.reserveFeeMin.None? {
      ldk := ldk.(reserveFeeMin := Some(4));
    }
    if ldk.bitcoinNetwork == "" {
      ldk := ldk.(bitcoinNetwork := "signet");
    }
    if ldk.chainSourceType == "" {
      ldk := ldk.(chainSourceType := "esplora");
    }
    if ldk.host == "" {
      ldk := ldk.(host := DEFAULT_LISTEN_HOST);
    }
    if ldk.port == 0 {
      ldk := ldk.(port := 8090);
    }
    if ldk.gossipSourceType == "" {
      ldk := ldk.(gossipSourceType := "rgs");
    }
    if ldk.webserverHost == "" {
      ldk := ldk.(webserverHost := DEFAULT_LOOPBACK_HOST);
    }
    if ldk.webserverPort == 0 {
      ldk := ldk.(webserverPort := 8888);
    }
  }
}
