/** Default never alters what a user set. A field is set when it is not the zero value of its kind: a
    text that is not empty, a number that is not 0, a pointer that is not nil, a flag in any case. */
module DefaultsKeep {
  import opened Options
  import opened MintTypes
  import opened Defaulting

  predicate Text(a: string, b: string) { a != "" ==> b == a }

  predicate Num(a: int, b: int) { a != 0 ==> b == a }

  predicate List<T(==)>(a: seq<T>, b: seq<T>) { a != [] ==> b == a }

  predicate Leaf<T(==)>(a: Option<T>, b: Option<T>) { a.Some? ==> b == a }

  predicate QuoteTTLKept(a: Option<QuoteTTL>, b: Option<QuoteTTL>) {
    a.Some? ==> b.Some? && Leaf(a.value.mintTTL, b.value.mintTTL) && Leaf(a.value.meltTTL, b.value.meltTTL)
  }

  predicate MintInfoKept(a: MintInfo, b: MintInfo) {
    && Text(a.url, b.url) && Text(a.listenHost, b.listenHost) && Num(a.listenPort, b.listenPort)
    && Leaf(a.mnemonicSecretRef, b.mnemonicSecretRef) && a.autoGenerateMnemonic == b.autoGenerateMnemonic
    && Text(a.name, b.name) && Text(a.description, b.description) && Text(a.descriptionLong, b.descriptionLong)
    && Text(a.motd, b.motd) && Text(a.pubkeyHex, b.pubkeyHex) && Text(a.iconURL, b.iconURL)
    && Text(a.contactEmail, b.contactEmail) && Text(a.contactNostrPubkey, b.contactNostrPubkey)
    && Text(a.tosURL, b.tosURL) && Leaf(a.inputFeePPK, b.inputFeePPK) && Leaf(a.useKeysetV2, b.useKeysetV2)
    && QuoteTTLKept(a.quoteTTL, b.quoteTTL)
  }

  predicate ProvisionKept(a: Option<AutoProvisionSpec>, b: Option<AutoProvisionSpec>) {
    a.Some? ==> b.Some? && Text(a.value.storageSize, b.value.storageSize) && Text(a.value.version, b.value.version)
  }

  predicate PostgresKept(a: Option<Postgres>, b: Option<Postgres>) {
    a.Some? ==>
      && b.Some? && Text(a.value.url, b.value.url) && Leaf(a.value.urlSecretRef, b.value.urlSecretRef)
      && Text(a.value.tlsMode, b.value.tlsMode) && Leaf(a.value.maxConnections, b.value.maxConnections)
      && Leaf(a.value.connectionTimeoutSeconds, b.value.connectionTimeoutSeconds)
      && a.value.autoProvision == b.value.autoProvision
      && ProvisionKept(a.value.autoProvisionSpec, b.value.autoProvisionSpec)
  }

  predicate DatabaseKept(a: Database, b: Database) {
    && Text(a.engine, b.engine) && PostgresKept(a.postgres, b.postgres)
    && (a.sqlite.Some? ==> b.sqlite.Some? && Text(a.sqlite.value.dataDir, b.sqlite.value.dataDir))
  }

  predicate FeesKept(fee: Option<int>, reserve: Option<int>, fee': Option<int>, reserve': Option<int>) {
    Leaf(fee, fee') && Leaf(reserve, reserve')
  }

  predicate LNDKept(a: Option<LND>, b: Option<LND>) {
    a.Some? ==>
      && b.Some? && Text(a.value.address, b.value.address) && Leaf(a.value.macaroonSecretRef, b.value.macaroonSecretRef)
      && Leaf(a.value.certSecretRef, b.value.certSecretRef)
      && FeesKept(a.value.feePercent, a.value.reserveFeeMin, b.value.feePercent, b.value.reserveFeeMin)
  }

  predicate CLNKept(a: Option<CLN>, b: Option<CLN>) {
    a.Some? ==>
      && b.Some? && Text(a.value.rpcPath, b.value.rpcPath) && Leaf(a.value.bolt12, b.value.bolt12)
      && FeesKept(a.value.feePercent, a.value.reserveFeeMin, b.value.feePercent, b.value.reserveFeeMin)
  }

  predicate LNBitsKept(a: Option<LNBits>, b: Option<LNBits>) {
    a.Some? ==>
      && b.Some? && Text(a.value.api, b.value.api)
      && a.value.adminAPIKeySecretRef == b.value.adminAPIKeySecretRef
      && a.value.invoiceAPIKeySecretRef == b.value.invoiceAPIKeySecretRef && a.value.retroAPI == b.value.retroAPI
      && FeesKept(a.value.feePercent, a.value.reserveFeeMin, b.value.feePercent, b.value.reserveFeeMin)
  }

  predicate FakeWalletKept(a: Option<FakeWallet>, b: Option<FakeWallet>) {
    a.Some? ==>
      && b.Some? && List(a.value.supportedUnits, b.value.supportedUnits)
      && FeesKept(a.value.feePercent, a.value.reserveFeeMin, b.value.feePercent, b.value.reserveFeeMin)
      && Leaf(a.value.minDelayTime, b.value.minDelayTime) && Leaf(a.value.maxDelayTime, b.value.maxDelayTime)
  }

  predicate SidecarKept(a: Option<Sidecar>, b: Option<Sidecar>) {
    a.Some? ==>
      && b.Some? && a.value.enabled == b.value.enabled && Text(a.value.image, b.value.image)
      && Text(a.value.imagePullPolicy, b.value.imagePullPolicy) && Text(a.value.workingDir, b.value.workingDir)
      && a.value.enableTLS == b.value.enableTLS && Leaf(a.value.tlsSecretRef, b.value.tlsSecretRef)
  }

  predicate GRPCKept(a: Option<GRPCProcessor>, b: Option<GRPCProcessor>) {
    a.Some? ==>
      && b.Some? && Text(a.value.address, b.value.address) && Num(a.value.port, b.value.port)
      && List(a.value.supportedUnits, b.value.supportedUnits) && Leaf(a.value.tlsSecretRef, b.value.tlsSecretRef)
      && SidecarKept(a.value.sidecar, b.value.sidecar)
  }

  predicate BackendsKept(a: PaymentBackend, b: PaymentBackend) {
    && Leaf(a.minMint, b.minMint) && Leaf(a.maxMint, b.maxMint) && Leaf(a.minMelt, b.minMelt)
        && Leaf(a.maxMelt, b.maxMelt)
    && LNDKept(a.lnd, b.lnd) && CLNKept(a.cln, b.cln) && LNBitsKept(a.lnbits, b.lnbits)
    && FakeWalletKept(a.fakeWallet, b.fakeWallet) && GRPCKept(a.grpc, b.grpc)
  }

  predicate LDKKept(a: Option<LDKNode>, b: Option<LDKNode>) {
    a.Some? ==>
      && b.Some? && a.value.enabled == b.value.enabled
      && FeesKept(a.value.feePercent, a.value.reserveFeeMin, b.value.feePercent, b.value.reserveFeeMin)
      && Text(a.value.bitcoinNetwork, b.value.bitcoinNetwork) && Text(a.value.chainSourceType, b.value.chainSourceType)
      && Text(a.value.esploraURL, b.value.esploraURL) && Leaf(a.value.bitcoinRPC, b.value.bitcoinRPC)
      && Text(a.value.storageDirPath, b.value.storageDirPath) && Text(a.value.logDirPath, b.value.logDirPath)
      && Leaf(a.value.mnemonicSecretRef, b.value.mnemonicSecretRef) && Text(a.value.host, b.value.host)
      && Num(a.value.port, b.value.port) && List(a.value.announceAddresses, b.value.announceAddresses)
      && Text(a.value.gossipSourceType, b.value.gossipSourceType) && Text(a.value.rgsURL, b.value.rgsURL)
      && Text(a.value.webserverHost, b.value.webserverHost) && Num(a.value.webserverPort, b.value.webserverPort)
  }

  predicate AuthKept(a: Option<Auth>, b: Option<Auth>) {
    a.Some? ==>
      && b.Some? && a.value.enabled == b.value.enabled && Text(a.value.openIDDiscovery, b.value.openIDDiscovery)
      && Text(a.value.openIDClientID, b.value.openIDClientID) && Leaf(a.value.mintMaxBat, b.value.mintMaxBat)
      && Text(a.value.mint, b.value.mint) && Text(a.value.getMintQuote, b.value.getMintQuote)
      && Text(a.value.checkMintQuote, b.value.checkMintQuote) && Text(a.value.melt, b.value.melt)
      && Text(a.value.getMeltQuote, b.value.getMeltQuote) && Text(a.value.checkMeltQuote, b.value.checkMeltQuote)
      && Text(a.value.swap, b.value.swap) && Text(a.value.restore, b.value.restore)
      && Text(a.value.checkProofState, b.value.checkProofState) && Leaf(a.value.postgres, b.value.postgres)
  }

  predicate HTTPCacheKept(a: Option<HTTPCache>, b: Option<HTTPCache>) {
    a.Some? ==>
      && b.Some? && Text(a.value.backend, b.value.backend) && Leaf(a.value.ttl, b.value.ttl)
      && Leaf(a.value.tti, b.value.tti) && Leaf(a.value.redis, b.value.redis)
  }

  predicate ManagementRPCKept(a: Option<ManagementRPC>, b: Option<ManagementRPC>) {
    a.Some? ==>
      && b.Some? && a.value.enabled == b.value.enabled && Text(a.value.address, b.value.address)
      && Num(a.value.port, b.value.port) && Leaf(a.value.tlsSecretName, b.value.tlsSecretName)
  }

  predicate PrometheusKept(a: Option<Prometheus>, b: Option<Prometheus>) {
    a.Some? ==>
      && b.Some? && a.value.enabled == b.value.enabled && Text(a.value.address, b.value.address)
      && Leaf(a.value.port, b.value.port)
  }

  predicate CertManagerKept(a: Option<CertManager>, b: Option<CertManager>) {
    a.Some? ==>
      && b.Some? && a.value.enabled == b.value.enabled && Text(a.value.issuerName, b.value.issuerName)
      && Text(a.value.issuerKind, b.value.issuerKind)
  }

  predicate TLSKept(a: Option<IngressTLS>, b: Option<IngressTLS>) {
    a.Some? ==>
      && b.Some? && a.value.enabled == b.value.enabled && Text(a.value.secretName, b.value.secretName)
      && CertManagerKept(a.value.certManager, b.value.certManager)
  }

  predicate IngressKept(a: Option<Ingress>, b: Option<Ingress>) {
    a.Some? ==>
      && b.Some? && a.value.enabled == b.value.enabled && Text(a.value.className, b.value.className)
      && Text(a.value.host, b.value.host) && TLSKept(a.value.tls, b.value.tls)
          && a.value.annotations == b.value.annotations
  }

  predicate ServiceKept(a: Option<Service>, b: Option<Service>) {
    a.Some? ==> b.Some? && Text(a.value.kind, b.value.kind) && Text(a.value.loadBalancerIP, b.value.loadBalancerIP)
  }

  predicate StorageKept(a: Option<Storage>, b: Option<Storage>) {
    a.Some? ==> b.Some? && Text(a.value.size, b.value.size)
  }

  predicate LoggingKept(a: Option<Logging>, b: Option<Logging>) {
    a.Some? ==>
      b.Some? && Text(a.value.level, b.value.level) && Text(a.value.fileLevel, b.value.fileLevel)
          && Text(a.value.format, b.value.format)
  }

  predicate S3Kept(a: Option<S3Backup>, b: Option<S3Backup>) {
    a.Some? ==>
      && b.Some? && Text(a.value.bucket, b.value.bucket) && Text(a.value.prefix, b.value.prefix)
      && a.value.accessKeyRef == b.value.accessKeyRef && a.value.secretKeyRef == b.value.secretKeyRef
  }

  predicate BackupKept(a: Option<Backup>, b: Option<Backup>) {
    a.Some? ==>
      && b.Some? && a.value.enabled == b.value.enabled && Text(a.value.schedule, b.value.schedule)
      && Leaf(a.value.retentionCount, b.value.retentionCount) && S3Kept(a.value.s3, b.value.s3)
  }

  predicate RPCKept(a: Option<OrchardRPC>, b: Option<OrchardRPC>) {
    a.Some? ==>
        b.Some? && Text(a.value.host, b.value.host) && Num(a.value.port, b.value.port)
        && Leaf(a.value.mtls, b.value.mtls)
  }

  predicate OrchardMintKept(a: Option<OrchardMint>, b: Option<OrchardMint>) {
    a.Some? ==>
      && b.Some? && Text(a.value.kind, b.value.kind) && Text(a.value.api, b.value.api)
      && Text(a.value.database, b.value.database) && Leaf(a.value.caRef, b.value.caRef)
      && Leaf(a.value.certRef, b.value.certRef) && Leaf(a.value.keyRef, b.value.keyRef)
          && RPCKept(a.value.rpc, b.value.rpc)
  }

  predicate OrchardLinksKept(a: Orchard, b: Orchard) {
    && OrchardMintKept(a.mint, b.mint)
    && (a.bitcoin.Some? ==>
          b.bitcoin.Some? && Text(a.bitcoin.value.kind, b.bitcoin.value.kind)
          && b.bitcoin.value.(kind := "") == a.bitcoin.value.(kind := ""))
    && Leaf(a.lightning, b.lightning)
    && (a.taproot.Some? ==>
          b.taproot.Some? && Text(a.taproot.value.kind, b.taproot.value.kind)
          && b.taproot.value.(kind := "") == a.taproot.value.(kind := ""))
    && Leaf(a.aiAPI, b.aiAPI)
  }

  predicate OrchardServerKept(a: Orchard, b: Orchard) {
    && a.enabled == b.enabled && Text(a.image, b.image) && Text(a.imagePullPolicy, b.imagePullPolicy)
    && Text(a.host, b.host) && Num(a.port, b.port) && Text(a.basePath, b.basePath) && Text(a.logLevel, b.logLevel)
    && Leaf(a.setupKeySecretRef, b.setupKeySecretRef) && Leaf(a.throttleTTL, b.throttleTTL)
    && Leaf(a.throttleLimit, b.throttleLimit)
    && ServiceKept(a.service, b.service) && IngressKept(a.ingress, b.ingress) && StorageKept(a.storage, b.storage)
  }

  predicate OrchardKept(a: Option<Orchard>, b: Option<Orchard>) {
    a.Some? ==> b.Some? && OrchardServerKept(a.value, b.value) && OrchardLinksKept(a.value, b.value)
  }

  /** Everything that is set in `a` is in `b` as it is in `a`. */
  predicate Kept(a: Spec, b: Spec) {
    && Text(a.image, b.image) && Leaf(a.replicas, b.replicas) && MintInfoKept(a.mintInfo, b.mintInfo)
    && DatabaseKept(a.database, b.database) && BackendsKept(a.paymentBackend, b.paymentBackend)
    && LDKKept(a.ldkNode, b.ldkNode) && AuthKept(a.auth, b.auth) && HTTPCacheKept(a.httpCache, b.httpCache)
    && ManagementRPCKept(a.managementRPC, b.managementRPC) && OrchardKept(a.orchard, b.orchard)
    && PrometheusKept(a.prometheus, b.prometheus) && Leaf(a.limits, b.limits) && IngressKept(a.ingress, b.ingress)
    && ServiceKept(a.service, b.service) && Leaf(a.resources, b.resources) && LoggingKept(a.logging, b.logging)
    && StorageKept(a.storage, b.storage) && BackupKept(a.backup, b.backup)
  }

  // ---------------------------------------------------------------- part by part

  lemma DatabaseIsKept(d: Database)
    ensures DatabaseKept(d, FillDatabase(d))
  {}

  lemma BackendsAreKept(p: PaymentBackend)
    ensures BackendsKept(p, FillBackends(p))
  {}

  lemma LDKIsKept(l: Option<LDKNode>)
    ensures LDKKept(l, Fill(l, FillLDK))
  {}

  lemma AuthIsKept(a: Option<Auth>)
    ensures AuthKept(a, Fill(a, FillAuth))
  {}

  lemma IngressIsKept(i: Option<Ingress>)
    ensures IngressKept(i, Fill(i, FillIngress))
  {}

  lemma OrchardIsKept(o: Orchard, engine: string, mtls: bool)
    ensures OrchardKept(Some(o), Some(FillOrchardLinks(FillOrchardParts(FillOrchardServer(o, engine)), mtls)))
  {
    IngressIsKept(o.ingress);
  }

  lemma OrchardPassKeeps(s: Spec)
    ensures OrchardKept(s.orchard, OrchardDefaults(s).orchard)
    ensures ManagementRPCKept(s.managementRPC, Fill(OrchardDefaults(s).managementRPC, FillManagementRPC))
  {
    if OrchardOn(s) {
      OrchardIsKept(s.orchard.value, s.database.engine, ManagementTLSOn(WithManagementRPC(s)));
    }
  }

  lemma OperationalKeeps(s: Spec, mintName: string)
    ensures var d := OperationalDefaults(s, mintName);
            && LoggingKept(s.logging, d.logging) && StorageKept(s.storage, d.storage)
                && ServiceKept(s.service, d.service)
            && HTTPCacheKept(s.httpCache, d.httpCache) && PrometheusKept(s.prometheus, d.prometheus)
            && BackupKept(s.backup, d.backup)
  {}

  lemma MintInfoKeeps(s: Spec)
    ensures var d := MintInfoDefaults(s);
            Text(s.image, d.image) && Leaf(s.replicas, d.replicas) && MintInfoKept(s.mintInfo, d.mintInfo)
  {}

  lemma DefaultsLater(s: Spec, mintName: string)
    ensures var d, t := Defaults(s, mintName), IngressDefaults(DatabaseDefaults(MintInfoDefaults(s)));
            && d.orchard == OrchardDefaults(t).orchard
            && d.managementRPC == Fill(OrchardDefaults(t).managementRPC, FillManagementRPC)
            && d.logging == OperationalDefaults(s, mintName).logging
            && d.storage == OperationalDefaults(s, mintName).storage
            && d.service == OperationalDefaults(s, mintName).service
            && d.httpCache == OperationalDefaults(s, mintName).httpCache
            && d.prometheus == OperationalDefaults(s, mintName).prometheus
            && d.backup == OperationalDefaults(s, mintName).backup
            && d.auth == Fill(s.auth, FillAuth)
            && d.limits == s.limits && d.resources == s.resources
  {}

  /** Default never alters a field the user set. */
  lemma DefaultKeeps(s: Spec, mintName: string)
    ensures Kept(s, Defaults(s, mintName))
  {
    DefaultsByPart(s, mintName);
    DefaultsLater(s, mintName);
    MintInfoKeeps(s);
    DatabaseIsKept(s.database);
    IngressIsKept(s.ingress);
    OrchardPassKeeps(IngressDefaults(DatabaseDefaults(MintInfoDefaults(s))));
    OperationalKeeps(s, mintName);
    AuthIsKept(s.auth);
    BackendsAreKept(s.paymentBackend);
    LDKIsKept(s.ldkNode);
  }
}
