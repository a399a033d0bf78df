/** Which values Default writes, block by block: the field the user set, or else the value given here. */
module DefaultTables {
  import opened Options
  import opened MintTypes
  import opened Defaulting

  /** The mint itself. */
  lemma MintTable(s: Spec, name: string)
    ensures var d := Defaults(s, name);
            && d.image == (if s.image == "" then "cashubtc/mintd:0.16" else s.image)
            && d.replicas == (if s.replicas.None? then Some(1) else s.replicas)
            && d.mintInfo.listenHost == (if s.mintInfo.listenHost == "" then "0.0.0.0" else s.mintInfo.listenHost)
            && d.mintInfo.listenPort == (if s.mintInfo.listenPort == 0 then 8085 else s.mintInfo.listenPort)
            && d.mintInfo.url == s.mintInfo.url && d.limits == s.limits && d.resources == s.resources
  {}

  lemma QuoteTTLTable(s: Spec, name: string)
    ensures var q, r := s.mintInfo.quoteTTL, Defaults(s, name).mintInfo.quoteTTL;
            if q.None? then r == None
            else r == Some(QuoteTTL(if q.value.mintTTL.None? then Some(600) else q.value.mintTTL,
                                    if q.value.meltTTL.None? then Some(120) else q.value.meltTTL))
  {}

  lemma EngineTable(s: Spec, name: string)
    ensures Defaults(s, name).database.engine == if s.database.engine == "" then "postgres" else s.database.engine
  {}

  lemma PostgresTable(s: Spec, name: string)
    ensures var d := Defaults(s, name).database;
            if s.database.postgres.None? then d.postgres == None
            else
              var p := s.database.postgres.value;
              && d.postgres.Some?
              && (d.engine != "postgres" ==> d.postgres.value == p)
              && (d.engine == "postgres" ==>
                    var q := d.postgres.value;
                    && q.tlsMode == (if p.tlsMode != "" then p.tlsMode
                                     else if p.autoProvision then "disable" else "require")
                    && q.maxConnections == (if p.maxConnections.None? then Some(20) else p.maxConnections)
                    && q.connectionTimeoutSeconds
                       == (if p.connectionTimeoutSeconds.None? then Some(10) else p.connectionTimeoutSeconds)
                    && q.url == p.url && q.urlSecretRef == p.urlSecretRef && q.autoProvision == p.autoProvision)
  {}

  /** Size and version of a provisioned database. */
  lemma StoreTable(s: Spec, name: string)
    requires Defaults(s, name).database.engine == "postgres" && s.database.postgres.Some?
    ensures var p, d := s.database.postgres.value, Defaults(s, name).database.postgres;
            && d.Some?
            && (if p.autoProvision && p.autoProvisionSpec.Some? then
                  var a := p.autoProvisionSpec.value;
                  d.value.autoProvisionSpec == Some(AutoProvisionSpec(
                    if a.storageSize == "" then "10Gi" else a.storageSize, if a.version == "" then "15" else a.version))
                else d.value.autoProvisionSpec == p.autoProvisionSpec)
  {}

  lemma SQLiteTable(s: Spec, name: string)
    ensures var q, d := s.database.sqlite, Defaults(s, name).database;
            d.sqlite == if d.engine == "sqlite" && q == Some(SQLite("")) then Some(SQLite("/data")) else q
  {}

  /** `r` is `i` with what an enabled Ingress leaves open filled in. */
  predicate IngressFilled(i: Option<Ingress>, r: Option<Ingress>) {
    if i.None? || !i.value.enabled then r == i
    else
      && r.Some? && r.value.enabled && r.value.host == i.value.host && r.value.annotations == i.value.annotations
      && r.value.className == (if i.value.className == "" then "nginx" else i.value.className)
      && (i.value.tls.None? ==> r.value.tls == None)
      && (i.value.tls.Some? ==>
            && r.value.tls.Some? && r.value.tls.value.enabled == i.value.tls.value.enabled
            && r.value.tls.value.secretName == i.value.tls.value.secretName
            && IssuerFilled(i.value.tls.value.certManager, r.value.tls.value.certManager))
  }

  predicate IssuerFilled(c: Option<CertManager>, r: Option<CertManager>) {
    if c.None? then r == None
    else r == Some(CertManager(c.value.enabled, c.value.issuerName,
                               if c.value.issuerKind == "" then "ClusterIssuer" else c.value.issuerKind))
  }

  lemma IngressTable(s: Spec, name: string)
    ensures IngressFilled(s.ingress, Defaults(s, name).ingress)
  {}

  // ---------------------------------------------------------------- Orchard

  /** Nothing happens to an Orchard that is off. */
  lemma OrchardOffTable(s: Spec, name: string)
    requires s.orchard.None? || !s.orchard.value.enabled
    ensures Defaults(s, name).orchard == s.orchard
  {}

  /** Orchard's image is the one built for the engine the mint ends up with. */
  lemma OrchardImageTable(s: Spec, name: string)
    requires s.orchard.Some? && s.orchard.value.enabled
    ensures var d := Defaults(s, name);
            && d.orchard.Some?
            && (s.orchard.value.image != "" ==> d.orchard.value.image == s.orchard.value.image)
            && (s.orchard.value.image == "" ==>
                  d.orchard.value.image == (if d.database.engine == "postgres"
                                            then "ghcr.io/cashubtc/orchard-mintdb-postgres:1.8.1"
                                            else "ghcr.io/cashubtc/orchard-mintdb-sqlite:1.8.1"))
  {}

  lemma OrchardServerTable(s: Spec, name: string)
    requires s.orchard.Some? && s.orchard.value.enabled
    ensures var o, d := s.orchard.value, Defaults(s, name).orchard;
            && d.Some? && d.value.enabled
            && d.value.imagePullPolicy == (if o.imagePullPolicy == "" then "IfNotPresent" else o.imagePullPolicy)
            && d.value.host == (if o.host == "" then "0.0.0.0" else o.host)
            && d.value.port == (if o.port == 0 then 3321 else o.port)
            && d.value.basePath == (if o.basePath == "" then "api" else o.basePath)
            && d.value.logLevel == (if o.logLevel == "" then "warn" else o.logLevel)
            && d.value.throttleTTL == (if o.throttleTTL.None? then Some(60000) else o.throttleTTL)
            && d.value.throttleLimit == (if o.throttleLimit.None? then Some(20) else o.throttleLimit)
  {}

  lemma OrchardPartsTable(s: Spec, name: string)
    requires s.orchard.Some? && s.orchard.value.enabled
    ensures var o, d := s.orchard.value, Defaults(s, name).orchard;
            && d.Some? && d.value.storage.Some? && d.value.service.Some?
            && d.value.storage.value.size
               == (if o.storage.None? || o.storage.value.size == "" then "10Gi" else o.storage.value.size)
            && d.value.service.value.kind
               == (if o.service.None? || o.service.value.kind == "" then "ClusterIP" else o.service.value.kind)
            && d.value.service.value.loadBalancerIP
               == (if o.service.None? then "" else o.service.value.loadBalancerIP)
            && IngressFilled(o.ingress, d.value.ingress)
  {}

  lemma OrchardLinksTable(s: Spec, name: string)
    requires s.orchard.Some? && s.orchard.value.enabled
    ensures var o, d := s.orchard.value, Defaults(s, name).orchard;
            && d.Some? && d.value.mint.Some?
            && d.value.mint.value.kind == (if o.mint.None? || o.mint.value.kind == "" then "cdk" else o.mint.value.kind)
            && d.value.bitcoin == (if o.bitcoin.Some? && o.bitcoin.value.kind == ""
                                   then Some(o.bitcoin.value.(kind := "core")) else o.bitcoin)
            && d.value.taproot == (if o.taproot.Some? && o.taproot.value.kind == ""
                                   then Some(o.taproot.value.(kind := "tapd")) else o.taproot)
            && d.value.lightning == o.lightning
  {}

  /** Orchard's rpc block: mTLS follows the management RPC, which Orchard switches on where the spec says
      nothing about it. */
  lemma OrchardRPCTable(s: Spec, name: string)
    requires s.orchard.Some? && s.orchard.value.enabled
    requires s.orchard.value.mint.Some? && s.orchard.value.mint.value.rpc.Some?
    ensures var r, d := s.orchard.value.mint.value.rpc.value, Defaults(s, name).orchard;
            && d.Some? && d.value.mint.Some?
            && d.value.mint.value.rpc == Some(OrchardRPC(
                 if r.host == "" then "127.0.0.1" else r.host,
                 if r.port == 0 then 8086 else r.port,
                 if r.mtls.None? then Some(s.managementRPC.None? || s.managementRPC.value.enabled) else r.mtls))
  {}

  // ---------------------------------------------------------------- the operational blocks

  lemma ManagementRPCTable(s: Spec, name: string)
    ensures var m, d := s.managementRPC, Defaults(s, name).managementRPC;
            if m.None? then
              d == (if s.orchard.Some? && s.orchard.value.enabled
                    then Some(ManagementRPC(true, "127.0.0.1", 8086, None)) else None)
            else if !m.value.enabled then d == m
            else d == Some(ManagementRPC(true,
                                         if m.value.address == "" then "127.0.0.1" else m.value.address,
                                         if m.value.port == 0 then 8086 else m.value.port,
                                         m.value.tlsSecretName))
  {}

  lemma LoggingTable(s: Spec, name: string)
    ensures var l, d := s.logging, Defaults(s, name).logging;
            if l.None? then d == None
            else d == Some(Logging(if l.value.level == "" then "info" else l.value.level, l.value.fileLevel,
                                   if l.value.format == "" then "json" else l.value.format))
  {}

  lemma StoresTable(s: Spec, name: string)
    ensures var d := Defaults(s, name);
            && d.storage == (if s.storage == Some(Storage("")) then Some(Storage("10Gi")) else s.storage)
            && d.service == (if s.service.Some? && s.service.value.kind == ""
                             then Some(Service("ClusterIP", s.service.value.loadBalancerIP)) else s.service)
  {}

  lemma CacheTable(s: Spec, name: string)
    ensures var c, d := s.httpCache, Defaults(s, name).httpCache;
            if c.None? then d == None
            else d == Some(HTTPCache(if c.value.backend == "" then "memory" else c.value.backend,
                                     if c.value.ttl.None? then Some(60) else c.value.ttl,
                                     if c.value.tti.None? then Some(60) else c.value.tti,
                                     c.value.redis))
  {}

  lemma PrometheusTable(s: Spec, name: string)
    ensures var p, d := s.prometheus, Defaults(s, name).prometheus;
            if p.None? || !p.value.enabled then d == p
            else d == Some(Prometheus(true,
                                      if p.value.address == "" then "0.0.0.0" else p.value.address,
                                      if p.value.port.None? then Some(9000) else p.value.port))
  {}

  lemma BackupTable(s: Spec, name: string)
    ensures var b, d := s.backup, Defaults(s, name).backup;
            if b.None? || !b.value.enabled then d == b
            else
              && d.Some? && d.value.enabled
              && d.value.schedule == (if b.value.schedule == "" then "0 */6 * * *" else b.value.schedule)
              && d.value.retentionCount == (if b.value.retentionCount.None? then Some(14) else b.value.retentionCount)
              && d.value.s3 == (if b.value.s3.Some? && b.value.s3.value.prefix == ""
                                then Some(b.value.s3.value.(prefix := name)) else b.value.s3)
  {}

  /** The levels of an enabled auth block. */
  lemma AuthTable(s: Spec, name: string)
    requires s.auth.Some? && s.auth.value.enabled
    ensures var a, d := s.auth.value, Defaults(s, name).auth;
            && d.Some? && d.value.enabled && d.value.postgres == a.postgres
            && d.value.mintMaxBat == (if a.mintMaxBat.None? then Some(50) else a.mintMaxBat)
            && d.value.mint == (if a.mint == "" then "clear" else a.mint)
            && d.value.getMintQuote == (if a.getMintQuote == "" then "clear" else a.getMintQuote)
            && d.value.checkMintQuote == (if a.checkMintQuote == "" then "clear" else a.checkMintQuote)
            && d.value.melt == (if a.melt == "" then "clear" else a.melt)
            && d.value.getMeltQuote == (if a.getMeltQuote == "" then "clear" else a.getMeltQuote)
            && d.value.checkMeltQuote == (if a.checkMeltQuote == "" then "clear" else a.checkMeltQuote)
            && d.value.swap == (if a.swap == "" then "clear" else a.swap)
            && d.value.restore == (if a.restore == "" then "clear" else a.restore)
            && d.value.checkProofState == (if a.checkProofState == "" then "clear" else a.checkProofState)
  {}

  lemma AuthOffTable(s: Spec, name: string)
    requires s.auth.None? || !s.auth.value.enabled
    ensures Defaults(s, name).auth == s.auth
  {}

  // ---------------------------------------------------------------- the payment backends

  /** Fees in millionths. */
  lemma LightningTable(s: Spec, name: string)
    ensures var b, d := s.paymentBackend, Defaults(s, name).paymentBackend;
            && d.lnd == (if b.lnd.None? then None else Some(b.lnd.value.(
                 feePercent := if b.lnd.value.feePercent.None? then Some(40000) else b.lnd.value.feePercent,
                 reserveFeeMin := if b.lnd.value.reserveFeeMin.None? then Some(4) else b.lnd.value.reserveFeeMin)))
            && d.cln == (if b.cln.None? then None else Some(b.cln.value.(
                 feePercent := if b.cln.value.feePercent.None? then Some(40000) else b.cln.value.feePercent,
                 reserveFeeMin := if b.cln.value.reserveFeeMin.None? then Some(4) else b.cln.value.reserveFeeMin)))
            && d.lnbits == (if b.lnbits.None? then None else Some(b.lnbits.value.(
                 feePercent := if b.lnbits.value.feePercent.None? then Some(20000) else b.lnbits.value.feePercent,
                 reserveFeeMin := if b.lnbits.value.reserveFeeMin.None? then Some(2)
                                  else b.lnbits.value.reserveFeeMin)))
  {}

  lemma FakeWalletTable(s: Spec, name: string)
    ensures var f, d := s.paymentBackend.fakeWallet, Defaults(s, name).paymentBackend.fakeWallet;
            if f.None? then d == None
            else d == Some(FakeWallet(if f.value.supportedUnits == [] then ["sat"] else f.value.supportedUnits,
                                      if f.value.feePercent.None? then Some(20000) else f.value.feePercent,
                                      if f.value.reserveFeeMin.None? then Some(1) else f.value.reserveFeeMin,
                                      if f.value.minDelayTime.None? then Some(1) else f.value.minDelayTime,
                                      if f.value.maxDelayTime.None? then Some(3) else f.value.maxDelayTime))
  {}

  lemma GRPCTable(s: Spec, name: string)
    ensures var g, d := s.paymentBackend.grpc, Defaults(s, name).paymentBackend.grpc;
            if g.None? then d == None
            else
              && d.Some? && d.value.address == g.value.address && d.value.tlsSecretRef == g.value.tlsSecretRef
              && d.value.port == (if g.value.port == 0 then 50051 else g.value.port)
              && d.value.supportedUnits == (if g.value.supportedUnits == [] then ["sat"] else g.value.supportedUnits)
              && d.value.sidecar == (if g.value.sidecar.Some? && g.value.sidecar.value.enabled
                                        && g.value.sidecar.value.imagePullPolicy == ""
                                     then Some(g.value.sidecar.value.(imagePullPolicy := "IfNotPresent"))
                                     else g.value.sidecar)
  {}

  lemma LDKTable(s: Spec, name: string)
    requires s.ldkNode.Some? && s.ldkNode.value.enabled
    ensures var l, d := s.ldkNode.value, Defaults(s, name).ldkNode;
            && d.Some? && d.value.enabled
            && d.value.feePercent == (if l.feePercent.None? then Some(40000) else l.feePercent)
            && d.value.reserveFeeMin == (if l.reserveFeeMin.None? then Some(4) else l.reserveFeeMin)
            && d.value.bitcoinNetwork == (if l.bitcoinNetwork == "" then "signet" else l.bitcoinNetwork)
            && d.value.chainSourceType == (if l.chainSourceType == "" then "esplora" else l.chainSourceType)
            && d.value.host == (if l.host == "" then "0.0.0.0" else l.host)
            && d.value.port == (if l.port == 0 then 8090 else l.port)
            && d.value.gossipSourceType == (if l.gossipSourceType == "" then "rgs" else l.gossipSourceType)
            && d.value.webserverHost == (if l.webserverHost == "" then "127.0.0.1" else l.webserverHost)
            && d.value.webserverPort == (if l.webserverPort == 0 then 8888 else l.webserverPort)
  {}

  lemma LDKOffTable(s: Spec, name: string)
    requires s.ldkNode.None? || !s.ldkNode.value.enabled
    ensures Defaults(s, name).ldkNode == s.ldkNode
  {}
}
