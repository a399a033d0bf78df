/** What an admitted spec looks like, written down without the rules the validators report. */
module Rules {
  import opened Options
  import opened MintTypes
  import opened Validation

  /** A local engine, or postgres that is provisioned or has its url from one place. */
  predicate GoodDatabase(d: Database) {
    || d.engine == "sqlite"
    || d.engine == "redb"
    || (d.engine == "postgres" && d.postgres.Some?
        && (var pg := d.postgres.value;
            (pg.autoProvision || pg.url != "" || pg.urlSecretRef.Some?) && (pg.url == "" || pg.urlSecretRef.None?)))
  }

  predicate GoodProcessor(g: GRPCProcessor) {
    if g.sidecar.Some? && g.sidecar.value.enabled
    then g.sidecar.value.image != "" && (g.sidecar.value.enableTLS ==> g.sidecar.value.tlsSecretRef.Some?)
    else g.address != ""
  }

  /** One backend, with the address it is reached at. */
  predicate GoodBackend(p: PaymentBackend) {
    match (p.lnd, p.cln, p.lnbits, p.fakeWallet, p.grpc)
    case (Some(lnd), None, None, None, None) => lnd.address != ""
    case (None, Some(cln), None, None, None) => cln.rpcPath != ""
    case (None, None, Some(lnbits), None, None) => lnbits.api != ""
    case (None, None, None, Some(_), None) => true
    case (None, None, None, None, Some(g)) => GoodProcessor(g)
    case _ => false
  }

  /** An enabled Ingress has a host, and an issuer if cert-manager is to make its certificate. */
  predicate GoodIngress(i: Option<Ingress>) {
    i.None? || !i.value.enabled
    || (i.value.host != ""
        && (i.value.tls.None? || !i.value.tls.value.enabled || i.value.tls.value.certManager.None?
            || !i.value.tls.value.certManager.value.enabled
            || i.value.tls.value.certManager.value.issuerName != ""))
  }

  predicate GoodResources(r: Option<Resources>) {
    r.None?
    || forall name | name in r.value.limits && name in r.value.requests ::
         r.value.requests[name] <= r.value.limits[name]
  }

  predicate Complete(k: SecretKey) {
    k.name != "" && k.key != ""
  }

  /** An enabled backup is of a provisioned postgres, with a schedule and a bucket and its two keys. */
  predicate GoodBackup(s: Spec) {
    s.backup.None? || !s.backup.value.enabled
    || (s.database.engine == "postgres" && s.database.postgres.Some? && s.database.postgres.value.autoProvision
        && s.backup.value.schedule != "" && s.backup.value.s3.Some? && s.backup.value.s3.value.bucket != ""
        && Complete(s.backup.value.s3.value.accessKeyRef) && Complete(s.backup.value.s3.value.secretKeyRef))
  }

  predicate Given(k: Option<SecretKey>) {
    k.Some? && Complete(k.value)
  }

  predicate GoodMint(s: Spec, m: OrchardMint) {
    && (m.caRef.None? || Given(m.caRef)) && (m.certRef.None? || Given(m.certRef)) && (m.keyRef.None? || Given(m.keyRef))
    && (m.rpc.None? || m.rpc.value.mtls != Some(true) || (s.managementRPC.Some? && s.managementRPC.value.enabled))
  }

  predicate GoodBitcoin(b: OrchardBitcoin) {
    b.rpcHost != "" && b.rpcPort != 0 && Given(b.userRef) && Given(b.passwordRef)
  }

  predicate GoodLightning(l: OrchardLightning) {
    && l.rpcHost != "" && l.rpcPort != 0
    && (l.kind == "lnd" ==> Given(l.macaroonRef) && Given(l.certRef))
    && (l.kind == "cln" ==> Given(l.keyRef) && Given(l.caRef))
  }

  predicate GoodTaproot(t: OrchardTaproot) {
    t.rpcHost != "" && t.rpcPort != 0 && Given(t.macaroonRef) && Given(t.certRef)
  }

  predicate GoodOrchardItself(s: Spec, o: Orchard) {
    s.database.engine != "redb" && Given(o.setupKeySecretRef) && GoodIngress(o.ingress) && o.aiAPI != Some("")
  }

  predicate GoodOrchard(s: Spec) {
    s.orchard.None? || !s.orchard.value.enabled
    || (var o := s.orchard.value;
        && GoodOrchardItself(s, o)
        && (o.mint.Some? ==> GoodMint(s, o.mint.value))
        && (o.bitcoin.Some? ==> GoodBitcoin(o.bitcoin.value))
        && (o.lightning.Some? ==> GoodLightning(o.lightning.value))
        && (o.taproot.Some? ==> GoodTaproot(o.taproot.value)))
  }

  // ---------------------------------------------------------------- the rules say just that

  lemma DatabaseRules(d: Database)
    ensures DatabaseAccepted(d) <==> GoodDatabase(d)
  {
    if DatabaseAccepted(d) {
      assert !BreaksDatabase(d, PostgresMissing) && !BreaksDatabase(d, URLMissing);
      assert !BreaksDatabase(d, TwoURLs) && !BreaksDatabase(d, UnknownEngine);
    }
  }

  lemma BackendRules(p: PaymentBackend)
    ensures BackendAccepted(p) <==> GoodBackend(p)
  {
    if BackendAccepted(p) {
      assert !BreaksBackend(p, NoBackend) && !BreaksBackend(p, ManyBackends);
      assert !BreaksBackend(p, LNDAddress) && !BreaksBackend(p, CLNPath) && !BreaksBackend(p, LNBitsAPI);
      assert !BreaksBackend(p, GRPCAddress) && !BreaksBackend(p, SidecarImage) && !BreaksBackend(p, SidecarTLS);
    }
  }

  lemma IngressRules(i: Option<Ingress>)
    ensures IngressAccepted(i) <==> GoodIngress(i)
  {
    if IngressAccepted(i) {
      assert !BreaksIngress(i, HostMissing) && !BreaksIngress(i, IssuerMissing);
    }
  }

  lemma ResourceRules(r: Option<Resources>)
    ensures ResourcesAccepted(r) <==> GoodResources(r)
  {
    if ResourcesAccepted(r) && r.Some? {
      forall name | name in r.value.limits && name in r.value.requests
        ensures r.value.requests[name] <= r.value.limits[name] {
        assert !Exceeds(r.value, name);
      }
    }
  }

  lemma BackupRules(s: Spec)
    ensures BackupAccepted(s) <==> GoodBackup(s)
  {
    if BackupAccepted(s) {
      assert !BreaksBackup(s, NotPostgres) && !BreaksBackup(s, NotProvisioned) && !BreaksBackup(s, ScheduleMissing);
      assert !BreaksBackup(s, S3Missing) && !BreaksBackup(s, BucketMissing);
      assert !BreaksBackup(s, AccessKeyMissing) && !BreaksBackup(s, SecretKeyMissing);
    }
  }

  predicate Spared(s: Spec, rules: set<OrchardRule>) {
    forall e | e in rules :: !BreaksOrchard(s, e)
  }

  lemma OrchardItselfRules(s: Spec)
    requires OrchardOn(s)
    ensures Spared(s, {RedbEngine, SetupKey, OrchardRule.OrchardIngress, AIAPI})
       <==> GoodOrchardItself(s, s.orchard.value)
  {
    IngressRules(s.orchard.value.ingress);
    if Spared(s, {RedbEngine, SetupKey, OrchardRule.OrchardIngress, AIAPI}) {
      assert !BreaksOrchard(s, RedbEngine) && !BreaksOrchard(s, SetupKey);
      assert !BreaksOrchard(s, OrchardRule.OrchardIngress) && !BreaksOrchard(s, AIAPI);
    }
  }

  lemma OrchardMintRules(s: Spec)
    requires OrchardOn(s)
    ensures Spared(s, {DatabaseCA, DatabaseCert, DatabaseKey, MTLSWithoutRPC})
       <==> (s.orchard.value.mint.Some? ==> GoodMint(s, s.orchard.value.mint.value))
  {
    if Spared(s, {DatabaseCA, DatabaseCert, DatabaseKey, MTLSWithoutRPC}) {
      assert !BreaksOrchard(s, DatabaseCA) && !BreaksOrchard(s, DatabaseCert);
      assert !BreaksOrchard(s, DatabaseKey) && !BreaksOrchard(s, MTLSWithoutRPC);
    }
  }

  lemma OrchardBitcoinRules(s: Spec)
    requires OrchardOn(s)
    ensures Spared(s, {BitcoinHost, BitcoinPort, BitcoinUser, BitcoinPassword})
       <==> (s.orchard.value.bitcoin.Some? ==> GoodBitcoin(s.orchard.value.bitcoin.value))
  {
    if Spared(s, {BitcoinHost, BitcoinPort, BitcoinUser, BitcoinPassword}) {
      assert !BreaksOrchard(s, BitcoinHost) && !BreaksOrchard(s, BitcoinPort);
      assert !BreaksOrchard(s, BitcoinUser) && !BreaksOrchard(s, BitcoinPassword);
    }
  }

  lemma OrchardLightningRules(s: Spec)
    requires OrchardOn(s)
    ensures Spared(s, {LightningHost, LightningPort, LightningMacaroon, LightningCert, LightningKey, LightningCA})
       <==> (s.orchard.value.lightning.Some? ==> GoodLightning(s.orchard.value.lightning.value))
  {
    if Spared(s, {LightningHost, LightningPort, LightningMacaroon, LightningCert, LightningKey, LightningCA}) {
      assert !BreaksOrchard(s, LightningHost) && !BreaksOrchard(s, LightningPort);
      assert !BreaksOrchard(s, LightningMacaroon) && !BreaksOrchard(s, LightningCert);
      assert !BreaksOrchard(s, LightningKey) && !BreaksOrchard(s, LightningCA);
    }
  }

  lemma OrchardTaprootRules(s: Spec)
    requires OrchardOn(s)
    ensures Spared(s, {TaprootHost, TaprootPort, TaprootMacaroon, TaprootCert})
       <==> (s.orchard.value.taproot.Some? ==> GoodTaproot(s.orchard.value.taproot.value))
  {
    if Spared(s, {TaprootHost, TaprootPort, TaprootMacaroon, TaprootCert}) {
      assert !BreaksOrchard(s, TaprootHost) && !BreaksOrchard(s, TaprootPort);
      assert !BreaksOrchard(s, TaprootMacaroon) && !BreaksOrchard(s, TaprootCert);
    }
  }

  lemma OrchardRules(s: Spec)
    ensures OrchardAccepted(s) <==> GoodOrchard(s)
  {
    if OrchardOn(s) {
      OrchardItselfRules(s);
      OrchardMintRules(s);
      OrchardBitcoinRules(s);
      OrchardLightningRules(s);
      OrchardTaprootRules(s);
      if GoodOrchard(s) {
        forall e: OrchardRule ensures !BreaksOrchard(s, e) {
          EveryRule(e);
        }
      }
    }
  }

  lemma EveryRule(e: OrchardRule)
    ensures e in {RedbEngine, SetupKey, OrchardRule.OrchardIngress, AIAPI}
            || e in {DatabaseCA, DatabaseCert, DatabaseKey, MTLSWithoutRPC}
            || e in {BitcoinHost, BitcoinPort, BitcoinUser, BitcoinPassword}
            || e in {LightningHost, LightningPort, LightningMacaroon, LightningCert, LightningKey, LightningCA}
            || e in {TaprootHost, TaprootPort, TaprootMacaroon, TaprootCert}
  {}

  /** The validators accept these specs and no others. */
  lemma ValidMeans(s: Spec)
    ensures Valid(s) <==> s.mintInfo.url != "" && GoodDatabase(s.database) && GoodBackend(s.paymentBackend)
                          && GoodIngress(s.ingress) && GoodResources(s.resources) && GoodBackup(s)
                          && (s.managementRPC.Some? ==> s.managementRPC.value.tlsSecretName != Some(""))
                          && GoodOrchard(s)
  {
    DatabaseRules(s.database);
    BackendRules(s.paymentBackend);
    IngressRules(s.ingress);
    ResourceRules(s.resources);
    BackupRules(s);
    OrchardRules(s);
  }
}
