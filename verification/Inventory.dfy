/** What a mint gets, said in the fields of its spec and without looking at the generators. */
module Inventory {
  import opened Options
  import opened MintTypes
  import opened Plan
  import opened Cluster

  /** These objects are there, for this mint and this spec. */
  predicate Gets(w: World, m: Mint, ks: set<Kind>) {
    forall k | k in ks :: k in w.objs && w.objs[k].owner == m.uid && w.objs[k].spec == m.spec
  }

  /** Every object the spec asks for, feature by feature. */
  predicate Complete(w: World, m: Mint) {
    var s := m.spec;
    var provisioned := s.database.postgres.Some? && s.database.postgres.value.autoProvision;
    var backedUp := s.backup.Some? && s.backup.value.enabled && s.backup.value.s3.Some?;
    && Gets(w, m, {ConfigMap, Deployment, MintService})
    && (provisioned ==> Gets(w, m, {PostgresService, PostgresStatefulSet}))
    && (provisioned && s.database.engine == "postgres" && backedUp ==> Gets(w, m, {BackupCronJob}))
    && (s.database.engine == "sqlite" || s.database.engine == "redb" ==> Gets(w, m, {MintPVC}))
    && (s.prometheus.Some? && s.prometheus.value.enabled ==> Gets(w, m, {PodMonitor}))
    && (s.prometheus.None? || !s.prometheus.value.enabled ==> PodMonitor !in w.objs)
    && IngressComplete(w, m, s.ingress, MintIngressKind, MintCertificate)
    && (s.orchard.Some? && s.orchard.value.enabled ==>
        Gets(w, m, {OrchardPVC, OrchardServiceKind})
        && IngressComplete(w, m, s.orchard.value.ingress, OrchardIngressKind, OrchardCertificate))
  }

  /** An enabled Ingress, and its Certificate where TLS is left to cert-manager. */
  predicate IngressComplete(w: World, m: Mint, i: Option<Ingress>, ingress: Kind, certificate: Kind) {
    i.Some? && i.value.enabled ==>
      Gets(w, m, {ingress})
      && (var tls := i.value.tls;
          tls.Some? && tls.value.enabled && tls.value.certManager.Some? && tls.value.certManager.value.enabled ==>
            Gets(w, m, {certificate}))
  }

  lemma PlacedGets(w: World, m: Mint, k: Kind, ks: set<Kind>)
    requires Placed(w, m, ks) && k in ks && Generates(m.spec, k)
    ensures Gets(w, m, {k})
  {
    PlacedMeansInPlace(w, m, k);
  }

  /** A provisioned mint has its database server. */
  lemma PlacedDatabase(w: World, m: Mint, ks: set<Kind>)
    requires Placed(w, m, ks) && PostgresService in ks && PostgresStatefulSet in ks
    ensures m.spec.database.postgres.Some? && m.spec.database.postgres.value.autoProvision ==>
              Gets(w, m, {PostgresService, PostgresStatefulSet})
  {
    if m.spec.database.postgres.Some? && m.spec.database.postgres.value.autoProvision {
      PlacedGets(w, m, PostgresService, ks);
      PlacedGets(w, m, PostgresStatefulSet, ks);
    }
  }

  lemma PlacedCore(w: World, m: Mint)
    requires Placed(w, m, ALL_KINDS)
    ensures Gets(w, m, {ConfigMap, Deployment, MintService})
  {
    PlacedGets(w, m, ConfigMap, ALL_KINDS);
    PlacedGets(w, m, Deployment, ALL_KINDS);
    PlacedGets(w, m, MintService, ALL_KINDS);
  }

  lemma PlacedIngress(w: World, m: Mint)
    requires Placed(w, m, ALL_KINDS)
    ensures IngressComplete(w, m, m.spec.ingress, MintIngressKind, MintCertificate)
    ensures m.spec.orchard.Some? && m.spec.orchard.value.enabled ==>
              Gets(w, m, {OrchardPVC, OrchardServiceKind})
              && IngressComplete(w, m, m.spec.orchard.value.ingress, OrchardIngressKind, OrchardCertificate)
  {
    forall k | Generates(m.spec, k) ensures Gets(w, m, {k}) {
      PlacedGets(w, m, k, ALL_KINDS);
    }
    if m.spec.orchard.Some? && m.spec.orchard.value.enabled {
      PlacedGets(w, m, OrchardPVC, ALL_KINDS);
      PlacedGets(w, m, OrchardServiceKind, ALL_KINDS);
    }
  }

  lemma PlacedFeatures(w: World, m: Mint)
    requires Placed(w, m, ALL_KINDS)
    ensures var s := m.spec;
            var provisioned := s.database.postgres.Some? && s.database.postgres.value.autoProvision;
            var backedUp := s.backup.Some? && s.backup.value.enabled && s.backup.value.s3.Some?;
            && (provisioned && s.database.engine == "postgres" && backedUp ==> Gets(w, m, {BackupCronJob}))
            && (s.database.engine == "sqlite" || s.database.engine == "redb" ==> Gets(w, m, {MintPVC}))
            && (s.prometheus.Some? && s.prometheus.value.enabled ==> Gets(w, m, {PodMonitor}))
            && (s.prometheus.None? || !s.prometheus.value.enabled ==> PodMonitor !in w.objs)
  {
    forall k | Generates(m.spec, k) ensures Gets(w, m, {k}) {
      PlacedGets(w, m, k, ALL_KINDS);
    }
    PlacedMeansInPlace(w, m, PodMonitor);
  }

  /** The Deployment in place for a mint is ready exactly if all replicas its spec asks for, one unless it
      says how many, are ready, updated and available. */
  lemma ReadyMeansReplicas(w: World, m: Mint)
    requires Placed(w, m, ALL_KINDS)
    ensures var n := if m.spec.replicas.Some? then m.spec.replicas.value else 1;
            DeploymentReady(w) <==> w.deployment.ready == w.deployment.updated == w.deployment.available == n
  {
    PlacedMeansInPlace(w, m, Deployment);
  }

  /** Objects in place are all the mint asks for. */
  lemma PlacedIsComplete(w: World, m: Mint)
    requires Placed(w, m, ALL_KINDS)
    ensures Complete(w, m)
  {
    PlacedCore(w, m);
    PlacedDatabase(w, m, ALL_KINDS);
    PlacedFeatures(w, m);
    PlacedIngress(w, m);
  }
}
