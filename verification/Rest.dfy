/** Which mints can come to rest. */
module Rest {
  import opened Options
  import opened MintTypes
  import opened Plan
  import opened Cluster
  import opened Runs
  import opened Rely
  import opened Passes

  /** The postgres Secret, if there is one, is not a TLS bundle that a spec gave that name: those have an
      owner, the credentials have none. */
  predicate OwnCredentials(e: Setup, w: World) {
    var n := PostgresSecretName(e.name);
    n in w.secrets ==> w.secrets[n].owner.None?
  }

  /** A mint that is there to stay. Each key it names for a database url can be read or belongs to a Secret a
      pass makes for it, and no bundle stands where its own credentials belong. */
  predicate Reconcilable(e: Setup, w: World) {
    && w.cr.Some? && !w.cr.value.deleting
    && UserKeysCome(e, w, w.cr.value.spec) && (ProvisionedConfig(w.cr.value.spec) ==> OwnCredentials(e, w))
  }

  /** In a reachable state this is what decides a pass. */
  lemma ReconcilableIsWilling(e: Setup, w: World)
    requires Inv(e, w) && w.cr.Some? && !w.cr.value.deleting
    ensures Reconcilable(e, w) <==> Willing(e, w, w.cr.value.spec)
  {
    var n := PostgresSecretName(e.name);
    assert n in w.secrets ==> Shaped(e, n, w.secrets[n]);
  }

  /** The Secret is there and has something under the key. */
  predicate Readable(w: World, ref: SecretKey) {
    ref.name in w.secrets && ref.key in w.secrets[ref.name].data && w.secrets[ref.name].data[ref.key] != ""
  }

  /** However a reachable state came to rest: the keys the user named can be read, and a provisioned config
      has its Secret, which is the operator's own. */
  lemma RestNeedsCredentials(e: Setup, w: World)
    requires Inv(e, w) && AtRest(e, w)
    ensures Reconcilable(e, w)
    ensures var s := w.cr.value.spec;
            s.database.engine == "postgres" && s.database.postgres.Some? ==>
              var pg := s.database.postgres.value;
              if pg.autoProvision then
                e.name + "-postgres-secret" in w.secrets && w.secrets[e.name + "-postgres-secret"].owner.None?
              else pg.urlSecretRef.Some? ==> Readable(w, pg.urlSecretRef.value)
    ensures var s := w.cr.value.spec;
            s.auth.Some? && s.auth.value.enabled && s.auth.value.postgres.Some?
            && s.auth.value.postgres.value.urlSecretRef.Some? ==>
              Readable(w, s.auth.value.postgres.value.urlSecretRef.value)
  {
    NothingMoreComes(e, w, w.cr.value);
    ReconcilableIsWilling(e, w);
  }
}
