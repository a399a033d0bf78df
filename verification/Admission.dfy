/** Defaulting and validation together: what a CashuMint that was let in is like. */
module Admission {
  import opened Options
  import opened MintTypes
  import opened Defaulting
  import opened Validation

  /** The three values a validator looks at that a default may supply. */
  function Prefill(s: Spec): Spec {
    var t := s.(database := s.database.(engine := Or(s.database.engine, ENGINE_POSTGRES)),
                backup := if s.backup.Some? && s.backup.value.enabled
                          then Some(s.backup.value.(schedule := Or(s.backup.value.schedule, "0 */6 * * *")))
                             else s.backup);
    if OrchardOn(s) then WithManagementRPC(t) else t
  }

  lemma SameDatabase(d: Database)
    ensures DatabaseAccepted(FillDatabase(d)) <==> DatabaseAccepted(d.(engine := Or(d.engine, ENGINE_POSTGRES)))
  {
    forall e: DatabaseRule
      ensures BreaksDatabase(FillDatabase(d), e) == BreaksDatabase(d.(engine := Or(d.engine, ENGINE_POSTGRES)), e) {
    }
  }

  lemma SameBackend(p: PaymentBackend)
    ensures BackendAccepted(FillBackends(p)) <==> BackendAccepted(p)
  {
    forall e: BackendRule ensures BreaksBackend(FillBackends(p), e) == BreaksBackend(p, e) {}
  }

  lemma SameIngress(i: Option<Ingress>)
    ensures IngressAccepted(Fill(i, FillIngress)) <==> IngressAccepted(i)
  {
    forall e: IngressRule ensures BreaksIngress(Fill(i, FillIngress), e) == BreaksIngress(i, e) {}
  }

  lemma SameBackup(s: Spec, t: Spec)
    requires s.backup.Some? == t.backup.Some?
    requires s.backup.Some? ==> s.backup.value.enabled == t.backup.value.enabled
    requires s.backup.Some? && s.backup.value.enabled ==>
      && s.backup.value.schedule == t.backup.value.schedule && s.backup.value.s3.Some? == t.backup.value.s3.Some?
      && (s.backup.value.s3.Some? ==> s.backup.value.s3.value.(prefix := "") == t.backup.value.s3.value.(prefix := ""))
    requires s.database.engine == t.database.engine && AutoProvision(s) == AutoProvision(t)
    ensures BackupAccepted(s) <==> BackupAccepted(t)
  {
    forall e: BackupRule ensures BreaksBackup(s, e) == BreaksBackup(t, e) {}
  }

  /** The Orchard pass fills in nothing a validator objects to. */
  lemma SameOrchard(s: Spec, t: Spec, engine: string, mtls: bool)
    requires OrchardOn(s)
    requires t.orchard == Some(FillOrchardLinks(FillOrchardParts(FillOrchardServer(s.orchard.value, engine)), mtls))
    requires s.database.engine == t.database.engine && ManagementRPCOn(s) == ManagementRPCOn(t)
             && mtls == ManagementTLSOn(t)
    ensures OrchardAccepted(t) <==> OrchardAccepted(s)
  {
    SameIngress(s.orchard.value.ingress);
    forall e: OrchardRule ensures BreaksOrchard(t, e) == BreaksOrchard(s, e) {
      SameOrchardRule(s, t, engine, mtls, e);
    }
  }

  lemma SameOrchardRule(s: Spec, t: Spec, engine: string, mtls: bool, e: OrchardRule)
    requires OrchardOn(s)
    requires t.orchard == Some(FillOrchardLinks(FillOrchardParts(FillOrchardServer(s.orchard.value, engine)), mtls))
    requires s.database.engine == t.database.engine && ManagementRPCOn(s) == ManagementRPCOn(t)
             && mtls == ManagementTLSOn(t)
    requires IngressAccepted(t.orchard.value.ingress) <==> IngressAccepted(s.orchard.value.ingress)
    ensures BreaksOrchard(t, e) == BreaksOrchard(s, e)
  {
    var o, o' := s.orchard.value, t.orchard.value;
    assert BreaksOrchardMint(t, o', e) == BreaksOrchardMint(s, o, e);
    assert BreaksBitcoin(o', e) == BreaksBitcoin(o, e);
    assert BreaksLightning(o', e) == BreaksLightning(o, e);
    assert BreaksTaproot(o', e) == BreaksTaproot(o, e);
  }

  /** The spec after Default, part by part, against the spec with the three values filled in. */
  lemma PartsAfterDefault(s: Spec, mintName: string)
    ensures var d, t := Defaults(s, mintName), Prefill(s);
            && d.mintInfo.url == t.mintInfo.url && d.resources == t.resources
            && d.database == FillDatabase(s.database)
            && t.database == s.database.(engine := Or(s.database.engine, ENGINE_POSTGRES))
            && d.paymentBackend == FillBackends(t.paymentBackend)
            && d.ingress == Fill(t.ingress, FillIngress)
            && BreaksManagementRPC(d.managementRPC) == BreaksManagementRPC(t.managementRPC)
            && ManagementRPCOn(d) == ManagementRPCOn(t)
            && d.backup == Fill(s.backup, b => FillBackup(b, mintName))
            && AutoProvision(d) == AutoProvision(t)
  {
    DefaultsByPart(s, mintName);
  }

  lemma OrchardAfterDefault(s: Spec, mintName: string)
    ensures OrchardAccepted(Defaults(s, mintName)) <==> OrchardAccepted(Prefill(s))
  {
    var d, t := Defaults(s, mintName), Prefill(s);
    PartsAfterDefault(s, mintName);
    if OrchardOn(s) {
      var u := IngressDefaults(DatabaseDefaults(MintInfoDefaults(s)));
      SameOrchard(t, d, u.database.engine, ManagementTLSOn(WithManagementRPC(u)));
    } else {
      forall e: OrchardRule ensures BreaksOrchard(d, e) == BreaksOrchard(t, e) {}
    }
  }

  /** A spec is accepted after Default exactly when it is with the three values filled in: no other
      default, synthesised mTLS included, makes a validator change its mind. */
  lemma ValidAfterDefault(s: Spec, mintName: string)
    ensures Valid(Defaults(s, mintName)) <==> Valid(Prefill(s))
  {
    var d, t := Defaults(s, mintName), Prefill(s);
    PartsAfterDefault(s, mintName);
    SameDatabase(s.database);
    SameBackend(s.paymentBackend);
    SameIngress(s.ingress);
    SameBackup(d, t);
    OrchardAfterDefault(s, mintName);
  }

  lemma PrefillKeepsOrchard(s: Spec)
    requires OrchardAccepted(s) && s.database.engine != ""
    ensures OrchardAccepted(Prefill(s))
  {
    forall e: OrchardRule ensures !BreaksOrchard(Prefill(s), e) {
      assert !BreaksOrchard(s, e);
    }
  }

  /** A mint that is accepted as it is stays accepted when the defaults are filled in. */
  lemma DefaultKeepsValid(s: Spec, mintName: string)
    requires Valid(s)
    ensures Valid(Defaults(s, mintName))
  {
    assert !BreaksDatabase(s.database, UnknownEngine);
    PrefillKeepsOrchard(s);
    assert s.backup.Some? && s.backup.value.enabled ==> !BreaksBackup(s, ScheduleMissing);
    SameBackup(s, Prefill(s));
    ValidAfterDefault(s, mintName);
  }

  /** An accepted mint has a backend, and it is the only one. */
  lemma ValidHasBackend(s: Spec)
    requires Valid(s)
    ensures ActiveBackend(s.paymentBackend) != ""
    ensures Configured(s.paymentBackend) == {ActiveBackend(s.paymentBackend)}
  {
    assert !BreaksBackend(s.paymentBackend, NoBackend) && !BreaksBackend(s.paymentBackend, ManyBackends);
    ActiveIsTheOnlyOne(s.paymentBackend);
  }
}
