/** The status a Reconcile works out, stage by stage. */
module Statuses {
  import opened Options
  import opened MintTypes
  import opened Plan
  import opened Cluster

  function SetCondition(st: Status, t: ConditionType, status: bool, generation: nat, reason: string): Status {
    st.(conditions := st.conditions[t := Condition(status, generation, reason)])
  }

  function Provisioned(st: Status, generation: nat): Status {
    if st.phase == Pending
    then SetCondition(st.(phase := Provisioning), ReadyCondition, false, generation, "Provisioning") else st
  }

  /** transitionReconciliationPhase */
  function Transition(st: Status, generation: nat): Status {
    var t := Provisioned(st, generation);
    if t.observedGeneration != 0 && t.observedGeneration != generation
    then SetCondition(t.(phase := Updating), ReadyCondition, false, generation, "Updating") else t
  }

  function AfterPostgres(st: Status, m: Mint, up: bool): Status {
    if !AutoProvision(m.spec) then st
    else SetCondition(st, DatabaseReady, up, m.generation, if up then "PostgreSQLReady" else "PostgreSQLNotReady")
  }

  function AfterBackup(st: Status, m: Mint): Status {
    if m.spec.backup.None? || !m.spec.backup.value.enabled then st
    else if Generates(m.spec, BackupCronJob)
       then SetCondition(st, BackupReady, true, m.generation, "BackupScheduleReady")
    else SetCondition(st, BackupReady, false, m.generation, "BackupNotReconciled")
  }

  function AfterConfig(st: Status, m: Mint): Status {
    SetCondition(st, ConfigValid, true, m.generation, "ConfigurationValid")
  }

  function AfterReadiness(st: Status, m: Mint, ready: bool): Status {
    if ready then SetCondition(st.(phase := Ready), ReadyCondition, true, m.generation, "ReconciliationComplete")
    else SetCondition(st, ReadyCondition, false, m.generation, "DeploymentNotReady")
  }

  function AfterError(st: Status, m: Mint): Status {
    SetCondition(st.(phase := Failed), ReadyCondition, false, m.generation, "ReconciliationFailed")
  }

  /** The status after the three stages that set a condition. */
  function AfterStages(st: Status, m: Mint, up: bool): Status {
    AfterConfig(AfterBackup(AfterPostgres(st, m, up), m), m)
  }

  // DraftedFirst and DraftedAll say what the status is after two and after all of them. (The quantifier keeps
  // that out of proofs that only pass the fact on.)

  ghost predicate WhetherFirst(b: bool, st: Status, m: Mint, up: bool, st': Status) {
    b == (st' == AfterBackup(AfterPostgres(st, m, up), m))
  }

  ghost predicate DraftedFirst(st: Status, m: Mint, up: bool, st': Status) {
    forall b: bool :: WhetherFirst(b, st, m, up, st') ==> b
  }

  ghost predicate WhetherAll(b: bool, st: Status, m: Mint, up: bool, st': Status) {
    b == (st' == AfterStages(st, m, up))
  }

  ghost predicate DraftedAll(st: Status, m: Mint, up: bool, st': Status) {
    forall b: bool :: WhetherAll(b, st, m, up, st') ==> b
  }

  lemma FirstMeansStatus(st: Status, m: Mint, up: bool, st': Status)
    ensures DraftedFirst(st, m, up, st') <==> st' == AfterBackup(AfterPostgres(st, m, up), m)
  {
    assert WhetherFirst(st' == AfterBackup(AfterPostgres(st, m, up), m), st, m, up, st');
  }

  lemma AllMeansStatus(st: Status, m: Mint, up: bool, st': Status)
    ensures DraftedAll(st, m, up, st') <==> st' == AfterStages(st, m, up)
  {
    assert WhetherAll(st' == AfterStages(st, m, up), st, m, up, st');
  }

  lemma StagesMade(st: Status, m: Mint, up: bool, first: Status, all: Status)
    requires DraftedFirst(st, m, up, first) && all == AfterConfig(first, m)
    ensures DraftedAll(st, m, up, all)
  {
    FirstMeansStatus(st, m, up, first);
    AllMeansStatus(st, m, up, all);
  }

  /** The status of a pass in which every stage succeeded. */
  function AfterPass(m: Mint, up: bool, ready: bool): Status {
    AfterReadiness(AfterStages(Transition(m.status, m.generation), m, up), m, ready)
  }

  /** What updateStatus reads of the cluster; None where a read failed or found nothing. */
  datatype Seen = Seen(readyReplicas: Option<int>, service: bool, ingress: Option<(bool, bool)>, configMap: bool)

  function WithDeployment(st: Status, name: string, readyReplicas: Option<int>): Status {
    if readyReplicas.Some? then st.(readyReplicas := readyReplicas.value, deployment := name) else st
  }

  function WithService(st: Status, name: string, found: bool): Status {
    if found then st.(service := name) else st
  }

  /** `ingress` holds whether it has an address and whether it has TLS. */
  function WithIngress(st: Status, c: Mint, name: string, ingress: Option<(bool, bool)>): Status {
    if c.spec.ingress.None? || !c.spec.ingress.value.enabled || ingress.None? then st
    else if ingress.value.0 then
      SetCondition(st.(ingress := name,
          url := (if ingress.value.1 then "https://" else "http://") + c.spec.ingress.value.host),
                   IngressReady, true, c.generation, "IngressReady")
    else SetCondition(st.(ingress := name), IngressReady, false, c.generation, "IngressNotReady")
  }

  function WithConfigMap(st: Status, name: string, found: bool): Status {
    if found then st.(configMap := name + "-config") else st
  }

  /** The status updateStatus writes to the freshly read `c`. */
  function Observed(st: Status, c: Mint, name: string, seen: Seen): Status {
    WithConfigMap(WithIngress(WithService(WithDeployment(st, name, seen.readyReplicas), name, seen.service), c, name,
        seen.ingress),
                  name, seen.configMap).(observedGeneration := c.generation)
  }

  // ---------------------------------------------------------------- what a status says

  /** The phase and the Ready condition after a pass in which every stage succeeded. */
  lemma PassSaysReady(m: Mint, up: bool, ready: bool)
    ensures var st := AfterPass(m, up, ready);
            && st.phase == (if ready then Ready
                            else if m.status.observedGeneration != 0 && m.status.observedGeneration != m.generation
                            then Updating
                            else if m.status.phase == Pending then Provisioning else m.status.phase)
            && ReadyCondition in st.conditions
            && st.conditions[ReadyCondition]
               == Condition(ready, m.generation, if ready then "ReconciliationComplete" else "DeploymentNotReady")
  {}

  /** The conditions of the stages; the Ingress is not looked at until the status is stored. */
  lemma PassSaysStages(m: Mint, up: bool, ready: bool)
    ensures var st, s := AfterPass(m, up, ready), m.spec;
            var provisioned := s.database.postgres.Some? && s.database.postgres.value.autoProvision;
            && ConfigValid in st.conditions
            && st.conditions[ConfigValid] == Condition(true, m.generation, "ConfigurationValid")
            && (provisioned ==>
                  DatabaseReady in st.conditions
                  && st.conditions[DatabaseReady]
                     == Condition(up, m.generation, if up then "PostgreSQLReady" else "PostgreSQLNotReady"))
            && (s.backup.Some? && s.backup.value.enabled ==>
                  BackupReady in st.conditions
                  && st.conditions[BackupReady]
                     == if provisioned && s.database.engine == "postgres" && s.backup.value.s3.Some?
                        then Condition(true, m.generation, "BackupScheduleReady")
                        else Condition(false, m.generation, "BackupNotReconciled"))
  {
    StagesFix(m, up, ready);
  }

  /** `b` is `a` but for the phase and the conditions, of which it leaves this one. */
  predicate Leaves(a: Status, b: Status, t: ConditionType) {
    b == a.(phase := b.phase, conditions := b.conditions) && SameAt(a, b, t)
  }

  lemma StagesLeave(st: Status, m: Mint, up: bool, t: ConditionType)
    requires t != ReadyCondition && t != ConfigValid
    requires t == DatabaseReady ==> m.spec.database.postgres.None? || !m.spec.database.postgres.value.autoProvision
    requires t == BackupReady ==> m.spec.backup.None? || !m.spec.backup.value.enabled
    ensures Leaves(st, AfterPostgres(st, m, up), t)
    ensures Leaves(st, AfterBackup(st, m), t) && Leaves(st, AfterConfig(st, m), t)
  {}

  lemma EndsLeave(st: Status, m: Mint, ready: bool, t: ConditionType)
    requires t != ReadyCondition
    ensures Leaves(st, Transition(st, m.generation), t) && Leaves(st, AfterReadiness(st, m, ready), t)
  {}

  /** A pass changes nothing else in the status it started from. */
  lemma PassLeaves(m: Mint, up: bool, ready: bool, t: ConditionType)
    requires t != ReadyCondition && t != ConfigValid
    requires t == DatabaseReady ==> m.spec.database.postgres.None? || !m.spec.database.postgres.value.autoProvision
    requires t == BackupReady ==> m.spec.backup.None? || !m.spec.backup.value.enabled
    ensures Leaves(m.status, AfterPass(m, up, ready), t)
  {
    var a := Transition(m.status, m.generation);
    var b := AfterPostgres(a, m, up);
    var c := AfterBackup(b, m);
    EndsLeave(m.status, m, ready, t);
    StagesLeave(a, m, up, t);
    StagesLeave(b, m, up, t);
    StagesLeave(c, m, up, t);
    EndsLeave(AfterConfig(c, m), m, ready, t);
  }

  lemma ErrorSays(st: Status, m: Mint)
    ensures AfterError(st, m)
         == st.(phase := Failed,
                conditions := st.conditions[ReadyCondition := Condition(false, m.generation, "ReconciliationFailed")])
  {}

  /** What the stored status takes from the cluster, where it was read. */
  lemma ObservedSays(st: Status, c: Mint, name: string, seen: Seen)
    ensures var o := Observed(st, c, name, seen);
            && o.phase == st.phase && o.observedGeneration == c.generation
            && (if seen.readyReplicas.Some? then o.deployment == name && o.readyReplicas == seen.readyReplicas.value
                else o.deployment == st.deployment && o.readyReplicas == st.readyReplicas)
            && o.service == (if seen.service then name else st.service)
            && o.configMap == (if seen.configMap then name + "-config" else st.configMap)
  {}

  /** An address is told as the host of the spec behind the scheme that fits its TLS. */
  lemma ObservedSaysIngress(st: Status, c: Mint, name: string, seen: Seen)
    ensures var o := Observed(st, c, name, seen);
            if c.spec.ingress.Some? && c.spec.ingress.value.enabled && seen.ingress.Some? then
              var (addressed, tls) := seen.ingress.value;
              && o.ingress == name && IngressReady in o.conditions
              && o.conditions[IngressReady]
                 == Condition(addressed, c.generation, if addressed then "IngressReady" else "IngressNotReady")
              && o.url == (if !addressed then st.url
                           else if tls then "https://" + c.spec.ingress.value.host
                           else "http://" + c.spec.ingress.value.host)
            else o.ingress == st.ingress && o.url == st.url && SameAt(st, o, IngressReady)
  {}

  // ---------------------------------------------------------------- what a draft keeps

  /** A status on its way through a pass that started from `m`. */
  predicate Draft(m: Mint, st: Status) {
    && st.phase != NoPhase && st.phase != Pending
    && (st.phase == Updating ==> m.status.observedGeneration != 0)
    && st.observedGeneration == m.status.observedGeneration
  }

  lemma TransitionDrafts(m: Mint)
    requires m.status.phase != NoPhase && (m.status.phase == Updating ==> m.status.observedGeneration != 0)
    ensures Draft(m, Transition(m.status, m.generation))
  {}

  lemma StagesDraft(m: Mint, st: Status, up: bool)
    requires Draft(m, st)
    ensures Draft(m, AfterPostgres(st, m, up)) && Draft(m, AfterBackup(st, m)) && Draft(m, AfterConfig(st, m))
  {}

  lemma ReadinessDrafts(m: Mint, st: Status, ready: bool)
    requires Draft(m, st)
    ensures Draft(m, AfterReadiness(st, m, ready))
    ensures ReadyTrue(AfterReadiness(st, m, ready)) <==> ready
    ensures ready ==> AfterReadiness(st, m, ready).phase == Ready
  {}

  lemma PassDrafts(m: Mint, up: bool, ready: bool)
    requires m.status.phase != NoPhase && (m.status.phase == Updating ==> m.status.observedGeneration != 0)
    ensures Draft(m, AfterPass(m, up, ready))
    ensures ReadyTrue(AfterPass(m, up, ready)) <==> ready
    ensures ready ==> AfterPass(m, up, ready).phase == Ready
  {
    var a := Transition(m.status, m.generation);
    TransitionDrafts(m);
    StagesDraft(m, a, up);
    var b := AfterPostgres(a, m, up);
    StagesDraft(m, b, up);
    var c := AfterBackup(b, m);
    StagesDraft(m, c, up);
    ReadinessDrafts(m, AfterConfig(c, m), ready);
  }

  lemma ErrorIsStep(m: Mint, st: Status)
    requires st.observedGeneration == m.status.observedGeneration <= m.generation
    ensures StatusStep(m, AfterError(st, m)) && !ReadyTrue(AfterError(st, m))
  {}

  lemma ObservedKeeps(st: Status, c: Mint, name: string, seen: Seen)
    ensures Observed(st, c, name, seen).phase == st.phase && ReadyTrue(Observed(st, c, name, seen)) == ReadyTrue(st)
    ensures Observed(st, c, name, seen).observedGeneration == c.generation
  {}

  /** A finished draft may be written over the status it started from. */
  lemma ObservedIsStep(m: Mint, c: Mint, st: Status, name: string, seen: Seen)
    requires Draft(m, st) && (ReadyTrue(st) ==> st.phase == Ready)
    requires c.status == m.status && c.status.observedGeneration <= c.generation
    ensures StatusStep(c, Observed(st, c, name, seen))
  {
    ObservedKeeps(st, c, name, seen);
  }

  // ---------------------------------------------------------------- a second pass works out the same

  predicate SameAt(a: Status, b: Status, t: ConditionType) {
    (t in a.conditions <==> t in b.conditions) && (t in a.conditions ==> a.conditions[t] == b.conditions[t])
  }

  predicate PostgresFixed(st: Status, m: Mint, up: bool) { AfterPostgres(st, m, up) == st }

  predicate BackupFixed(st: Status, m: Mint) { AfterBackup(st, m) == st }

  predicate ConfigFixed(st: Status, m: Mint) { AfterConfig(st, m) == st }

  predicate ReadinessFixed(st: Status, m: Mint, ready: bool) { AfterReadiness(st, m, ready) == st }

  lemma StillFixed(a: Status, b: Status, m: Mint, up: bool, ready: bool)
    ensures PostgresFixed(a, m, up) && SameAt(a, b, DatabaseReady) ==> PostgresFixed(b, m, up)
    ensures BackupFixed(a, m) && SameAt(a, b, BackupReady) ==> BackupFixed(b, m)
    ensures ConfigFixed(a, m) && SameAt(a, b, ConfigValid) ==> ConfigFixed(b, m)
  {}

  lemma ReadinessStillFixed(a: Status, b: Status, m: Mint, ready: bool)
    ensures ReadinessFixed(a, m, ready) && SameAt(a, b, ReadyCondition) && a.phase == b.phase ==>
            ReadinessFixed(b, m, ready)
  {}

  lemma PostgresFixes(st: Status, m: Mint, up: bool)
    ensures PostgresFixed(AfterPostgres(st, m, up), m, up)
  {}

  lemma BackupFixes(st: Status, m: Mint)
    ensures BackupFixed(AfterBackup(st, m), m) && SameAt(st, AfterBackup(st, m), DatabaseReady)
  {}

  lemma ConfigFixes(st: Status, m: Mint)
    ensures ConfigFixed(AfterConfig(st, m), m)
    ensures SameAt(st, AfterConfig(st, m), DatabaseReady) && SameAt(st, AfterConfig(st, m), BackupReady)
  {}

  lemma ReadinessFixes(st: Status, m: Mint, ready: bool)
    ensures var b := AfterReadiness(st, m, ready);
            ReadinessFixed(b, m, ready) && SameAt(st, b, DatabaseReady) && SameAt(st, b, BackupReady)
                && SameAt(st, b, ConfigValid)
  {}

  lemma IngressFixes(st: Status, c: Mint, name: string, ingress: Option<(bool, bool)>, t: ConditionType)
    requires t != IngressReady
    ensures SameAt(st, WithIngress(st, c, name, ingress), t)
  {}

  lemma ObservedFixes(st: Status, c: Mint, name: string, seen: Seen, t: ConditionType)
    requires t != IngressReady
    ensures SameAt(st, Observed(st, c, name, seen), t)
  {
    var b := WithService(WithDeployment(st, name, seen.readyReplicas), name, seen.service);
    IngressFixes(b, c, name, seen.ingress, t);
  }

  lemma IngressTwice(st: Status, c: Mint, name: string, ingress: Option<(bool, bool)>, o: Status)
    requires var b := WithIngress(st, c, name, ingress);
             o.ingress == b.ingress && o.url == b.url && o.conditions == b.conditions
    ensures WithIngress(o, c, name, ingress) == o
  {}

  lemma ObservedTwice(st: Status, c: Mint, name: string, seen: Seen)
    ensures Observed(Observed(st, c, name, seen), c, name, seen) == Observed(st, c, name, seen)
  {
    var o := Observed(st, c, name, seen);
    var b := WithService(WithDeployment(st, name, seen.readyReplicas), name, seen.service);
    IngressTwice(b, c, name, seen.ingress, o);
    assert WithDeployment(o, name, seen.readyReplicas) == o && WithService(o, name, seen.service) == o;
  }

  /** The stored status is one that a pass with these findings leaves as it is. */
  predicate Settled(m: Mint, st: Status, up: bool, ready: bool, name: string, seen: Seen) {
    && st.phase != NoPhase && st.phase != Pending && st.observedGeneration == m.generation
    && PostgresFixed(st, m, up) && BackupFixed(st, m) && ConfigFixed(st, m) && ReadinessFixed(st, m, ready)
    && Observed(st, m, name, seen) == st
  }

  lemma StagesFix(m: Mint, up: bool, ready: bool)
    ensures var st := AfterPass(m, up, ready);
            PostgresFixed(st, m, up) && BackupFixed(st, m) && ConfigFixed(st, m) && ReadinessFixed(st, m, ready)
  {
    var a := Transition(m.status, m.generation);
    var b := AfterPostgres(a, m, up);
    var c := AfterBackup(b, m);
    var d := AfterConfig(c, m);
    var f := AfterReadiness(d, m, ready);
    PostgresFixes(a, m, up);
    BackupFixes(b, m);
    StillFixed(b, c, m, up, ready);
    ConfigFixes(c, m);
    StillFixed(c, d, m, up, ready);
    ReadinessFixes(d, m, ready);
    StillFixed(d, f, m, up, ready);
  }

  lemma PassPhase(m: Mint, up: bool, ready: bool)
    requires m.status.phase != NoPhase
    ensures AfterPass(m, up, ready).phase != NoPhase && AfterPass(m, up, ready).phase != Pending
  {}

  /** What a pass works out and stores, the next pass with the same findings works out again. */
  lemma PassSettles(m: Mint, up: bool, ready: bool, name: string, seen: Seen)
    requires m.status.phase != NoPhase
    ensures Settled(m, Observed(AfterPass(m, up, ready), m, name, seen), up, ready, name, seen)
  {
    var st := AfterPass(m, up, ready);
    var o := Observed(st, m, name, seen);
    StagesFix(m, up, ready);
    PassPhase(m, up, ready);
    ObservedKeeps(st, m, name, seen);
    ObservedFixes(st, m, name, seen, DatabaseReady);
    ObservedFixes(st, m, name, seen, BackupReady);
    ObservedFixes(st, m, name, seen, ConfigValid);
    ObservedFixes(st, m, name, seen, ReadyCondition);
    ObservedTwice(st, m, name, seen);
    StillFixed(st, o, m, up, ready);
    ReadinessStillFixed(st, o, m, ready);
  }

  /** A pass over a settled status changes nothing in it. */
  lemma SettledStays(m: Mint, up: bool, ready: bool, name: string, seen: Seen)
    requires Settled(m, m.status, up, ready, name, seen)
    ensures AfterPass(m, up, ready) == m.status && Observed(m.status, m, name, seen) == m.status
  {}
}
