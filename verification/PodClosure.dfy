/** What admission guarantees about the generated pod: volumes with distinct names and every mount with
    its volume. */
module PodClosure {
  import opened Options
  import opened MintTypes
  import opened Choices
  import opened ConfigToml
  import opened Pod
  import opened Validation

  datatype Port = Port(name: string, number: int)

  datatype Container = Container(name: string, ports: seq<Port>, mounts: seq<Mount>)

  // ---------------------------------------------------------------- containers

  function SidecarPorts(s: Spec): seq<Port>
    requires SidecarActive(s)
  {
    [Port("grpc", OrNum(s.paymentBackend.grpc.value.port, 50051))]
  }

  function LDKPorts(s: Spec): seq<Port>
    requires LDKOn(s)
  {
    [Port("ldk", OrNum(s.ldkNode.value.port, 8090)), Port("webserver", OrNum(s.ldkNode.value.webserverPort, 8888))]
  }

  function MintPorts(s: Spec): seq<Port> {
    [Port("api", ListenPort(s))] + (if PrometheusOn(s) then [Port("metrics", PrometheusPort(s.prometheus.value))]
        else [])
  }

  function OrchardPort(s: Spec): int {
    if s.orchard.Some? then OrNum(s.orchard.value.port, 3321) else 3321
  }

  function Containers(s: Spec): seq<Container> {
    (if SidecarActive(s) then [Container("grpc-processor", SidecarPorts(s), Chosen(SidecarMounts(s)))] else [])
    + (if LDKOn(s) then [Container("ldk-node", LDKPorts(s), [Mount("data", "/data", "")])] else [])
    + [Container("mintd", MintPorts(s), Chosen(MintMounts(s)))]
    + (if OrchardOn(s) then [Container("orchard", [Port("orchard", OrchardPort(s))], Chosen(OrchardMounts(s)))] else [])
  }

  method GenerateMintPorts(s: Spec) returns (ports: seq<Port>)
    ensures ports == MintPorts(s)
  {
    var listenPort := s.mintInfo.listenPort;
    if listenPort == 0 {
      listenPort := 8085;
    }
    ports := [Port("api", listenPort)];
    if s.prometheus.Some? && s.prometheus.value.enabled {
      var metricsPort := DEFAULT_PROMETHEUS_PORT;
      if s.prometheus.value.port.Some? {
        metricsPort := s.prometheus.value.port.value;
      }
      ports := ports + [Port("metrics", metricsPort)];
    }
  }

  /** generatePodSpec: the containers and volumes of the Deployment. */
  method GeneratePodSpec(s: Spec, mintName: string) returns (containers: seq<Container>, volumes: seq<Volume>)
    ensures containers == Containers(s)
    ensures volumes == Chosen(PodVolumes(s, mintName))
  {
    containers := [];
    volumes := GenerateVolumes(s, mintName);
    var orchardVolumes := GenerateOrchardVolumes(s, mintName);
    ChosenConcat(MintVolumes(s, mintName), OrchardVolumes(s, mintName));
    volumes := volumes + orchardVolumes;
    var backend := FindActiveBackend(s.paymentBackend);
    if backend == BACKEND_GRPC && s.paymentBackend.grpc.Some? && s.paymentBackend.grpc.value.sidecar.Some?
       && s.paymentBackend.grpc.value.sidecar.value.enabled {
      var mounts := GenerateSidecarMounts(s);
      containers := containers + [Container("grpc-processor", SidecarPorts(s), mounts)];
    }
    if s.ldkNode.Some? && s.ldkNode.value.enabled {
      containers := containers + [Container("ldk-node", LDKPorts(s), [Mount("data", "/data", "")])];
    }
    var mintMounts := GenerateVolumeMounts(s);
    var mintPorts := GenerateMintPorts(s);
    containers := containers + [Container("mintd", mintPorts, mintMounts)];
    if OrchardOn(s) {
      var mounts := GenerateOrchardVolumeMounts(s);
      containers := containers + [Container("orchard", [Port("orchard", OrchardPort(s))], mounts)];
    }
  }

  // ---------------------------------------------------------------- volume names

  const VOLUME_NAMES: seq<string> :=
    ["config", "data", "lnd-macaroon", "lnd-cert", "grpc-tls", "management-rpc-tls", "sidecar-tls", "orchard-data",
     "orchard-tmp", "orchard-lightning-macaroon", "orchard-lightning-cert", "orchard-lightning-key",
     "orchard-lightning-ca", "orchard-taproot-macaroon", "orchard-taproot-cert"]

  lemma NamesDistinct()
    ensures forall i, j | 0 <= i < j < 15 :: VOLUME_NAMES[i] != VOLUME_NAMES[j]
  {}

  lemma MintVolumeAt(s: Spec, mintName: string)
    ensures var cs := MintVolumes(s, mintName);
            && |cs| == 7 && cs[0] == BaseVolumes(s, mintName)[0] && cs[1] == BaseVolumes(s, mintName)[1]
            && cs[2] == LNDVolumes(s)[0] && cs[3] == LNDVolumes(s)[1]
            && (forall i | 4 <= i < 7 :: cs[i] == TLSVolumes(s, mintName)[i - 4])
            && forall i | 0 <= i < 7 :: cs[i].item.name == VOLUME_NAMES[i]
  {}

  lemma OrchardVolumeAt(s: Spec, mintName: string)
    ensures var cs := OrchardVolumes(s, mintName);
            && |cs| == 8 && cs[0] == OrchardBaseVolumes(s, mintName)[0] && cs[1] == OrchardBaseVolumes(s, mintName)[1]
            && (forall i | 2 <= i < 6 :: cs[i] == OrchardLightningVolumes(s)[i - 2])
            && (forall i | 6 <= i < 8 :: cs[i] == OrchardTaprootVolumes(s)[i - 6])
            && forall i | 0 <= i < 8 :: cs[i].item.name == VOLUME_NAMES[7 + i]
  {}

  lemma VolumeAt(s: Spec, mintName: string)
    ensures var cs := PodVolumes(s, mintName);
            && |cs| == 15
            && (forall i | 0 <= i < 7 :: cs[i] == MintVolumes(s, mintName)[i])
            && (forall i | 7 <= i < 15 :: cs[i] == OrchardVolumes(s, mintName)[i - 7])
            && forall i | 0 <= i < 15 :: cs[i].item.name == VOLUME_NAMES[i]
  {
    MintVolumeAt(s, mintName);
    OrchardVolumeAt(s, mintName);
  }

  predicate DistinctNames(vs: seq<Volume>) {
    forall i, j | 0 <= i < j < |vs| :: vs[i].name != vs[j].name
  }

  /** No two volumes of the pod share a name. */
  lemma PodVolumeNames(s: Spec, mintName: string)
    ensures DistinctNames(Chosen(PodVolumes(s, mintName)))
  {
    var cs := PodVolumes(s, mintName);
    var vs := Chosen(cs);
    VolumeAt(s, mintName);
    NamesDistinct();
    forall i, j | 0 <= i < j < |vs| ensures vs[i].name != vs[j].name {
      var k, l := ChosenOrder(cs, i, j);
      assert vs[i].name == VOLUME_NAMES[k] && vs[j].name == VOLUME_NAMES[l];
    }
  }

  // ---------------------------------------------------------------- every mount has its volume

  predicate Names(vs: seq<Volume>, i: nat, m: Mount) {
    i < |vs| && vs[i].name == m.volume
  }

  /** Exactly one volume has the name the mount asks for. */
  predicate Resolves(vs: seq<Volume>, m: Mount) {
    exists i | 0 <= i < |vs| :: Names(vs, i, m) && forall j | 0 <= j < |vs| && vs[j].name == m.volume :: j == i
  }

  predicate AllResolve(vs: seq<Volume>, ms: seq<Mount>) {
    forall i | 0 <= i < |ms| :: Resolves(vs, ms[i])
  }

  predicate Closed(cs: seq<Container>, vs: seq<Volume>) {
    forall i | 0 <= i < |cs| :: AllResolve(vs, cs[i].mounts)
  }

  lemma DeclaredResolves(s: Spec, mintName: string, m: Mount, k: nat)
    requires k < 15 && m.volume == VOLUME_NAMES[k]
    ensures |PodVolumes(s, mintName)| == 15
    ensures PodVolumes(s, mintName)[k].on ==> Resolves(Chosen(PodVolumes(s, mintName)), m)
  {
    var cs := PodVolumes(s, mintName);
    var vs := Chosen(cs);
    VolumeAt(s, mintName);
    if cs[k].on {
      var i := ChosenHas(cs, k);
      PodVolumeNames(s, mintName);
      assert Names(vs, i, m);
    }
  }

  lemma UndeclaredDoesNot(s: Spec, mintName: string, m: Mount, k: nat)
    requires k < 15 && m.volume == VOLUME_NAMES[k]
    requires |PodVolumes(s, mintName)| == 15 && !PodVolumes(s, mintName)[k].on
    ensures !Resolves(Chosen(PodVolumes(s, mintName)), m)
  {
    var cs := PodVolumes(s, mintName);
    var vs := Chosen(cs);
    VolumeAt(s, mintName);
    NamesDistinct();
    forall i | 0 <= i < |vs| ensures vs[i].name != m.volume {
      var l := ChosenFrom(cs, i);
      assert vs[i].name == VOLUME_NAMES[l];
    }
  }

  const MINT_VOLUMES: seq<nat> := [1, 0, 2, 3, 4, 5]
  const SIDECAR_VOLUMES: seq<nat> := [1, 6]
  const ORCHARD_VOLUMES: seq<nat> := [7, 8, 1, 5, 9, 10, 11, 12, 13, 14]

  lemma MintMountsDeclared(s: Spec, mintName: string)
    ensures forall i | 0 <= i < 6 :: MintMounts(s)[i].item.volume == VOLUME_NAMES[MINT_VOLUMES[i]]
    ensures |PodVolumes(s, mintName)| == 15
    ensures forall i | 0 <= i < 6 :: MintMounts(s)[i].on ==> PodVolumes(s, mintName)[MINT_VOLUMES[i]].on
  {
    VolumeAt(s, mintName);
    MintVolumeAt(s, mintName);
  }

  lemma SidecarMountsDeclared(s: Spec, mintName: string)
    ensures forall i | 0 <= i < 2 :: SidecarMounts(s)[i].item.volume == VOLUME_NAMES[SIDECAR_VOLUMES[i]]
    ensures |PodVolumes(s, mintName)| == 15
    ensures forall i | 0 <= i < 2 :: SidecarMounts(s)[i].on ==> PodVolumes(s, mintName)[SIDECAR_VOLUMES[i]].on
  {
    VolumeAt(s, mintName);
    MintVolumeAt(s, mintName);
  }

  lemma OrchardMountAt(s: Spec)
    ensures var cs := OrchardMounts(s);
            && |cs| == 10
            && (forall i | 0 <= i < 4 :: cs[i] == OrchardBaseMounts(s)[i])
            && (forall i | 4 <= i < 8 :: cs[i] == OrchardLightningMounts(s)[i - 4])
            && (forall i | 8 <= i < 10 :: cs[i] == OrchardTaprootMounts(s)[i - 8])
            && forall i | 0 <= i < 10 :: cs[i].item.volume == VOLUME_NAMES[ORCHARD_VOLUMES[i]]
  {}

  /** The one mount whose volume another file may have left out. */
  predicate MTLSWithoutTLS(s: Spec) {
    OrchardOn(s) && OrchardMTLS(s) && !ManagementTLSOn(s)
  }

  lemma OrchardMountsDeclared(s: Spec, mintName: string)
    ensures |PodVolumes(s, mintName)| == 15 && |OrchardMounts(s)| == 10
    ensures forall i | 0 <= i < 10 ::
      OrchardMounts(s)[i].on && (i == 3 ==> !MTLSWithoutTLS(s)) ==> PodVolumes(s, mintName)[ORCHARD_VOLUMES[i]].on
  {
    VolumeAt(s, mintName);
    MintVolumeAt(s, mintName);
    OrchardVolumeAt(s, mintName);
    OrchardMountAt(s);
  }

  lemma MintMountsResolve(s: Spec, mintName: string)
    ensures AllResolve(Chosen(PodVolumes(s, mintName)), Chosen(MintMounts(s)))
  {
    var ms := Chosen(MintMounts(s));
    MintMountsDeclared(s, mintName);
    forall i | 0 <= i < |ms| ensures Resolves(Chosen(PodVolumes(s, mintName)), ms[i]) {
      var k := ChosenFrom(MintMounts(s), i);
      DeclaredResolves(s, mintName, ms[i], MINT_VOLUMES[k]);
    }
  }

  lemma SidecarMountsResolve(s: Spec, mintName: string)
    ensures AllResolve(Chosen(PodVolumes(s, mintName)), Chosen(SidecarMounts(s)))
  {
    var ms := Chosen(SidecarMounts(s));
    SidecarMountsDeclared(s, mintName);
    forall i | 0 <= i < |ms| ensures Resolves(Chosen(PodVolumes(s, mintName)), ms[i]) {
      var k := ChosenFrom(SidecarMounts(s), i);
      DeclaredResolves(s, mintName, ms[i], SIDECAR_VOLUMES[k]);
    }
  }

  lemma LDKMountResolves(s: Spec, mintName: string)
    ensures AllResolve(Chosen(PodVolumes(s, mintName)), [Mount("data", "/data", "")])
  {
    MintMountsDeclared(s, mintName);
    DeclaredResolves(s, mintName, Mount("data", "/data", ""), 1);
  }

  lemma OrchardMountsResolve(s: Spec, mintName: string)
    requires OrchardOn(s)
    ensures AllResolve(Chosen(PodVolumes(s, mintName)), Chosen(OrchardMounts(s))) <==> !MTLSWithoutTLS(s)
  {
    var cs, vs := OrchardMounts(s), Chosen(PodVolumes(s, mintName));
    var ms := Chosen(cs);
    OrchardMountsDeclared(s, mintName);
    OrchardMountAt(s);
    if MTLSWithoutTLS(s) {
      var i := ChosenHas(cs, 3);
      VolumeAt(s, mintName);
      MintVolumeAt(s, mintName);
      UndeclaredDoesNot(s, mintName, ms[i], 5);
    } else {
      forall i | 0 <= i < |ms| ensures Resolves(vs, ms[i]) {
        var k := ChosenFrom(cs, i);
        DeclaredResolves(s, mintName, ms[i], ORCHARD_VOLUMES[k]);
      }
    }
  }

  /** Every mount of every container names exactly one declared volume, except when Orchard insists on
      mTLS while the management RPC is off. */
  lemma PodClosed(s: Spec, mintName: string)
    ensures Closed(Containers(s), Chosen(PodVolumes(s, mintName))) <==> !MTLSWithoutTLS(s)
  {
    var cs, vs := Containers(s), Chosen(PodVolumes(s, mintName));
    SidecarMountsResolve(s, mintName);
    LDKMountResolves(s, mintName);
    MintMountsResolve(s, mintName);
    if OrchardOn(s) {
      OrchardMountsResolve(s, mintName);
      assert cs[|cs| - 1].mounts == Chosen(OrchardMounts(s));
    }
  }

  /** That case is the one rule of the validator that closes the pod. */
  lemma ValidatorClosesPod(s: Spec)
    ensures MTLSWithoutTLS(s) <==> BreaksOrchard(s, MTLSWithoutRPC)
  {}

  lemma ValidPodClosed(s: Spec, mintName: string)
    requires Valid(s)
    ensures Closed(Containers(s), Chosen(PodVolumes(s, mintName)))
    ensures DistinctNames(Chosen(PodVolumes(s, mintName)))
  {
    ValidatorClosesPod(s);
    assert !BreaksOrchard(s, MTLSWithoutRPC);
    PodClosed(s, mintName);
    PodVolumeNames(s, mintName);
  }
}
