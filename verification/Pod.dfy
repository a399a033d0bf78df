/** The pod of internal/controller/generators/deployment.go and orchard.go: volumes and mounts grown
    branch by branch in two files that never look at each other. */
module Pod {
  import opened Options
  import opened MintTypes
  import opened Choices
  import opened ConfigToml

  datatype Source = FromConfigMap(name: string) | FromClaim(name: string) | FromSecret(name: string) | EmptyDir

  datatype Volume = Volume(name: string, source: Source)

  datatype Mount = Mount(volume: string, path: string, subPath: string)

  const ORCHARD_DATA_DIR := "/app/data"
  const ORCHARD_TMP_DIR := "/app/data/tmp"
  const ORCHARD_MINT_DATA_DIR := "/mnt/mint"

  function RefName(k: Option<SecretKey>): string {
    if k.Some? then k.value.name else ""
  }

  function RefKey(k: Option<SecretKey>): string {
    if k.Some? then k.value.key else ""
  }

  // ---------------------------------------------------------------- who is active

  predicate LNDActive(s: Spec) {
    ActiveBackend(s.paymentBackend) == BACKEND_LND
  }

  predicate GRPCActive(s: Spec) {
    ActiveBackend(s.paymentBackend) == BACKEND_GRPC
  }

  predicate SidecarActive(s: Spec) {
    GRPCActive(s) && s.paymentBackend.grpc.value.sidecar.Some? && s.paymentBackend.grpc.value.sidecar.value.enabled
  }

  function LNDMacaroon(s: Spec): Option<SecretKey> {
    if LNDActive(s) then s.paymentBackend.lnd.value.macaroonSecretRef else None
  }

  function LNDCert(s: Spec): Option<SecretKey> {
    if LNDActive(s) then s.paymentBackend.lnd.value.certSecretRef else None
  }

  function GRPCTLS(s: Spec): Option<SecretKey> {
    if GRPCActive(s) then s.paymentBackend.grpc.value.tlsSecretRef else None
  }

  function SidecarTLSRef(s: Spec): Option<SecretKey> {
    if SidecarActive(s) && s.paymentBackend.grpc.value.sidecar.value.enableTLS
    then s.paymentBackend.grpc.value.sidecar.value.tlsSecretRef else None
  }

  /** orchardMintRPCMTLS */
  predicate OrchardMTLS(s: Spec) {
    if s.orchard.Some? && s.orchard.value.mint.Some? && s.orchard.value.mint.value.rpc.Some?
       && s.orchard.value.mint.value.rpc.value.mtls.Some?
    then s.orchard.value.mint.value.rpc.value.mtls.value
    else ManagementTLSOn(s)
  }

  function Lightning(s: Spec): OrchardLightning {
    if OrchardOn(s) then GetOr(s.orchard.value.lightning, OrchardLightning("", "", 0, None, None, None, None))
    else OrchardLightning("", "", 0, None, None, None, None)
  }

  function Taproot(s: Spec): OrchardTaproot {
    if OrchardOn(s) then GetOr(s.orchard.value.taproot, OrchardTaproot("", "", 0, None, None))
    else OrchardTaproot("", "", 0, None, None)
  }

  // ---------------------------------------------------------------- volumes

  function SecretChoice(name: string, ref: Option<SecretKey>): Choice<Volume> {
    Choice(ref.Some?, Volume(name, FromSecret(RefName(ref))))
  }

  function BaseVolumes(s: Spec, mintName: string): seq<Choice<Volume>> {
    [Choice(true, Volume("config", FromConfigMap(mintName + "-config"))),
     Choice(true, Volume("data", if LocalEngine(s) then FromClaim(mintName + "-data") else EmptyDir))]
  }

  function LNDVolumes(s: Spec): seq<Choice<Volume>> {
    [SecretChoice("lnd-macaroon", LNDMacaroon(s)), SecretChoice("lnd-cert", LNDCert(s))]
  }

  function TLSVolumes(s: Spec, mintName: string): seq<Choice<Volume>> {
    [SecretChoice("grpc-tls", GRPCTLS(s)),
     Choice(ManagementTLSOn(s), Volume("management-rpc-tls", FromSecret(ManagementTLSSecretName(s, mintName)))),
     SecretChoice("sidecar-tls", SidecarTLSRef(s))]
  }

  function OrchardBaseVolumes(s: Spec, mintName: string): seq<Choice<Volume>> {
    [Choice(OrchardOn(s), Volume("orchard-data", FromClaim(mintName + "-orchard-data"))),
     Choice(OrchardOn(s), Volume("orchard-tmp", EmptyDir))]
  }

  function OrchardLightningVolumes(s: Spec): seq<Choice<Volume>> {
    [SecretChoice("orchard-lightning-macaroon", Lightning(s).macaroonRef),
     SecretChoice("orchard-lightning-cert", Lightning(s).certRef),
     SecretChoice("orchard-lightning-key", Lightning(s).keyRef),
     SecretChoice("orchard-lightning-ca", Lightning(s).caRef)]
  }

  function OrchardTaprootVolumes(s: Spec): seq<Choice<Volume>> {
    [SecretChoice("orchard-taproot-macaroon", Taproot(s).macaroonRef),
     SecretChoice("orchard-taproot-cert", Taproot(s).certRef)]
  }

  function MintVolumes(s: Spec, mintName: string): seq<Choice<Volume>> {
    BaseVolumes(s, mintName) + LNDVolumes(s) + TLSVolumes(s, mintName)
  }

  function OrchardVolumes(s: Spec, mintName: string): seq<Choice<Volume>> {
    OrchardBaseVolumes(s, mintName) + OrchardLightningVolumes(s) + OrchardTaprootVolumes(s)
  }

  function PodVolumes(s: Spec, mintName: string): seq<Choice<Volume>> {
    MintVolumes(s, mintName) + OrchardVolumes(s, mintName)
  }

  // ---------------------------------------------------------------- mounts

  function SecretMount(name: string, path: string, ref: Option<SecretKey>): Choice<Mount> {
    Choice(ref.Some?, Mount(name, path, RefKey(ref)))
  }

  function MintMounts(s: Spec): seq<Choice<Mount>> {
    [Choice(true, Mount("data", "/data", "")),
     Choice(true, Mount("config", "/data/config.toml", "config.toml")),
     SecretMount("lnd-macaroon", "/secrets/lnd/macaroon", LNDMacaroon(s)),
     SecretMount("lnd-cert", "/secrets/lnd/cert", LNDCert(s)),
     Choice(GRPCTLS(s).Some?, Mount("grpc-tls", GRPC_TLS_MOUNT, "")),
     Choice(ManagementTLSOn(s), Mount("management-rpc-tls", MANAGEMENT_TLS_MOUNT, ""))]
  }

  function SidecarDir(s: Spec): string {
    if SidecarActive(s) then s.paymentBackend.grpc.value.sidecar.value.workingDir else ""
  }

  function SidecarMounts(s: Spec): seq<Choice<Mount>> {
    [Choice(SidecarDir(s) != "", Mount("data", SidecarDir(s), "sidecar-processor")),
     Choice(SidecarTLSRef(s).Some?, Mount("sidecar-tls", "/secrets/sidecar-tls", ""))]
  }

  function OrchardBaseMounts(s: Spec): seq<Choice<Mount>> {
    [Choice(OrchardOn(s), Mount("orchard-data", ORCHARD_DATA_DIR, "")),
     Choice(OrchardOn(s), Mount("orchard-tmp", ORCHARD_TMP_DIR, "")),
     Choice(OrchardOn(s), Mount("data", ORCHARD_MINT_DATA_DIR, "")),
     Choice(OrchardOn(s) && OrchardMTLS(s), Mount("management-rpc-tls", MANAGEMENT_TLS_MOUNT, ""))]
  }

  function OrchardLightningMounts(s: Spec): seq<Choice<Mount>> {
    [SecretMount("orchard-lightning-macaroon", "/secrets/orchard/lightning/macaroon", Lightning(s).macaroonRef),
     SecretMount("orchard-lightning-cert", "/secrets/orchard/lightning/cert", Lightning(s).certRef),
     SecretMount("orchard-lightning-key", "/secrets/orchard/lightning/key", Lightning(s).keyRef),
     SecretMount("orchard-lightning-ca", "/secrets/orchard/lightning/ca", Lightning(s).caRef)]
  }

  function OrchardTaprootMounts(s: Spec): seq<Choice<Mount>> {
    [SecretMount("orchard-taproot-macaroon", "/secrets/orchard/taproot/macaroon", Taproot(s).macaroonRef),
     SecretMount("orchard-taproot-cert", "/secrets/orchard/taproot/cert", Taproot(s).certRef)]
  }

  function OrchardMounts(s: Spec): seq<Choice<Mount>> {
    OrchardBaseMounts(s) + OrchardLightningMounts(s) + OrchardTaprootMounts(s)
  }

  // ---------------------------------------------------------------- the generators

  method GenerateVolumes(s: Spec, mintName: string) returns (volumes: seq<Volume>)
    ensures volumes == Chosen(MintVolumes(s, mintName))
  {
    volumes := [Volume("config", FromConfigMap(mintName + "-config"))];
    if s.database.engine == ENGINE_SQLITE || s.database.engine == ENGINE_REDB {
      volumes := volumes + [Volume("data", FromClaim(mintName + "-data"))];
    } else {
      volumes := volumes + [Volume("data", EmptyDir)];
    }
    ChosenTwo(BaseVolumes(s, mintName)[0], BaseVolumes(s, mintName)[1]);
    var lnd := GenerateLNDVolumes(s);
    var tls := GenerateTLSVolumes(s, mintName);
    ChosenConcat(BaseVolumes(s, mintName), LNDVolumes(s));
    ChosenConcat(BaseVolumes(s, mintName) + LNDVolumes(s), TLSVolumes(s, mintName));
    volumes := volumes + lnd + tls;
  }

  method GenerateLNDVolumes(s: Spec) returns (volumes: seq<Volume>)
    ensures volumes == Chosen(LNDVolumes(s))
  {
    volumes := [];
    var backend := FindActiveBackend(s.paymentBackend);
    if backend == BACKEND_LND && s.paymentBackend.lnd.Some? {
      var lnd := s.paymentBackend.lnd.value;
      if lnd.macaroonSecretRef.Some? {
        volumes := volumes + [Volume("lnd-macaroon", FromSecret(lnd.macaroonSecretRef.value.name))];
      }
      if lnd.certSecretRef.Some? {
        volumes := volumes + [Volume("lnd-cert", FromSecret(lnd.certSecretRef.value.name))];
      }
    }
    ChosenTwo(LNDVolumes(s)[0], LNDVolumes(s)[1]);
  }

  method GenerateTLSVolumes(s: Spec, mintName: string) returns (volumes: seq<Volume>)
    ensures volumes == Chosen(TLSVolumes(s, mintName))
  {
    volumes := [];
    var backend := FindActiveBackend(s.paymentBackend);
    if backend == BACKEND_GRPC && s.paymentBackend.grpc.Some? && s.paymentBackend.grpc.value.tlsSecretRef.Some? {
      volumes := volumes + [Volume("grpc-tls", FromSecret(s.paymentBackend.grpc.value.tlsSecretRef.value.name))];
    }
    if ManagementTLSOn(s) {
      volumes := volumes + [Volume("management-rpc-tls", FromSecret(ManagementTLSSecretName(s, mintName)))];
    }
    var cs := TLSVolumes(s, mintName);
    ChosenTwo(cs[0], cs[1]);
    if backend == BACKEND_GRPC && s.paymentBackend.grpc.Some? && s.paymentBackend.grpc.value.sidecar.Some? {
      var sidecar := s.paymentBackend.grpc.value.sidecar.value;
      if sidecar.enabled && sidecar.enableTLS && sidecar.tlsSecretRef.Some? {
        volumes := volumes + [Volume("sidecar-tls", FromSecret(sidecar.tlsSecretRef.value.name))];
      }
    }
    ChosenNext([cs[0], cs[1]], cs[2]);
    assert cs == [cs[0], cs[1]] + [cs[2]];
  }

  method GenerateOrchardVolumes(s: Spec, mintName: string) returns (volumes: seq<Volume>)
    ensures volumes == Chosen(OrchardVolumes(s, mintName))
  {
    NoOrchardVolumes(s, mintName);
    if !OrchardOn(s) {
      return [];
    }
    volumes := [Volume("orchard-data", FromClaim(mintName + "-orchard-data")), Volume("orchard-tmp", EmptyDir)];
    var base := OrchardBaseVolumes(s, mintName);
    ChosenTwo(base[0], base[1]);
    var lightning := GenerateLightningVolumes(s);
    var taproot := GenerateTaprootVolumes(s);
    ChosenConcat(base, OrchardLightningVolumes(s));
    ChosenConcat(base + OrchardLightningVolumes(s), OrchardTaprootVolumes(s));
    volumes := volumes + lightning + taproot;
  }

  lemma NoOrchardVolumes(s: Spec, mintName: string)
    ensures !OrchardOn(s) ==> Chosen(OrchardVolumes(s, mintName)) == []
  {
    var cs := OrchardVolumes(s, mintName);
    if !OrchardOn(s) && Chosen(cs) != [] {
      var k := ChosenFrom(cs, 0);
    }
  }

  method GenerateLightningVolumes(s: Spec) returns (volumes: seq<Volume>)
    requires OrchardOn(s)
    ensures volumes == Chosen(OrchardLightningVolumes(s))
  {
    volumes := [];
    if s.orchard.value.lightning.Some? {
      var l := s.orchard.value.lightning.value;
      if l.macaroonRef.Some? {
        volumes := volumes + [Volume("orchard-lightning-macaroon", FromSecret(l.macaroonRef.value.name))];
      }
      if l.certRef.Some? {
        volumes := volumes + [Volume("orchard-lightning-cert", FromSecret(l.certRef.value.name))];
      }
      if l.keyRef.Some? {
        volumes := volumes + [Volume("orchard-lightning-key", FromSecret(l.keyRef.value.name))];
      }
      if l.caRef.Some? {
        volumes := volumes + [Volume("orchard-lightning-ca", FromSecret(l.caRef.value.name))];
      }
    }
    var cs := OrchardLightningVolumes(s);
    ChosenFour(cs[0], cs[1], cs[2], cs[3]);
  }

  method GenerateTaprootVolumes(s: Spec) returns (volumes: seq<Volume>)
    requires OrchardOn(s)
    ensures volumes == Chosen(OrchardTaprootVolumes(s))
  {
    volumes := [];
    if s.orchard.value.taproot.Some? {
      var t := s.orchard.value.taproot.value;
      if t.macaroonRef.Some? {
        volumes := volumes + [Volume("orchard-taproot-macaroon", FromSecret(t.macaroonRef.value.name))];
      }
      if t.certRef.Some? {
        volumes := volumes + [Volume("orchard-taproot-cert", FromSecret(t.certRef.value.name))];
      }
    }
    var cs := OrchardTaprootVolumes(s);
    ChosenTwo(cs[0], cs[1]);
  }

  method GenerateVolumeMounts(s: Spec) returns (mounts: seq<Mount>)
    ensures mounts == Chosen(MintMounts(s))
  {
    mounts := [Mount("data", "/data", ""), Mount("config", "/data/config.toml", "config.toml")];
    var lnd := GenerateLNDMounts(s);
    mounts := mounts + lnd;
    var backend := FindActiveBackend(s.paymentBackend);
    if backend == BACKEND_GRPC && s.paymentBackend.grpc.Some? && s.paymentBackend.grpc.value.tlsSecretRef.Some? {
      mounts := mounts + [Mount("grpc-tls", GRPC_TLS_MOUNT, "")];
    }
    if ManagementTLSOn(s) {
      mounts := mounts + [Mount("management-rpc-tls", MANAGEMENT_TLS_MOUNT, "")];
    }
    MintMountRuns(s);
  }

  lemma MintMountRuns(s: Spec)
    ensures var cs := MintMounts(s);
            Chosen(cs) == [cs[0].item, cs[1].item] + Chosen(cs[2..4]) + Opt(cs[4].on, cs[4].item)
                + Opt(cs[5].on, cs[5].item)
  {
    var cs := MintMounts(s);
    ChosenTwo(cs[0], cs[1]);
    ChosenConcat([cs[0], cs[1]], cs[2..4]);
    var front := [cs[0], cs[1]] + cs[2..4];
    ChosenNext(front, cs[4]);
    ChosenNext(front + [cs[4]], cs[5]);
    assert cs == front + [cs[4]] + [cs[5]];
  }

  method GenerateLNDMounts(s: Spec) returns (mounts: seq<Mount>)
    ensures mounts == Chosen(MintMounts(s)[2..4])
  {
    mounts := [];
    var backend := FindActiveBackend(s.paymentBackend);
    if backend == BACKEND_LND && s.paymentBackend.lnd.Some? {
      var lnd := s.paymentBackend.lnd.value;
      if lnd.macaroonSecretRef.Some? {
        mounts := mounts + [Mount("lnd-macaroon", "/secrets/lnd/macaroon", lnd.macaroonSecretRef.value.key)];
      }
      if lnd.certSecretRef.Some? {
        mounts := mounts + [Mount("lnd-cert", "/secrets/lnd/cert", lnd.certSecretRef.value.key)];
      }
    }
    var cs := MintMounts(s);
    ChosenTwo(cs[2], cs[3]);
    assert cs[2..4] == [cs[2], cs[3]];
  }

  method GenerateSidecarMounts(s: Spec) returns (mounts: seq<Mount>)
    requires SidecarActive(s)
    ensures mounts == Chosen(SidecarMounts(s))
  {
    var sidecar := s.paymentBackend.grpc.value.sidecar.value;
    mounts := [];
    if sidecar.workingDir != "" {
      mounts := mounts + [Mount("data", sidecar.workingDir, "sidecar-processor")];
    }
    if sidecar.enableTLS && sidecar.tlsSecretRef.Some? {
      mounts := mounts + [Mount("sidecar-tls", "/secrets/sidecar-tls", "")];
    }
    ChosenTwo(SidecarMounts(s)[0], SidecarMounts(s)[1]);
  }

  method GenerateOrchardVolumeMounts(s: Spec) returns (mounts: seq<Mount>)
    requires OrchardOn(s)
    ensures mounts == Chosen(OrchardMounts(s))
  {
    mounts := [Mount("orchard-data", ORCHARD_DATA_DIR, ""), Mount("orchard-tmp", ORCHARD_TMP_DIR, ""),
               Mount("data", ORCHARD_MINT_DATA_DIR, "")];
    if OrchardMTLS(s) {
      mounts := mounts + [Mount("management-rpc-tls", MANAGEMENT_TLS_MOUNT, "")];
    }
    var base := OrchardBaseMounts(s);
    ChosenFour(base[0], base[1], base[2], base[3]);
    var lightning := GenerateLightningMounts(s);
    var taproot := GenerateTaprootMounts(s);
    ChosenConcat(base, OrchardLightningMounts(s));
    ChosenConcat(base + OrchardLightningMounts(s), OrchardTaprootMounts(s));
    mounts := mounts + lightning + taproot;
  }

  method GenerateLightningMounts(s: Spec) returns (mounts: seq<Mount>)
    requires OrchardOn(s)
    ensures mounts == Chosen(OrchardLightningMounts(s))
  {
    mounts := [];
    if s.orchard.value.lightning.Some? {
      var l := s.orchard.value.lightning.value;
      if l.macaroonRef.Some? {
        mounts := mounts + [Mount("orchard-lightning-macaroon", "/secrets/orchard/lightning/macaroon",
            l.macaroonRef.value.key)];
      }
      if l.certRef.Some? {
        mounts := mounts + [Mount("orchard-lightning-cert", "/secrets/orchard/lightning/cert", l.certRef.value.key)];
      }
      if l.keyRef.Some? {
        mounts := mounts + [Mount("orchard-lightning-key", "/secrets/orchard/lightning/key", l.keyRef.value.key)];
      }
      if l.caRef.Some? {
        mounts := mounts + [Mount("orchard-lightning-ca", "/secrets/orchard/lightning/ca", l.caRef.value.key)];
      }
    }
    var cs := OrchardLightningMounts(s);
    ChosenFour(cs[0], cs[1], cs[2], cs[3]);
  }

  method GenerateTaprootMounts(s: Spec) returns (mounts: seq<Mount>)
    requires OrchardOn(s)
    ensures mounts == Chosen(OrchardTaprootMounts(s))
  {
    mounts := [];
    if s.orchard.value.taproot.Some? {
      var t := s.orchard.value.taproot.value;
      if t.macaroonRef.Some? {
        mounts := mounts + [Mount("orchard-taproot-macaroon", "/secrets/orchard/taproot/macaroon",
            t.macaroonRef.value.key)];
      }
      if t.certRef.Some? {
        mounts := mounts + [Mount("orchard-taproot-cert", "/secrets/orchard/taproot/cert", t.certRef.value.key)];
      }
    }
    var cs := OrchardTaprootMounts(s);
    ChosenTwo(cs[0], cs[1]);
  }
}
