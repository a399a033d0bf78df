/** Services and Ingresses of internal/controller/generators/service.go, ingress.go and orchard.go, and
    the way from an Ingress to a container port. */
module Network {
  import opened Options
  import opened MintTypes
  import opened Choices
  import opened ConfigToml
  import opened Pod
  import opened PodClosure
  import opened Env

  datatype Target = ByName(name: string) | ByNumber(number: int)

  datatype ServicePort = ServicePort(name: string, port: int, target: Target)

  datatype ServiceObject = ServiceObject(name: string, kind: string, ports: seq<ServicePort>, loadBalancerIP: string)

  datatype IngressObject = IngressObject(
    name: string,
    className: string,
    host: string,
    annotations: map<string, string>,
    serviceName: string,
    servicePort: int,
    tlsSecret: Option<string>)

  // ---------------------------------------------------------------- the mint Service

  function LDKPort(s: Spec): int {
    if s.ldkNode.Some? then OrNum(s.ldkNode.value.port, 8090) else 8090
  }

  function WebserverPort(s: Spec): int {
    if s.ldkNode.Some? then OrNum(s.ldkNode.value.webserverPort, 8888) else 8888
  }

  function MetricsPort(s: Spec): int {
    if s.prometheus.Some? then PrometheusPort(s.prometheus.value) else DEFAULT_PROMETHEUS_PORT
  }

  function ServicePorts(s: Spec): seq<Choice<ServicePort>> {
    [Choice(true, ServicePort("api", ListenPort(s), ByName("api"))),
     Choice(LDKOn(s), ServicePort("ldk", LDKPort(s), ByName("ldk"))),
     Choice(LDKOn(s), ServicePort("ldk-webserver", WebserverPort(s), ByName("webserver"))),
     Choice(ManagementRPCOn(s), ServicePort("management", ManagementPort(s), ByNumber(ManagementPort(s)))),
     Choice(PrometheusOn(s), ServicePort("metrics", MetricsPort(s), ByName("metrics")))]
  }

  function ServiceKind(o: Option<Service>): string {
    if o.Some? then Or(o.value.kind, "ClusterIP") else "ClusterIP"
  }

  function ServiceIP(o: Option<Service>): string {
    if o.Some? && o.value.kind == "LoadBalancer" then o.value.loadBalancerIP else ""
  }

  method GenerateService(s: Spec, mintName: string) returns (service: ServiceObject)
    ensures service == ServiceObject(mintName, ServiceKind(s.service), Chosen(ServicePorts(s)), ServiceIP(s.service))
    ensures service.kind == if s.service.None? || s.service.value.kind == "" then "ClusterIP" else s.service.value.kind
    ensures service.loadBalancerIP
         == if s.service.Some? && s.service.value.kind == "LoadBalancer" then s.service.value.loadBalancerIP else ""
  {
    var kind := "ClusterIP";
    if s.service.Some? && s.service.value.kind != "" {
      kind := s.service.value.kind;
    }
    var ports := GenerateServicePorts(s);
    service := ServiceObject(mintName, kind, ports, "");
    if kind == "LoadBalancer" && s.service.Some? && s.service.value.loadBalancerIP != "" {
      service := service.(loadBalancerIP := s.service.value.loadBalancerIP);
    }
  }

  method GenerateServicePorts(s: Spec) returns (ports: seq<ServicePort>)
    ensures ports == Chosen(ServicePorts(s))
  {
    ports := [ServicePort("api", ListenPort(s), ByName("api"))];
    if s.ldkNode.Some? && s.ldkNode.value.enabled {
      var ldk := GenerateLDKServicePorts(s.ldkNode.value);
      ports := ports + ldk;
    }
    if s.managementRPC.Some? && s.managementRPC.value.enabled {
      var port := s.managementRPC.value.port;
      if port == 0 {
        port := 8086;
      }
      ports := ports + [ServicePort("management", port, ByNumber(port))];
    }
    if s.prometheus.Some? && s.prometheus.value.enabled {
      var metricsPort := DEFAULT_PROMETHEUS_PORT;
      if s.prometheus.value.port.Some? {
        metricsPort := s.prometheus.value.port.value;
      }
      ports := ports + [ServicePort("metrics", metricsPort, ByName("metrics"))];
    }
    ServicePortRuns(s);
  }

  method GenerateLDKServicePorts(l: LDKNode) returns (ports: seq<ServicePort>)
    ensures ports == [ServicePort("ldk", OrNum(l.port, 8090), ByName("ldk")),
                      ServicePort("ldk-webserver", OrNum(l.webserverPort, 8888), ByName("webserver"))]
  {
    var ldkPort := l.port;
    if ldkPort == 0 {
      ldkPort := 8090;
    }
    var webserverPort := l.webserverPort;
    if webserverPort == 0 {
      webserverPort := 8888;
    }
    ports := [ServicePort("ldk", ldkPort, ByName("ldk")),
        ServicePort("ldk-webserver", webserverPort, ByName("webserver"))];
  }

  lemma ServicePortRuns(s: Spec)
    ensures var cs := ServicePorts(s);
            Chosen(cs) == [cs[0].item] + Opt(LDKOn(s), cs[1].item) + Opt(LDKOn(s), cs[2].item)
                          + Opt(ManagementRPCOn(s), cs[3].item) + Opt(PrometheusOn(s), cs[4].item)
  {
    var cs := ServicePorts(s);
    ChosenFour(cs[0], cs[1], cs[2], cs[3]);
    ChosenNext([cs[0], cs[1], cs[2], cs[3]], cs[4]);
    assert cs == [cs[0], cs[1], cs[2], cs[3]] + [cs[4]];
  }

  // ---------------------------------------------------------------- Ingresses

  const NGINX_ANNOTATIONS: map<string, string> :=
    map["nginx.ingress.kubernetes.io/ssl-redirect" := "true",
        "nginx.ingress.kubernetes.io/backend-protocol" := "HTTP",
        "nginx.ingress.kubernetes.io/enable-cors" := "true",
        "nginx.ingress.kubernetes.io/cors-allow-origin" := "*"]

  predicate IngressOn(i: Option<Ingress>) {
    i.Some? && i.value.enabled
  }

  predicate TLSOn(i: Ingress) {
    i.tls.Some? && i.tls.value.enabled
  }

  predicate CertManagerOn(i: Ingress) {
    TLSOn(i) && i.tls.value.certManager.Some? && i.tls.value.certManager.value.enabled
  }

  function BaseAnnotations(i: Ingress): map<string, string> {
    if CertManagerOn(i) then
      NGINX_ANNOTATIONS["cert-manager.io/issuer" := i.tls.value.certManager.value.issuerName]
        ["cert-manager.io/issuer-kind" := Or(i.tls.value.certManager.value.issuerKind, DEFAULT_ISSUER_KIND)]
    else NGINX_ANNOTATIONS
  }

  /** The loop that lets the user's annotations override the operator's: whatever order the keys are
      visited in, the user's value wins for the user's keys and the rest stays. */
  method MergeAnnotations(base: map<string, string>, custom: map<string, string>)
      returns (annotations: map<string, string>)
    ensures annotations.Keys == base.Keys + custom.Keys
    ensures forall k | k in custom :: annotations[k] == custom[k]
    ensures forall k | k in base && k !in custom :: annotations[k] == base[k]
    ensures annotations == base + custom
  {
    annotations := base;
    var pending := custom.Keys;
    while pending != {}
      invariant pending <= custom.Keys
      invariant annotations.Keys == base.Keys + (custom.Keys - pending)
      invariant forall k | k in custom && k !in pending :: annotations[k] == custom[k]
      invariant forall k | k in base && (k !in custom || k in pending) :: annotations[k] == base[k]
      decreases pending
    {
      var k :| k in pending;
      annotations := annotations[k := custom[k]];
      pending := pending - {k};
    }
  }

  function IngressFor(i: Ingress, name: string, port: int): IngressObject {
    IngressObject(name, Or(i.className, DEFAULT_INGRESS_CLASS), i.host, BaseAnnotations(i) + i.annotations, name, port,
                  if TLSOn(i) then Some(Or(i.tls.value.secretName, name + "-tls")) else None)
  }

  /** What GenerateIngress and GenerateOrchardIngress have in common. */
  method BuildIngress(i: Ingress, name: string, port: int) returns (ingress: IngressObject)
    ensures ingress == IngressFor(i, name, port)
  {
    var className := i.className;
    if className == "" {
      className := DEFAULT_INGRESS_CLASS;
    }
    var annotations := NGINX_ANNOTATIONS;
    if CertManagerOn(i) {
      var issuerKind := i.tls.value.certManager.value.issuerKind;
      if issuerKind == "" {
        issuerKind := DEFAULT_ISSUER_KIND;
      }
      annotations := annotations["cert-manager.io/issuer" := i.tls.value.certManager.value.issuerName];
      annotations := annotations["cert-manager.io/issuer-kind" := issuerKind];
    }
    annotations := MergeAnnotations(annotations, i.annotations);
    ingress := IngressObject(name, className, i.host, annotations, name, port, None);
    if TLSOn(i) {
      var secretName := i.tls.value.secretName;
      if secretName == "" {
        secretName := name + "-tls";
      }
      ingress := ingress.(tlsSecret := Some(secretName));
    }
  }

  function MintIngress(s: Spec, mintName: string): Option<IngressObject> {
    if IngressOn(s.ingress) then Some(IngressFor(s.ingress.value, mintName, ListenPort(s))) else None
  }

  function OrchardIngress(s: Spec, mintName: string): Option<IngressObject> {
    if OrchardOn(s) && IngressOn(s.orchard.value.ingress)
    then Some(IngressFor(s.orchard.value.ingress.value, mintName + "-orchard", OrchardPort(s))) else None
  }

  method GenerateIngress(s: Spec, mintName: string) returns (ingress: Option<IngressObject>)
    ensures ingress == MintIngress(s, mintName)
    ensures ingress.Some? <==> s.ingress.Some? && s.ingress.value.enabled
    ensures ingress.Some? ==>
              ingress.value.serviceName == mintName
              && ingress.value.servicePort == if s.mintInfo.listenPort == 0 then 8085 else s.mintInfo.listenPort
  {
    if s.ingress.None? || !s.ingress.value.enabled {
      return None;
    }
    var listenPort := s.mintInfo.listenPort;
    if listenPort == 0 {
      listenPort := 8085;
    }
    var i := BuildIngress(s.ingress.value, mintName, listenPort);
    return Some(i);
  }

  method GenerateOrchardIngress(s: Spec, mintName: string) returns (ingress: Option<IngressObject>)
    ensures ingress == OrchardIngress(s, mintName)
    ensures ingress.Some? <==> s.orchard.Some? && s.orchard.value.enabled && s.orchard.value.ingress.Some?
                               && s.orchard.value.ingress.value.enabled
    ensures ingress.Some? ==>
              ingress.value.serviceName == mintName + "-orchard"
              && ingress.value.servicePort == if s.orchard.value.port == 0 then 3321 else s.orchard.value.port
  {
    if !OrchardOn(s) || s.orchard.value.ingress.None? || !s.orchard.value.ingress.value.enabled {
      return None;
    }
    var i := BuildIngress(s.orchard.value.ingress.value, mintName + "-orchard", OrchardPort(s));
    return Some(i);
  }

  function OrchardService(s: Spec, mintName: string): Option<ServiceObject> {
    if OrchardOn(s)
    then Some(ServiceObject(mintName + "-orchard", ServiceKind(s.orchard.value.service),
                            [ServicePort("orchard", OrchardPort(s), ByName("orchard"))],
                                ServiceIP(s.orchard.value.service)))
    else None
  }

  method GenerateOrchardService(s: Spec, mintName: string) returns (service: Option<ServiceObject>)
    ensures service == OrchardService(s, mintName)
    ensures service.Some? <==> s.orchard.Some? && s.orchard.value.enabled
    ensures service.Some? ==>
              var port := if s.orchard.value.port == 0 then 3321 else s.orchard.value.port;
              var given := s.orchard.value.service;
              && service.value.name == mintName + "-orchard"
              && service.value.ports == [ServicePort("orchard", port, ByName("orchard"))]
              && service.value.kind == (if given.None? || given.value.kind == "" then "ClusterIP" else given.value.kind)
              && service.value.loadBalancerIP
                 == if given.Some? && given.value.kind == "LoadBalancer" then given.value.loadBalancerIP else ""
  {
    if !OrchardOn(s) {
      return None;
    }
    var kind, ip := "ClusterIP", "";
    if s.orchard.value.service.Some? {
      if s.orchard.value.service.value.kind != "" {
        kind := s.orchard.value.service.value.kind;
      }
      ip := s.orchard.value.service.value.loadBalancerIP;
    }
    var built := ServiceObject(mintName + "-orchard", kind,
        [ServicePort("orchard", OrchardPort(s), ByName("orchard"))], "");
    if kind == "LoadBalancer" && ip != "" {
      built := built.(loadBalancerIP := ip);
    }
    return Some(built);
  }

  // ---------------------------------------------------------------- from the Ingress to the container

  /** All ports of the pod a Service selects. */
  function PodPorts(s: Spec): seq<Choice<Port>> {
    [Choice(SidecarActive(s), Port("grpc",
        if SidecarActive(s) then OrNum(s.paymentBackend.grpc.value.port, 50051) else 0)),
     Choice(LDKOn(s), Port("ldk", LDKPort(s))),
     Choice(LDKOn(s), Port("webserver", WebserverPort(s))),
     Choice(true, Port("api", ListenPort(s))),
     Choice(PrometheusOn(s), Port("metrics", MetricsPort(s))),
     Choice(OrchardOn(s), Port("orchard", OrchardPort(s)))]
  }

  /** The ports the containers declare, one container after the other. */
  function AllPorts(cs: seq<Container>): seq<Port> {
    if cs == [] then [] else AllPorts(cs[..|cs| - 1]) + cs[|cs| - 1].ports
  }

  lemma {:induction false} AllPortsConcat(a: seq<Container>, b: seq<Container>)
    ensures AllPorts(a + b) == AllPorts(a) + AllPorts(b)
  {
    if b == [] {
      assert a + b == a;
    } else {
      assert (a + b)[..|a + b| - 1] == a + b[..|b| - 1];
      AllPortsConcat(a, b[..|b| - 1]);
    }
  }

  lemma AllPortsFew(cs: seq<Container>)
    requires |cs| <= 1
    ensures AllPorts(cs) == if cs == [] then [] else cs[0].ports
  {
    if cs != [] {
      assert cs[..0] == [];
    }
  }

  lemma AllPortsOfFour(a: seq<Container>, b: seq<Container>, c: seq<Container>, d: seq<Container>)
    ensures AllPorts(a + b + c + d) == AllPorts(a) + AllPorts(b) + AllPorts(c) + AllPorts(d)
  {
    AllPortsConcat(a, b);
    AllPortsConcat(a + b, c);
    AllPortsConcat(a + b + c, d);
  }

  lemma ContainerPorts(s: Spec)
    ensures AllPorts(Containers(s))
         == (if SidecarActive(s) then SidecarPorts(s) else []) + (if LDKOn(s) then LDKPorts(s) else []) + MintPorts(s)
            + (if OrchardOn(s) then [Port("orchard", OrchardPort(s))] else [])
  {
    var a := if SidecarActive(s) then [Container("grpc-processor", SidecarPorts(s), Chosen(SidecarMounts(s)))] else [];
    var b := if LDKOn(s) then [Container("ldk-node", LDKPorts(s), [Mount("data", "/data", "")])] else [];
    var c := [Container("mintd", MintPorts(s), Chosen(MintMounts(s)))];
    var d := if OrchardOn(s) then [Container("orchard", [Port("orchard", OrchardPort(s))], Chosen(OrchardMounts(s)))]
        else [];
    AllPortsOfFour(a, b, c, d);
    AllPortsFew(a);
    AllPortsFew(b);
    AllPortsFew(c);
    AllPortsFew(d);
  }

  lemma CandidatePorts(s: Spec)
    ensures var p := PodPorts(s);
            Chosen(p) == Opt(p[0].on, p[0].item) + Opt(p[1].on, p[1].item) + Opt(p[2].on, p[2].item)
              + Opt(p[3].on, p[3].item) + (Opt(p[4].on, p[4].item) + Opt(p[5].on, p[5].item))
  {
    var p := PodPorts(s);
    ChosenFour(p[0], p[1], p[2], p[3]);
    ChosenTwo(p[4], p[5]);
    ChosenConcat([p[0], p[1], p[2], p[3]], [p[4], p[5]]);
    assert p == [p[0], p[1], p[2], p[3]] + [p[4], p[5]];
  }

  lemma GroupedPorts(s: Spec)
    ensures var p := PodPorts(s);
            && (if SidecarActive(s) then SidecarPorts(s) else []) == Opt(p[0].on, p[0].item)
            && (if LDKOn(s) then LDKPorts(s) else []) == Opt(p[1].on, p[1].item) + Opt(p[2].on, p[2].item)
            && MintPorts(s) == Opt(p[3].on, p[3].item) + Opt(p[4].on, p[4].item)
            && (if OrchardOn(s) then [Port("orchard", OrchardPort(s))] else []) == Opt(p[5].on, p[5].item)
  {}

  lemma Regrouped<T>(a: seq<T>, b: seq<T>, c: seq<T>, d: seq<T>, e: seq<T>, f: seq<T>)
    ensures a + (b + c) + (d + e) + f == a + b + c + d + (e + f)
  {}

  /** They are the candidates above that are on, in this order. */
  lemma DeclaredPorts(s: Spec)
    ensures AllPorts(Containers(s)) == Chosen(PodPorts(s))
  {
    var p := PodPorts(s);
    ContainerPorts(s);
    CandidatePorts(s);
    GroupedPorts(s);
    Regrouped(Opt(p[0].on, p[0].item), Opt(p[1].on, p[1].item), Opt(p[2].on, p[2].item),
              Opt(p[3].on, p[3].item), Opt(p[4].on, p[4].item), Opt(p[5].on, p[5].item));
  }

  /** Port number i of the pod, and no other one, has this name. */
  predicate OnlyNamed(ports: seq<Port>, i: nat, name: string) {
    i < |ports| && ports[i].name == name && forall j | 0 <= j < |ports| && ports[j].name == name :: j == i
  }

  /** A named target is exactly one container port, and that has this number. A number is taken as it is,
      whether or not a container declares it. */
  predicate Reaches(s: Spec, t: Target, number: int) {
    match t
    case ByNumber(n) => n == number
    case ByName(name) =>
      var ports := AllPorts(Containers(s));
      exists i | 0 <= i < |ports| :: OnlyNamed(ports, i, name) && ports[i].number == number
  }

  lemma PodPortNames(s: Spec)
    ensures forall i, j | 0 <= i < j < 6 :: PodPorts(s)[i].item.name != PodPorts(s)[j].item.name
  {}

  /** The candidate number k, if it is on, is the only port of its name. */
  lemma PodPortReached(s: Spec, k: nat)
    requires k < 6 && PodPorts(s)[k].on
    ensures Reaches(s, ByName(PodPorts(s)[k].item.name), PodPorts(s)[k].item.number)
  {
    var cs, p := PodPorts(s), PodPorts(s)[k].item;
    DeclaredPorts(s);
    var ports := AllPorts(Containers(s));
    var i := ChosenHas(cs, k);
    forall j | 0 <= j < |ports| && ports[j].name == p.name ensures j == i {
      if j < i {
        var x, y := ChosenOrder(cs, j, i);
        PodPortNames(s);
      } else if i < j {
        var x, y := ChosenOrder(cs, i, j);
        PodPortNames(s);
      }
    }
    assert OnlyNamed(ports, i, p.name) && ports[i].number == p.number;
  }

  /** Every port of the mint Service goes to its own number: a named one through exactly one container port,
      the management RPC, which no container declares under a name, by the number mintd is told. */
  lemma ServicePortsReach(s: Spec, k: nat)
    requires k < 5 && ServicePorts(s)[k].on
    ensures Reaches(s, ServicePorts(s)[k].item.target, ServicePorts(s)[k].item.port)
    ensures ServicePorts(s)[k].item.target.ByNumber? <==> k == 3
  {
    if k != 3 {
      PodPortReached(s, if k == 0 then 3 else k);
    }
  }

  /** Another feature of the pod was given the number the management RPC listens on. */
  predicate ManagementPortTaken(s: Spec) {
    var number := ManagementPort(s);
    || ListenPort(s) == number || (PrometheusOn(s) && MetricsPort(s) == number)
    || (LDKOn(s) && (LDKPort(s) == number || WebserverPort(s) == number))
    || (OrchardOn(s) && OrchardPort(s) == number)
    || (SidecarActive(s) && OrNum(s.paymentBackend.grpc.value.port, 50051) == number)
  }

  /** Which candidate that is. */
  function TakenBy(s: Spec): (k: nat)
    requires ManagementPortTaken(s)
    ensures k < 6 && PodPorts(s)[k].on && PodPorts(s)[k].item.number == ManagementPort(s)
  {
    var number := ManagementPort(s);
    if ListenPort(s) == number then 3
    else if PrometheusOn(s) && MetricsPort(s) == number then 4
    else if LDKOn(s) && LDKPort(s) == number then 1
    else if LDKOn(s) && WebserverPort(s) == number then 2
    else if OrchardOn(s) && OrchardPort(s) == number then 5 else 0
  }

  predicate Declares(s: Spec, number: int) {
    exists i :: 0 <= i < |AllPorts(Containers(s))| && AllPorts(Containers(s))[i].number == number
  }

  /** A container declares the number of the management RPC exactly if another feature was given it. */
  lemma ManagementPortUndeclared(s: Spec)
    requires ManagementRPCOn(s)
    ensures Declares(s, ManagementPort(s)) <==> ManagementPortTaken(s)
  {
    var cs := PodPorts(s);
    DeclaredPorts(s);
    var ports := AllPorts(Containers(s));
    if i :| 0 <= i < |ports| && ports[i].number == ManagementPort(s) {
      var k := ChosenFrom(cs, i);
      assert cs[k].on && cs[k].item.number == ManagementPort(s);
    }
    if ManagementPortTaken(s) {
      var i := ChosenHas(cs, TakenBy(s));
      assert ports[i].number == ManagementPort(s);
    }
  }

  lemma OrchardPortReaches(s: Spec)
    requires OrchardOn(s)
    ensures Reaches(s, ByName("orchard"), OrchardPort(s))
  {
    PodPortReached(s, 5);
  }

  /** Another port of the mint Service has the number of the API port. */
  predicate APIPortTaken(s: Spec) {
    || (LDKOn(s) && (LDKPort(s) == ListenPort(s) || WebserverPort(s) == ListenPort(s)))
    || (ManagementRPCOn(s) && ManagementPort(s) == ListenPort(s))
    || (PrometheusOn(s) && MetricsPort(s) == ListenPort(s))
  }

  predicate OnlyPort(ports: seq<ServicePort>, number: int, p: ServicePort) {
    && p in ports && p.port == number
    && forall i | 0 <= i < |ports| && ports[i].port == number :: ports[i] == p
  }

  /** The Ingress backend port is a port of the mint Service, the only one with that number exactly when
      no other feature is given the API's port, and it leads to the API port of mintd. */
  lemma IngressReachesMint(s: Spec, mintName: string)
    requires IngressOn(s.ingress)
    ensures MintIngress(s, mintName).Some?
    ensures var ingress, api := MintIngress(s, mintName).value, ServicePort("api", ListenPort(s), ByName("api"));
            && ingress.serviceName == mintName && ingress.servicePort == api.port && api in Chosen(ServicePorts(s))
            && Reaches(s, api.target, api.port)
            && (OnlyPort(Chosen(ServicePorts(s)), ingress.servicePort, api) <==> !APIPortTaken(s))
  {
    ServicePortsReach(s, 0);
    APIPortAlone(s);
  }

  lemma APIPortAlone(s: Spec)
    ensures var api := ServicePort("api", ListenPort(s), ByName("api"));
            api in Chosen(ServicePorts(s)) && (OnlyPort(Chosen(ServicePorts(s)), ListenPort(s), api) <==>
                !APIPortTaken(s))
  {
    var cs, api := ServicePorts(s), ServicePort("api", ListenPort(s), ByName("api"));
    var ports := Chosen(cs);
    var i := ChosenHas(cs, 0);
    if APIPortTaken(s) {
      var k := if LDKOn(s) && LDKPort(s) == ListenPort(s) then 1
               else if LDKOn(s) && WebserverPort(s) == ListenPort(s) then 2
               else if ManagementRPCOn(s) && ManagementPort(s) == ListenPort(s) then 3 else 4;
      var j := ChosenHas(cs, k);
      assert ports[j].port == ListenPort(s) && ports[j] != api;
    } else {
      forall j | 0 <= j < |ports| && ports[j].port == ListenPort(s) ensures ports[j] == api {
        var k := ChosenFrom(cs, j);
      }
    }
  }

  lemma OrchardIngressReaches(s: Spec, mintName: string)
    requires OrchardOn(s) && IngressOn(s.orchard.value.ingress)
    ensures OrchardIngress(s, mintName).Some? && OrchardService(s, mintName).Some?
    ensures var ingress, service := OrchardIngress(s, mintName).value, OrchardService(s, mintName).value;
            && ingress.serviceName == service.name && |service.ports| == 1
            && service.ports[0].port == ingress.servicePort
            && Reaches(s, service.ports[0].target, ingress.servicePort)
  {
    OrchardPortReaches(s);
  }
}
