/** The seven children word for word: under which names they exist, and what is sent for each,
    in the spec's own fields and in literal values. */
module SentObjects {
  import opened Meta
  import opened V1Alpha1
  import opened Text
  import opened Generators
  import opened GeneratorLaws
  import Labels
  import opened Children
  import opened Passes
  import opened Convergence
  import opened Fixpoint
  import opened Writes
  import opened Operators

  /* ---------- what is sent ---------- */

  /** m sends what child c is made of. */
  ghost predicate Renders(m: Obj, c: Child) {
    forall p: Path :: !p.OwnerRef? ==> FieldAt(m, p) == ValueAt(c, p)
  }

  lemma ManifestRenders(i: Step, app: App, uid: nat)
    ensures Renders(Manifest(i, app, uid), Desired(i, app))
  {
    forall p: Path | !p.OwnerRef? ensures FieldAt(Manifest(i, app, uid), p) == ValueAt(Desired(i, app), p) {
      PathSent(i, app, uid, p);
    }
  }

  predicate Has(m: Obj, slot: Slot, v: Value) {
    FieldAt(m, At(slot)) == Some(v)
  }

  /** A text that is sent where it is set. */
  predicate HasText(m: Obj, slot: Slot, text: string) {
    FieldAt(m, At(slot)) == if text == "" then None else Some(VStr(text))
  }

  /** A rollout bound is sent where it is set, and only with rolling updates. */
  predicate HasBound(m: Obj, slot: Slot, r: RolloutSpec, text: string) {
    FieldAt(m, At(slot)) == if r.strategy == "Recreate" || text == "" then None else Some(VBound(Bound(text)))
  }

  ghost predicate Labelled(m: Obj, table: map<string, string>) {
    forall k :: FieldAt(m, Label(k)) == if k in table then Some(VStr(table[k])) else None
  }

  ghost predicate PodsLabelled(m: Obj, table: map<string, string>) {
    forall k :: FieldAt(m, PodLabel(k)) == if k in table then Some(VStr(table[k])) else None
  }

  ghost predicate Selects(m: Obj, table: map<string, string>) {
    forall k :: FieldAt(m, Select(k)) == if k in table then Some(VStr(table[k])) else None
  }

  ghost predicate CommonlyLabelled(m: Obj, name: string) {
    Labelled(m, map["app.kubernetes.io/name" := name, "app.kubernetes.io/managed-by" := "platform-operator",
                    "app.kubernetes.io/part-of" := "platform"])
  }

  ghost predicate SelectsPods(m: Obj, name: string) {
    Selects(m, map["app.kubernetes.io/name" := name, "app.kubernetes.io/instance" := name])
  }

  function PodTable(name: string, tag: string): map<string, string> {
    map["app.kubernetes.io/name" := name, "app.kubernetes.io/managed-by" := "platform-operator",
        "app.kubernetes.io/part-of" := "platform", "app.kubernetes.io/instance" := name,
        "app.kubernetes.io/version" := tag]
  }

  predicate RolloutIs(m: Obj, s: Spec) {
    && Has(m, ReplicaCount, VInt(if s.replicas.min < 1 then 1 else s.replicas.min))
    && Has(m, StrategyType, VStr(if s.rollout.strategy == "Recreate" then "Recreate" else "RollingUpdate"))
    && HasBound(m, MaxUnavailable, s.rollout, s.rollout.maxUnavailable)
    && HasBound(m, MaxSurge, s.rollout, s.rollout.maxSurge)
  }

  predicate ContainerIs(m: Obj, name: string, s: Spec) {
    && Has(m, ContainerName, VStr(name))
    && Has(m, Image, VStr(s.image.repository + ":" + s.image.tag))
    && HasText(m, PullPolicy, s.image.pullPolicy)
    && Has(m, ContainerPorts, VContainerPorts([ContainerPort("http", s.service.port, "TCP")]))
    && HasText(m, RequestsCpu, s.resources.requests.cpu) && HasText(m, RequestsMemory, s.resources.requests.memory)
    && HasText(m, LimitsCpu, s.resources.limits.cpu) && HasText(m, LimitsMemory, s.resources.limits.memory)
  }

  predicate ProbesAre(m: Obj, s: Spec) {
    var h := s.healthChecks;
    var port := if h.port == 0 then s.service.port else h.port;
    && Has(m, Liveness, VProbe(Probe(if h.livenessPath == "" then "/healthz" else h.livenessPath, port,
                                     Timing(15, 20, 5, 3))))
    && Has(m, Readiness, VProbe(Probe(if h.readinessPath == "" then "/readyz" else h.readinessPath, port,
                                      Timing(5, 10, 3, 3))))
  }

  predicate HardenedIs(m: Obj) {
    && Has(m, Security, VSecurity(SecurityContext(true, true, false, ["ALL"])))
    && Has(m, PodSecurity, VPodSecurity(PodSecurityContext(true, "RuntimeDefault")))
    && Has(m, Mounts, VMounts([VolumeMount("tmp", "/tmp")])) && Has(m, EmptyDirs, VStrs(["tmp"]))
  }

  lemma LabelsRendered(m: Obj, c: Child)
    requires Renders(m, c)
    ensures Labelled(m, LabelsOf(c)) && PodsLabelled(m, Children.PodLabelsOf(c)) && Selects(m, SelectorOf(c))
  {
  }

  lemma CommonTables(name: string)
    ensures Labels.CommonLabels(name) ==
            map["app.kubernetes.io/name" := name, "app.kubernetes.io/managed-by" := "platform-operator",
                "app.kubernetes.io/part-of" := "platform"]
    ensures Labels.SelectorLabels(name) ==
            map["app.kubernetes.io/name" := name, "app.kubernetes.io/instance" := name]
  {
  }

  lemma PodTables(app: App)
    ensures PodLabels(app) == PodTable(app.name, app.spec.image.tag)
  {
    var a, b := Labels.CommonLabels(app.name),
                map["app.kubernetes.io/instance" := app.name, "app.kubernetes.io/version" := app.spec.image.tag];
    CommonTables(app.name);
    assert [a, b][..1][..0] == [] && [a, b][..1] == [a];
    assert Labels.Merged([a]) == map[] + a;
    assert Labels.Merged([a, b]) == a + b;
  }

  lemma RolloutRendered(m: Obj, d: Deployment, app: App)
    requires Renders(m, ADeployment(d))
    requires d.replicas == Replicas(app) && d.strategy == RolloutStrategy(app.spec.rollout)
    ensures RolloutIs(m, app.spec)
  {
  }

  lemma QuantitiesRendered(m: Obj, d: Deployment, r: ResourcesSpec)
    requires Renders(m, ADeployment(d))
    requires d.container.requests == Quantities(r.requests) && d.container.limits == Quantities(r.limits)
    ensures HasText(m, RequestsCpu, r.requests.cpu) && HasText(m, RequestsMemory, r.requests.memory)
    ensures HasText(m, LimitsCpu, r.limits.cpu) && HasText(m, LimitsMemory, r.limits.memory)
  {
  }

  lemma ContainerRendered(m: Obj, d: Deployment, app: App)
    requires Renders(m, ADeployment(d)) && d.container == DesiredContainer(app)
    ensures ContainerIs(m, app.name, app.spec)
  {
    QuantitiesRendered(m, d, app.spec.resources);
  }

  lemma ProbesRendered(m: Obj, d: Deployment, app: App)
    requires Renders(m, ADeployment(d)) && d.container == DesiredContainer(app)
    ensures ProbesAre(m, app.spec)
  {
  }

  lemma HardeningRendered(m: Obj, d: Deployment, app: App)
    requires Renders(m, ADeployment(d)) && d == DesiredDeployment(app)
    ensures HardenedIs(m)
  {
  }

  /** The Deployment that is sent. */
  ghost predicate DeploymentIs(m: Obj, name: string, s: Spec) {
    && RolloutIs(m, s) && ContainerIs(m, name, s) && ProbesAre(m, s) && HardenedIs(m)
    && Labelled(m, PodTable(name, s.image.tag)) && PodsLabelled(m, PodTable(name, s.image.tag))
    && SelectsPods(m, name)
  }

  lemma DeploymentRendered(m: Obj, app: App)
    requires Renders(m, ADeployment(DesiredDeployment(app)))
    ensures DeploymentIs(m, app.name, app.spec)
  {
    var d := DesiredDeployment(app);
    RolloutRendered(m, d, app);
    ContainerRendered(m, d, app);
    ProbesRendered(m, d, app);
    HardeningRendered(m, d, app);
    LabelsRendered(m, ADeployment(d));
    PodTables(app);
    CommonTables(app.name);
  }

  /** The Service that is sent. */
  ghost predicate ServiceIs(m: Obj, name: string, s: Spec) {
    && Has(m, ServiceType, VStr(if s.service.serviceType == "" then "ClusterIP" else s.service.serviceType))
    && Has(m, ServicePorts, VServicePorts([ServicePort("http", s.service.port, StrVal("http"), "TCP")]))
    && CommonlyLabelled(m, name) && SelectsPods(m, name)
  }

  lemma ServiceRendered(m: Obj, app: App)
    requires Renders(m, AService(DesiredService(app)))
    ensures ServiceIs(m, app.name, app.spec)
  {
    LabelsRendered(m, AService(DesiredService(app)));
    CommonTables(app.name);
  }

  /** The autoscaler that is sent. */
  ghost predicate ScalerIs(m: Obj, name: string, s: Spec) {
    var cpu := s.autoscaling.targetCPUUtilization;
    && Has(m, ScaleTarget, VTarget(ObjectRef("Deployment", name)))
    && Has(m, MinReplicas, VInt(s.replicas.min))
    && Has(m, MaxReplicas, VInt(if s.replicas.max < s.replicas.min then s.replicas.min else s.replicas.max))
    && Has(m, TargetCpu, VInt(if cpu == 0 then 80 else cpu))
    && CommonlyLabelled(m, name)
  }

  lemma ScalerRendered(m: Obj, app: App)
    requires Renders(m, AnHPA(DesiredHPA(app)))
    ensures ScalerIs(m, app.name, app.spec)
  {
    LabelsRendered(m, AnHPA(DesiredHPA(app)));
    CommonTables(app.name);
  }

  /** The route names a gateway, or none. */
  ghost predicate ParentsAre(m: Obj, ref: string) {
    && (FieldAt(m, At(ParentRefs)) == None <==> '/' !in ref)
    && forall ns, name :: Has(m, ParentRefs, VParents([ParentRef(ns, name)])) <==> '/' !in ns && ref == ns + "/" + name
  }

  /** The route that is sent. */
  ghost predicate RouteIs(m: Obj, name: string, s: Spec) {
    && FieldAt(m, At(Hostnames)) == (if s.gateway.host == "" then None else Some(VStrs([s.gateway.host])))
    && Has(m, PathPrefix, VStr(if s.gateway.pathPrefix == "" then "/" else s.gateway.pathPrefix))
    && Has(m, Backend, VBackend(BackendRef("Service", name, s.service.port)))
    && ParentsAre(m, s.gateway.gatewayRef) && CommonlyLabelled(m, name)
  }

  lemma ParentsRendered(m: Obj, app: App)
    requires Renders(m, AnHTTPRoute(DesiredHTTPRoute(app)))
    ensures ParentsAre(m, app.spec.gateway.gatewayRef)
  {
    var parents := DesiredHTTPRoute(app).parentRefs;
    assert FieldAt(m, At(ParentRefs)) == if parents == [] then None else Some(VParents(parents));
    GatewayReference(app, "", "");
    forall ns, name
      ensures Has(m, ParentRefs, VParents([ParentRef(ns, name)])) <==>
              '/' !in ns && app.spec.gateway.gatewayRef == ns + "/" + name
    {
      GatewayReference(app, ns, name);
    }
  }

  lemma RouteRendered(m: Obj, app: App)
    requires Renders(m, AnHTTPRoute(DesiredHTTPRoute(app)))
    ensures RouteIs(m, app.name, app.spec)
  {
    ParentsRendered(m, app);
    LabelsRendered(m, AnHTTPRoute(DesiredHTTPRoute(app)));
    CommonTables(app.name);
  }

  /** The network policy that is sent. */
  ghost predicate PolicyIs(m: Obj, name: string, s: Spec) {
    && Has(m, IngressProtocol, VStr("TCP")) && Has(m, IngressPort, VInt(s.service.port))
    && Has(m, PolicyTypes, VStrs(["Ingress", "Egress"]))
    && CommonlyLabelled(m, name) && SelectsPods(m, name)
  }

  lemma PolicyRendered(m: Obj, app: App)
    requires Renders(m, ANetworkPolicy(DesiredNetworkPolicy(app)))
    ensures PolicyIs(m, app.name, app.spec)
  {
    LabelsRendered(m, ANetworkPolicy(DesiredNetworkPolicy(app)));
    CommonTables(app.name);
  }

  /** The disruption budget that is sent. */
  ghost predicate BudgetIs(m: Obj, name: string, s: Spec) {
    && Has(m, MaxUnavailable, VBound(if s.replicas.min > 4 then StrVal("25%") else IntVal(1)))
    && CommonlyLabelled(m, name) && SelectsPods(m, name)
  }

  lemma BudgetRendered(m: Obj, app: App)
    requires Renders(m, APDB(DesiredPDB(app)))
    ensures BudgetIs(m, app.name, app.spec)
  {
    LabelsRendered(m, APDB(DesiredPDB(app)));
    CommonTables(app.name);
  }

  /** The ServiceMonitor that is sent. */
  ghost predicate MonitorIs(m: Obj, name: string, s: Spec) {
    && Has(m, EndpointPort, VStr("http")) && Has(m, EndpointPath, VStr("/metrics"))
    && Has(m, EndpointInterval, VStr("30s"))
    && CommonlyLabelled(m, name) && SelectsPods(m, name)
  }

  lemma MonitorRendered(m: Obj, app: App)
    requires Renders(m, AServiceMonitor(DesiredServiceMonitor(app)))
    ensures MonitorIs(m, app.name, app.spec)
  {
    LabelsRendered(m, AServiceMonitor(DesiredServiceMonitor(app)));
    CommonTables(app.name);
  }

  /** What the sub-reconciler of this kind sends, word for word. */
  ghost predicate SentIs(kind: Kind, m: Obj, name: string, s: Spec) {
    match kind
    case DeploymentKind => DeploymentIs(m, name, s)
    case ServiceKind => ServiceIs(m, name, s)
    case HPAKind => ScalerIs(m, name, s)
    case HTTPRouteKind => RouteIs(m, name, s)
    case NetworkPolicyKind => PolicyIs(m, name, s)
    case PDBKind => BudgetIs(m, name, s)
    case ServiceMonitorKind => MonitorIs(m, name, s)
  }

  /** Every apply of the operator sends exactly that. */
  lemma ManifestIs(i: Step, k: AppKey, s: Spec, uid: nat)
    ensures SentIs(KindAt(i), Manifest(i, AppOf(k, s), uid), k.name, s)
  {
    var app := AppOf(k, s);
    ManifestRenders(i, app, uid);
    var m := Manifest(i, app, uid);
    match KindAt(i)
    case DeploymentKind => DeploymentRendered(m, app);
    case ServiceKind => ServiceRendered(m, app);
    case HPAKind => ScalerRendered(m, app);
    case HTTPRouteKind => RouteRendered(m, app);
    case NetworkPolicyKind => PolicyRendered(m, app);
    case PDBKind => BudgetRendered(m, app);
    case ServiceMonitorKind => MonitorRendered(m, app);
  }

  /* ---------- which children exist ---------- */

  /** Exactly the children that the spec's switches ask for exist, each under its own name. */
  predicate ExactlyThese(c: Cluster, ns: string, name: string, s: Spec) {
    && Key(DeploymentKind, ns, name) in c.children
    && Key(ServiceKind, ns, name) in c.children
    && (Key(HPAKind, ns, name) in c.children <==> s.autoscaling.enabled)
    && (Key(HTTPRouteKind, ns, name) in c.children <==> s.gateway.enabled)
    && (Key(NetworkPolicyKind, ns, name + "-netpol") in c.children <==> s.security.networkPolicy)
    && (Key(PDBKind, ns, name + "-pdb") in c.children <==> s.replicas.min > 1)
    && (Key(ServiceMonitorKind, ns, name + "-monitor") in c.children <==> s.observability.metrics)
  }

  /** The seven names in the order in which the children are worked on. */
  function Names(ns: string, name: string): seq<Key> {
    [Key(DeploymentKind, ns, name), Key(ServiceKind, ns, name), Key(HPAKind, ns, name), Key(HTTPRouteKind, ns, name),
     Key(NetworkPolicyKind, ns, name + "-netpol"), Key(PDBKind, ns, name + "-pdb"),
     Key(ServiceMonitorKind, ns, name + "-monitor")]
  }

  lemma NamesAreKeys(k: AppKey, i: Step)
    ensures Names(k.namespace, k.name)[i] == KeyOf(i, k)
  {
    assert k.name + "" == k.name;
  }

  lemma SpecifiedIsExactly(c: Cluster, k: AppKey, s: Spec, uid: nat)
    requires forall i: Step :: AsSpecified(c, k, s, uid, i)
    ensures ExactlyThese(c, k.namespace, k.name, s)
  {
    var ks := Names(k.namespace, k.name);
    forall i: Step ensures ks[i] in c.children <==> Wanted(i, s) {
      NamesAreKeys(k, i);
      assert AsSpecified(c, k, s, uid, i);
    }
    assert (ks[0] in c.children <==> Wanted(0, s)) && (ks[1] in c.children <==> Wanted(1, s));
    assert (ks[2] in c.children <==> Wanted(2, s)) && (ks[3] in c.children <==> Wanted(3, s));
    assert (ks[4] in c.children <==> Wanted(4, s)) && (ks[5] in c.children <==> Wanted(5, s));
    assert ks[6] in c.children <==> Wanted(6, s);
  }

  /* ---------- what a pass leaves behind ---------- */

  /** Where there is an object under the key, it has every field that is sent for it. */
  ghost predicate Built(c: Cluster, key: Key, name: string, s: Spec) {
    key in c.children ==> exists m :: Covers(c.children[key], m) && SentIs(key.kind, m, name, s)
  }

  /** All children as the spec has them. */
  ghost predicate AllBuilt(c: Cluster, ns: string, name: string, s: Spec) {
    ExactlyThese(c, ns, name, s) && forall key :: key in Names(ns, name) ==> Built(c, key, name, s)
  }

  lemma SpecifiedIsBuilt(c: Cluster, k: AppKey, s: Spec, uid: nat, i: Step)
    requires AsSpecified(c, k, s, uid, i)
    ensures Built(c, KeyOf(i, k), k.name, s)
  {
    ManifestIs(i, k, s, uid);
  }

  lemma SpecifiedIsAllBuilt(c: Cluster, k: AppKey, s: Spec, uid: nat)
    requires forall i: Step :: AsSpecified(c, k, s, uid, i)
    ensures AllBuilt(c, k.namespace, k.name, s)
  {
    SpecifiedIsExactly(c, k, s, uid);
    forall key | key in Names(k.namespace, k.name) ensures Built(c, key, k.name, s) {
      var i: Step :| Names(k.namespace, k.name)[i] == key;
      NamesAreKeys(k, i);
      SpecifiedIsBuilt(c, k, s, uid, i);
    }
  }

  /** One fault-free pass over an adopted application, from any cluster: child by child, each
      exists exactly when its own switch says so, and has what is to be sent for it. */
  lemma {:induction false} CleanPassBuilds(ticks: Ticks, w: World, k: AppKey, s: Spec, uid: nat)
    requires forall m :: SoloFate(ticks(m).fate)
    requires Live(OperatorGoal(k, s, uid), w.cluster) && Held(OperatorGoal(k, s, uid), w.cluster)
    requires Faults(ticks, w.calls, Finish(ticks, w, Begin(k, MAX_APPLY_RETRIES, OperatorPlan())).0.calls) == 0
    ensures AllBuilt(Finish(ticks, w, Begin(k, MAX_APPLY_RETRIES, OperatorPlan())).0.cluster, k.namespace, k.name, s)
  {
    OneCleanPass(ticks, w, k, s, uid);
    SpecifiedIsAllBuilt(Finish(ticks, w, Begin(k, MAX_APPLY_RETRIES, OperatorPlan())).0.cluster, k, s, uid);
  }

  /** Write number i is one of the object with name number i. */
  predicate NamedWrite(ws: seq<Request>, ks: seq<Key>, i: Step) {
    |ws| == |ks| == 7 && Target(ws[i]) == Some(ks[i])
  }

  lemma OneInOrder(ws: seq<Request>, c: Cluster, k: AppKey, s: Spec, uid: nat, i: Step)
    requires |ws| == 7 && ws[i] == OperatorCall(i, k, s, uid, Stored(c, KeyOf(i, k)).Some?)
    ensures NamedWrite(ws, Names(k.namespace, k.name), i)
  {
    NamesAreKeys(k, i);
  }

  /** The seven writes of a fault-free pass are of the seven objects by name, in their order. */
  lemma {:induction false} SevenInOrder(ticks: Ticks, w: World, k: AppKey, s: Spec, uid: nat, limit: nat, i: Step)
    requires Solo(ticks, OperatorPlan()) && Prompt(ticks)
    requires var g := Goal(k, OperatorPlan(), s, uid); Live(g, w.cluster) && Held(g, w.cluster)
    requires Faults(ticks, w.calls, Finish(ticks, w, Begin(k, limit, OperatorPlan())).0.calls) == 0
    requires Versioned(w.cluster)
    ensures NamedWrite(ChildWrites(ticks, w, Begin(k, limit, OperatorPlan())), Names(k.namespace, k.name), i)
  {
    EveryCleanPassWritesSeven(ticks, w, k, s, uid, limit, i);
    OneInOrder(ChildWrites(ticks, w, Begin(k, limit, OperatorPlan())), w.cluster, k, s, uid, i);
  }

  /* ---------- the traffic path through what is stored ---------- */

  /** From the service ports and a backend's port to a container port. */
  predicate Reaches(ps: seq<ServicePort>, port: int32, cs: seq<ContainerPort>, target: ContainerPort) {
    var sp := ResolvePortIn(ps, port);
    sp.Some? && ResolveTarget(cs, sp.value.targetPort) == Some(target) && target.protocol == sp.value.protocol
  }

  /** The stored route leads over the Service stored under its backend's name to a port of the
      Deployment's container, which the stored network policy admits. */
  ghost predicate TrafficFlows(c: Cluster, ns: string, name: string) {
    var route, dep := Key(HTTPRouteKind, ns, name), Key(DeploymentKind, ns, name);
    var policy := Key(NetworkPolicyKind, ns, name + "-netpol");
    route in c.children ==>
      && dep in c.children
      && exists b: BackendRef, ps, cs, target: ContainerPort ::
           && Has(c.children[route], Backend, VBackend(b)) && b.kind == "Service"
           && Key(ServiceKind, ns, b.name) in c.children
           && Has(c.children[Key(ServiceKind, ns, b.name)], ServicePorts, VServicePorts(ps))
           && Has(c.children[dep], ContainerPorts, VContainerPorts(cs))
           && Reaches(ps, b.port, cs, target)
           && (policy in c.children ==>
                 && Has(c.children[policy], IngressPort, VInt(target.port))
                 && Has(c.children[policy], IngressProtocol, VStr(target.protocol)))
  }

  /** The stored autoscaler scales a stored Deployment. */
  ghost predicate ScalerScales(c: Cluster, ns: string, name: string) {
    Key(HPAKind, ns, name) in c.children ==>
      exists t: ObjectRef ::
        && Has(c.children[Key(HPAKind, ns, name)], ScaleTarget, VTarget(t)) && t.kind == "Deployment"
        && Key(DeploymentKind, ns, t.name) in c.children
  }

  lemma CoveredHas(o: Obj, m: Obj, slot: Slot, v: Value)
    requires Covers(o, m) && Has(m, slot, v)
    ensures Has(o, slot, v)
  {
  }

  lemma BuiltBy(c: Cluster, key: Key, ns: string, name: string, s: Spec) returns (m: Obj)
    requires AllBuilt(c, ns, name, s) && key in Names(ns, name) && key in c.children
    ensures Covers(c.children[key], m) && SentIs(key.kind, m, name, s)
  {
    assert Built(c, key, name, s);
    m :| Covers(c.children[key], m) && SentIs(key.kind, m, name, s);
  }

  lemma BuiltService(c: Cluster, ns: string, name: string, s: Spec)
    requires AllBuilt(c, ns, name, s)
    ensures Has(c.children[Key(ServiceKind, ns, name)], ServicePorts,
                VServicePorts([ServicePort("http", s.service.port, StrVal("http"), "TCP")]))
  {
    var key := Key(ServiceKind, ns, name);
    assert Names(ns, name)[1] == key;
    var m := BuiltBy(c, key, ns, name, s);
    CoveredHas(c.children[key], m, ServicePorts,
               VServicePorts([ServicePort("http", s.service.port, StrVal("http"), "TCP")]));
  }

  lemma BuiltContainer(c: Cluster, ns: string, name: string, s: Spec)
    requires AllBuilt(c, ns, name, s)
    ensures Has(c.children[Key(DeploymentKind, ns, name)], ContainerPorts,
                VContainerPorts([ContainerPort("http", s.service.port, "TCP")]))
  {
    var key := Key(DeploymentKind, ns, name);
    assert Names(ns, name)[0] == key;
    var m := BuiltBy(c, key, ns, name, s);
    CoveredHas(c.children[key], m, ContainerPorts, VContainerPorts([ContainerPort("http", s.service.port, "TCP")]));
  }

  lemma BuiltPolicy(c: Cluster, key: Key, ns: string, name: string, s: Spec)
    requires AllBuilt(c, ns, name, s) && key == Names(ns, name)[4] && key in c.children
    ensures Has(c.children[key], IngressPort, VInt(s.service.port))
    ensures Has(c.children[key], IngressProtocol, VStr("TCP"))
  {
    var m := BuiltBy(c, key, ns, name, s);
    CoveredHas(c.children[key], m, IngressPort, VInt(s.service.port));
    CoveredHas(c.children[key], m, IngressProtocol, VStr("TCP"));
  }

  lemma BuiltRoute(c: Cluster, key: Key, ns: string, name: string, s: Spec)
    requires AllBuilt(c, ns, name, s) && key == Names(ns, name)[3] && key in c.children
    ensures Has(c.children[key], Backend, VBackend(BackendRef("Service", name, s.service.port)))
  {
    var m := BuiltBy(c, key, ns, name, s);
    CoveredHas(c.children[key], m, Backend, VBackend(BackendRef("Service", name, s.service.port)));
  }

  lemma BuiltScaler(c: Cluster, ns: string, name: string, s: Spec)
    requires AllBuilt(c, ns, name, s)
    ensures ScalerScales(c, ns, name)
  {
    var key := Key(HPAKind, ns, name);
    if key in c.children {
      assert Names(ns, name)[2] == key;
      var m := BuiltBy(c, key, ns, name, s);
      CoveredHas(c.children[key], m, ScaleTarget, VTarget(ObjectRef("Deployment", name)));
    }
  }

  lemma HttpReaches(port: int32)
    ensures Reaches([ServicePort("http", port, StrVal("http"), "TCP")], port, [ContainerPort("http", port, "TCP")],
                    ContainerPort("http", port, "TCP"))
  {
  }

  /** Wherever all children are as the spec has them, traffic flows through the objects under
      the very keys they are stored under, and the autoscaler scales the stored Deployment. */
  lemma BuiltFlows(c: Cluster, ns: string, name: string, s: Spec)
    requires AllBuilt(c, ns, name, s)
    ensures TrafficFlows(c, ns, name) && ScalerScales(c, ns, name)
  {
    BuiltScaler(c, ns, name, s);
    BuiltService(c, ns, name, s);
    BuiltContainer(c, ns, name, s);
    HttpReaches(s.service.port);
    var route, policy := Key(HTTPRouteKind, ns, name), Key(NetworkPolicyKind, ns, name + "-netpol");
    if route in c.children {
      BuiltRoute(c, route, ns, name, s);
    }
    if policy in c.children {
      BuiltPolicy(c, policy, ns, name, s);
    }
  }
}
