/** The label helpers every generator uses. */
module Labels {

  const NAME := "app.kubernetes.io/name"
  const INSTANCE := "app.kubernetes.io/instance"
  const VERSION := "app.kubernetes.io/version"
  const MANAGED_BY := "app.kubernetes.io/managed-by"
  const PART_OF := "app.kubernetes.io/part-of"

  type LabelSet = map<string, string>

  function CommonLabels(appName: string): LabelSet {
    map[NAME := appName, MANAGED_BY := "platform-operator", PART_OF := "platform"]
  }

  function SelectorLabels(appName: string): LabelSet {
    map[NAME := appName, INSTANCE := appName]
  }

  /** Later maps override earlier ones. */
  function Merged(ms: seq<LabelSet>): LabelSet {
    if ms == [] then map[] else Merged(ms[..|ms| - 1]) + ms[|ms| - 1]
  }

  /** The last map that has k decides its value; a key of no map is absent. */
  lemma {:induction false} MergedLastWins(ms: seq<LabelSet>, k: string)
    ensures k in Merged(ms) <==> exists i :: 0 <= i < |ms| && k in ms[i]
    ensures forall i :: 0 <= i < |ms| && k in ms[i] && (forall j :: i < j < |ms| ==> k !in ms[j]) ==>
                          k in Merged(ms) && Merged(ms)[k] == ms[i][k]
  {
    if ms == [] {
    } else {
      var init := ms[..|ms| - 1];
      MergedLastWins(init, k);
      assert forall i :: 0 <= i < |init| ==> init[i] == ms[i];
      if k in Merged(ms) && k !in ms[|ms| - 1] {
        var i :| 0 <= i < |init| && k in init[i];
        assert k in ms[i];
      }
    }
  }

  /** The inner loop of `MergeLabels`, for any order of iteration over m. */
  method Overlay(base: LabelSet, m: LabelSet) returns (result: LabelSet)
    ensures result == base + m
  {
    result := base;
    var todo := m.Keys;
    while todo != {}
      invariant todo <= m.Keys
      invariant result.Keys == base.Keys + (m.Keys - todo)
      invariant forall k :: k in result ==> result[k] == if k in m && k !in todo then m[k] else base[k]
      decreases |todo|
    {
      var k :| k in todo;
      result := result[k := m[k]];
      todo := todo - {k};
    }
  }

  method MergeLabels(ms: seq<LabelSet>) returns (result: LabelSet)
    ensures result == Merged(ms)
  {
    result := map[];
    for i := 0 to |ms|
      invariant result == Merged(ms[..i])
    {
      result := Overlay(result, ms[i]);
      assert ms[..i + 1][..i] == ms[..i];
    }
    assert ms[..|ms|] == ms;
  }

  /** A label selector matches the labels that contain it. */
  predicate Matches(selector: LabelSet, labels: LabelSet) {
    forall k :: k in selector ==> k in labels && labels[k] == selector[k]
  }
}

/** The seven generators: what each sub-reconciler wants to exist. */
module Generators {
  import opened Meta
  import opened V1Alpha1
  import opened Text
  import opened Labels

  /** What the generators read of an application. */
  datatype App = App(namespace: string, name: string, spec: Spec)

  datatype IntOrString = IntVal(intVal: int) | StrVal(strVal: string)

  /* ---------- Deployment ---------- */

  datatype EnvVar = EnvVar(name: string, value: string)

  datatype ContainerPort = ContainerPort(name: string, port: int32, protocol: string)

  /** Seconds before the first probe, between probes and until one times out, and the failures tolerated. */
  datatype Timing = Timing(initialDelay: int32, period: int32, timeout: int32, failureThreshold: int32)

  const LIVENESS_TIMING := Timing(15, 20, 5, 3)
  const READINESS_TIMING := Timing(5, 10, 3, 3)

  datatype Probe = Probe(path: string, port: int32, timing: Timing)

  datatype SecurityContext = SecurityContext(
    runAsNonRoot: bool, readOnlyRootFilesystem: bool, allowPrivilegeEscalation: bool, drop: seq<string>)

  const RESTRICTED := SecurityContext(true, true, false, ["ALL"])

  datatype PodSecurityContext = PodSecurityContext(runAsNonRoot: bool, seccompProfile: string)

  const POD_RESTRICTED := PodSecurityContext(true, "RuntimeDefault")

  datatype VolumeMount = VolumeMount(name: string, mountPath: string)

  datatype ResourceList = ResourceList(cpu: Option<string>, memory: Option<string>)

  datatype Container = Container(
    name: string,
    image: string,
    pullPolicy: string,
    ports: seq<ContainerPort>,
    requests: Option<ResourceList>,
    limits: Option<ResourceList>,
    liveness: Probe,
    readiness: Probe,
    env: seq<EnvVar>,
    security: SecurityContext,
    mounts: seq<VolumeMount>)

  datatype RollingUpdate = RollingUpdate(maxUnavailable: Option<IntOrString>, maxSurge: Option<IntOrString>)

  datatype Strategy = Strategy(strategyType: string, rollingUpdate: Option<RollingUpdate>)

  datatype Deployment = Deployment(
    labels: LabelSet,
    replicas: int32,
    selector: LabelSet,
    strategy: Strategy,
    podLabels: LabelSet,
    container: Container,
    podSecurity: PodSecurityContext,
    emptyDirs: seq<string>)

  function PodLabels(app: App): LabelSet {
    Merged([CommonLabels(app.name), map[INSTANCE := app.name, VERSION := app.spec.image.tag]])
  }

  function Quantities(r: ResourceSpec): Option<ResourceList> {
    if r.cpu == "" && r.memory == "" then None
    else Some(ResourceList(if r.cpu == "" then None else Some(r.cpu), if r.memory == "" then None else Some(r.memory)))
  }

  function Env(configuration: map<string, string>): seq<EnvVar> {
    SortedKeysLists(configuration.Keys);
    EnvOf(SortedKeys(configuration.Keys), configuration)
  }

  function EnvOf(keys: seq<string>, configuration: map<string, string>): (env: seq<EnvVar>)
    requires forall k :: k in keys ==> k in configuration
    ensures |env| == |keys|
    ensures forall i :: 0 <= i < |keys| ==> env[i] == EnvVar(keys[i], configuration[keys[i]])
  {
    seq(|keys|, i requires 0 <= i < |keys| => EnvVar(keys[i], configuration[keys[i]]))
  }

  /** A rollout bound: a number where Go's `Atoi` reads one, the text otherwise. */
  function Bound(s: string): IntOrString {
    match Atoi(s)
    case Some(n) => IntVal(Wrap32(n))
    case None => StrVal(s)
  }

  function RolloutStrategy(r: RolloutSpec): Strategy {
    if r.strategy == "Recreate" then Strategy("Recreate", None)
    else if r.maxUnavailable != "" || r.maxSurge != "" then
      Strategy("RollingUpdate", Some(RollingUpdate(
        if r.maxUnavailable == "" then None else Some(Bound(r.maxUnavailable)),
        if r.maxSurge == "" then None else Some(Bound(r.maxSurge)))))
    else Strategy("RollingUpdate", None)
  }

  function Replicas(app: App): int32 {
    if app.spec.replicas.min < 1 then 1 else app.spec.replicas.min
  }

  function ProbePort(app: App): int32 {
    if app.spec.healthChecks.port != 0 then app.spec.healthChecks.port else app.spec.service.port
  }

  function OrElse(s: string, fallback: string): string {
    if s == "" then fallback else s
  }

  function DesiredContainer(app: App): Container {
    Container(
      app.name,
      app.spec.image.repository + ":" + app.spec.image.tag,
      app.spec.image.pullPolicy,
      [ContainerPort("http", app.spec.service.port, "TCP")],
      Quantities(app.spec.resources.requests),
      Quantities(app.spec.resources.limits),
      Probe(OrElse(app.spec.healthChecks.livenessPath, "/healthz"), ProbePort(app), LIVENESS_TIMING),
      Probe(OrElse(app.spec.healthChecks.readinessPath, "/readyz"), ProbePort(app), READINESS_TIMING),
      Env(app.spec.configuration),
      RESTRICTED,
      [VolumeMount("tmp", "/tmp")])
  }

  function DesiredDeployment(app: App): Deployment {
    Deployment(PodLabels(app), Replicas(app), SelectorLabels(app.name), RolloutStrategy(app.spec.rollout),
               PodLabels(app), DesiredContainer(app), POD_RESTRICTED, ["tmp"])
  }

  /* ---------- the other six ---------- */

  datatype ServicePort = ServicePort(name: string, port: int32, targetPort: IntOrString, protocol: string)

  datatype Service = Service(labels: LabelSet, serviceType: string, selector: LabelSet, ports: seq<ServicePort>)

  function DesiredService(app: App): Service {
    Service(CommonLabels(app.name), OrElse(app.spec.service.serviceType, "ClusterIP"), SelectorLabels(app.name),
            [ServicePort("http", app.spec.service.port, StrVal("http"), "TCP")])
  }

  datatype ObjectRef = ObjectRef(kind: string, name: string)

  datatype HPA = HPA(labels: LabelSet, target: ObjectRef, minReplicas: int32, maxReplicas: int32, targetCPU: int32)

  function DesiredHPA(app: App): HPA {
    var min, max := app.spec.replicas.min, app.spec.replicas.max;
    HPA(CommonLabels(app.name), ObjectRef("Deployment", app.name), min, if max < min then min else max,
        if app.spec.autoscaling.targetCPUUtilization == 0 then 80 else app.spec.autoscaling.targetCPUUtilization)
  }

  datatype ParentRef = ParentRef(namespace: string, name: string)

  datatype BackendRef = BackendRef(kind: string, name: string, port: int32)

  datatype HTTPRoute = HTTPRoute(
    labels: LabelSet, hostnames: seq<string>, parentRefs: seq<ParentRef>, pathPrefix: string, backend: BackendRef)

  function DesiredHTTPRoute(app: App): HTTPRoute {
    var g := app.spec.gateway;
    HTTPRoute(
      CommonLabels(app.name),
      if g.host == "" then [] else [g.host],
      match SplitSlash(g.gatewayRef) case Some((ns, name)) => [ParentRef(ns, name)] case None => [],
      OrElse(g.pathPrefix, "/"),
      BackendRef("Service", app.name, app.spec.service.port))
  }

  datatype NetworkPolicy = NetworkPolicy(
    labels: LabelSet, podSelector: LabelSet, ingressProtocol: string, ingressPort: int32, policyTypes: seq<string>)

  function DesiredNetworkPolicy(app: App): NetworkPolicy {
    NetworkPolicy(CommonLabels(app.name), SelectorLabels(app.name), "TCP", app.spec.service.port, ["Ingress", "Egress"])
  }

  datatype PDB = PDB(labels: LabelSet, maxUnavailable: IntOrString, selector: LabelSet)

  function DesiredPDB(app: App): PDB {
    PDB(CommonLabels(app.name),
        if app.spec.replicas.min > 4 then StrVal("25%") else IntVal(1),
        SelectorLabels(app.name))
  }

  datatype ServiceMonitor = ServiceMonitor(
    labels: LabelSet, selector: LabelSet, endpointPort: string, path: string, interval: string)

  function DesiredServiceMonitor(app: App): ServiceMonitor {
    ServiceMonitor(CommonLabels(app.name), SelectorLabels(app.name), "http", "/metrics", "30s")
  }

  /* ---------- building them step by step ---------- */

  /** The keys of a configuration, in any order of iteration. */
  method CollectKeys(configuration: map<string, string>) returns (keys: seq<string>)
    ensures Distinct(keys) && (set k | k in keys) == configuration.Keys
  {
    keys := [];
    var todo := configuration.Keys;
    while todo != {}
      invariant Distinct(keys)
      invariant todo <= configuration.Keys && (set k | k in keys) == configuration.Keys - todo
      decreases |todo|
    {
      var k :| k in todo;
      OneMoreKey(keys, k);
      assert configuration.Keys - (todo - {k}) == configuration.Keys - todo + {k};
      keys := keys + [k];
      todo := todo - {k};
    }
  }

  lemma OneMoreKey(keys: seq<string>, k: string)
    requires Distinct(keys) && k !in (set x | x in keys)
    ensures Distinct(keys + [k]) && (set x | x in keys + [k]) == (set x | x in keys) + {k}
  {
  }

  /** The environment of the container, for any order of iteration over the configuration. */
  method BuildEnv(configuration: map<string, string>) returns (env: seq<EnvVar>)
    ensures env == Env(configuration)
  {
    env := [];
    if |configuration| > 0 {
      var keys := CollectKeys(configuration);
      keys := SortStrings(keys);
      SortedKeysLists(configuration.Keys);
      ListingUnique(keys, SortedKeys(configuration.Keys), configuration.Keys);
      for i := 0 to |keys|
        invariant |env| == i
        invariant forall j :: 0 <= j < i ==>
                keys[j] in configuration && env[j] == EnvVar(keys[j], configuration[keys[j]])
      {
        assert keys[i] in keys;
        env := env + [EnvVar(keys[i], configuration[keys[i]])];
      }
    } else {
      assert configuration.Keys == {};
    }
  }

  /** `sort.Strings`, as insertion sort. */
  method SortStrings(keys: seq<string>) returns (sorted: seq<string>)
    requires Distinct(keys)
    ensures Lists(sorted, set k | k in keys)
  {
    sorted := [];
    for i := 0 to |keys|
      invariant sorted == Sorted(keys[..i])
    {
      assert keys[..i + 1][..i] == keys[..i];
      sorted := Insert(keys[i], sorted);
    }
    assert keys[..|keys|] == keys;
    SortedLists(keys);
  }

  method BuildStrategy(r: RolloutSpec) returns (strategy: Strategy)
    ensures strategy == RolloutStrategy(r)
  {
    strategy := Strategy("RollingUpdate", None);
    if r.strategy == "Recreate" {
      strategy := strategy.(strategyType := "Recreate");
    } else if r.maxUnavailable != "" || r.maxSurge != "" {
      var ru := RollingUpdate(None, None);
      if r.maxUnavailable != "" {
        var v := StrVal(r.maxUnavailable);
        if Atoi(r.maxUnavailable).Some? {
          v := IntVal(Wrap32(Atoi(r.maxUnavailable).value));
        }
        ru := ru.(maxUnavailable := Some(v));
      }
      if r.maxSurge != "" {
        var v := StrVal(r.maxSurge);
        if Atoi(r.maxSurge).Some? {
          v := IntVal(Wrap32(Atoi(r.maxSurge).value));
        }
        ru := ru.(maxSurge := Some(v));
      }
      strategy := strategy.(rollingUpdate := Some(ru));
    }
  }

  method BuildResources(r: ResourceSpec) returns (list: Option<ResourceList>)
    ensures list == Quantities(r)
  {
    list := None;
    if r.cpu != "" || r.memory != "" {
      var l := ResourceList(None, None);
      if r.cpu != "" { l := l.(cpu := Some(r.cpu)); }
      if r.memory != "" { l := l.(memory := Some(r.memory)); }
      list := Some(l);
    }
  }

  method BuildDesiredDeployment(app: App) returns (d: Deployment)
    ensures d == DesiredDeployment(app)
  {
    var labels := MergeLabels([CommonLabels(app.name), map[INSTANCE := app.name, VERSION := app.spec.image.tag]]);
    var replicas := app.spec.replicas.min;
    if replicas < 1 { replicas := 1; }
    var requests := BuildResources(app.spec.resources.requests);
    var limits := BuildResources(app.spec.resources.limits);
    var probePort := app.spec.service.port;
    if app.spec.healthChecks.port != 0 { probePort := app.spec.healthChecks.port; }
    var livenessPath := app.spec.healthChecks.livenessPath;
    if livenessPath == "" { livenessPath := "/healthz"; }
    var readinessPath := app.spec.healthChecks.readinessPath;
    if readinessPath == "" { readinessPath := "/readyz"; }
    var env := BuildEnv(app.spec.configuration);
    var strategy := BuildStrategy(app.spec.rollout);
    var liveness := Probe(livenessPath, probePort, Timing(15, 20, 5, 3));
    var readiness := Probe(readinessPath, probePort, Timing(5, 10, 3, 3));
    var container := Container(app.name, app.spec.image.repository + ":" + app.spec.image.tag,
                               app.spec.image.pullPolicy, [ContainerPort("http", app.spec.service.port, "TCP")],
                               requests, limits, liveness, readiness, env,
                               SecurityContext(true, true, false, ["ALL"]), [VolumeMount("tmp", "/tmp")]);
    assert container == DesiredContainer(app);
    d := Deployment(labels, replicas, SelectorLabels(app.name), strategy, labels, container,
                    PodSecurityContext(true, "RuntimeDefault"), ["tmp"]);
  }

  /** The route, patched with the host and the parent gateway when they are configured. */
  method BuildDesiredHTTPRoute(app: App) returns (route: HTTPRoute)
    ensures route == DesiredHTTPRoute(app)
  {
    var pathPrefix := app.spec.gateway.pathPrefix;
    if pathPrefix == "" { pathPrefix := "/"; }
    route := HTTPRoute(CommonLabels(app.name), [], [], pathPrefix,
        BackendRef("Service", app.name, app.spec.service.port));
    if app.spec.gateway.host != "" {
      route := route.(hostnames := [app.spec.gateway.host]);
    }
    if app.spec.gateway.gatewayRef != "" {
      var parts := SplitSlash(app.spec.gateway.gatewayRef);
      if parts.Some? {
        route := route.(parentRefs := [ParentRef(parts.value.0, parts.value.1)]);
      }
    }
  }
}
