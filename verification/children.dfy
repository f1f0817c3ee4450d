/** The seven children as cluster objects: their keys, when they are wanted, and the fields
    an apply sends for them. */
module Children {
  import opened Meta
  import opened V1Alpha1
  import opened Text
  import opened Labels
  import opened Generators
  import opened GeneratorLaws

  datatype Kind =
    | DeploymentKind | ServiceKind | HPAKind | HTTPRouteKind | NetworkPolicyKind | PDBKind | ServiceMonitorKind

  datatype AppKey = AppKey(namespace: string, name: string)

  datatype Key = Key(kind: Kind, namespace: string, name: string)

  /** The position of a sub-reconciler in the controller's sequence. */
  type Step = i: nat | i < 7

  function KindAt(i: Step): Kind {
    [DeploymentKind, ServiceKind, HPAKind, HTTPRouteKind, NetworkPolicyKind, PDBKind, ServiceMonitorKind][i]
  }

  function Suffix(i: Step): string {
    match KindAt(i)
    case NetworkPolicyKind => "-netpol"
    case PDBKind => "-pdb"
    case ServiceMonitorKind => "-monitor"
    case _ => ""
  }

  function KeyOf(i: Step, app: AppKey): Key {
    Key(KindAt(i), app.namespace, app.name + Suffix(i))
  }

  predicate Wanted(i: Step, s: Spec) {
    match KindAt(i)
    case DeploymentKind => true
    case ServiceKind => true
    case HPAKind => s.autoscaling.enabled
    case HTTPRouteKind => s.gateway.enabled
    case NetworkPolicyKind => s.security.networkPolicy
    case PDBKind => s.replicas.min > 1
    case ServiceMonitorKind => s.observability.metrics
  }

  lemma KindsDistinct(i: Step, j: Step)
    ensures KindAt(i) == KindAt(j) <==> i == j
  {
  }

  /** No two children, of the same or of different applications, share a key. */
  lemma KeysDisjoint(i: Step, a: AppKey, j: Step, b: AppKey)
    ensures KeyOf(i, a) == KeyOf(j, b) <==> i == j && a == b
  {
    KindsDistinct(i, j);
    if KeyOf(i, a) == KeyOf(j, b) {
      assert i == j;
      var s := Suffix(i);
      assert (a.name + s)[..|a.name|] == a.name && (b.name + s)[..|b.name|] == b.name;
    }
  }

  /** k is the key of one of app's children. */
  predicate Owns(app: AppKey, k: Key) {
    exists i: Step :: KeyOf(i, app) == k
  }

  lemma OwnsDisjoint(a: AppKey, b: AppKey, k: Key)
    requires Owns(a, k) && Owns(b, k)
    ensures a == b
  {
    var i: Step :| KeyOf(i, a) == k;
    var j: Step :| KeyOf(j, b) == k;
    KeysDisjoint(i, a, j, b);
  }

  /* ---------- objects as field maps ---------- */

  datatype Child =
    | ADeployment(deployment: Deployment)
    | AService(service: Service)
    | AnHPA(hpa: HPA)
    | AnHTTPRoute(route: HTTPRoute)
    | ANetworkPolicy(policy: NetworkPolicy)
    | APDB(pdb: PDB)
    | AServiceMonitor(monitor: ServiceMonitor)

  function Desired(i: Step, app: App): Child {
    match KindAt(i)
    case DeploymentKind => ADeployment(DesiredDeployment(app))
    case ServiceKind => AService(DesiredService(app))
    case HPAKind => AnHPA(DesiredHPA(app))
    case HTTPRouteKind => AnHTTPRoute(DesiredHTTPRoute(app))
    case NetworkPolicyKind => ANetworkPolicy(DesiredNetworkPolicy(app))
    case PDBKind => APDB(DesiredPDB(app))
    case ServiceMonitorKind => AServiceMonitor(DesiredServiceMonitor(app))
  }

  /** A field outside the label-like tables. */
  datatype Slot =
    | ReplicaCount | StrategyType | MaxUnavailable | MaxSurge
    | ContainerName | Image | PullPolicy | ContainerPorts | RequestsCpu | RequestsMemory | LimitsCpu | LimitsMemory
    | Liveness | Readiness | Security | Mounts | PodSecurity | EmptyDirs
    | ServiceType | ServicePorts | ScaleTarget | MinReplicas | MaxReplicas | TargetCpu
    | Hostnames | ParentRefs | PathPrefix | Backend | IngressProtocol | IngressPort | PolicyTypes
    | EndpointPort | EndpointPath | EndpointInterval

  /** A field only the API server or another controller writes. */
  datatype ServerField = ResourceVersion | Uid | ReadyReplicas | OtherField(id: nat)

  datatype Path =
    | At(slot: Slot)
    | Label(k: string) | PodLabel(k: string) | Select(k: string) | EnvEntry(k: string)
    | OwnerRef(uid: nat)
    | Server(field: ServerField)

  datatype Value =
    | VStr(s: string) | VInt(n: int32) | VBound(b: IntOrString) | VPresent | VStrs(ss: seq<string>)
    | VContainerPorts(cps: seq<ContainerPort>) | VServicePorts(sps: seq<ServicePort>) | VProbe(p: Probe)
    | VSecurity(security: SecurityContext) | VPodSecurity(podSecurity: PodSecurityContext)
    | VMounts(mounts: seq<VolumeMount>)
    | VTarget(target: ObjectRef) | VParents(parents: seq<ParentRef>) | VBackend(backend: BackendRef)

  type Obj = map<Path, Value>

  /** Empty optional text is omitted from what is sent. */
  function NonEmpty(s: string): Option<Value> {
    if s == "" then None else Some(VStr(s))
  }

  function OptText(s: Option<string>): Option<Value> {
    match s case None => None case Some(v) => Some(VStr(v))
  }

  function OptBound(b: Option<IntOrString>): Option<Value> {
    match b case None => None case Some(v) => Some(VBound(v))
  }

  function DeploymentSlot(d: Deployment, slot: Slot): Option<Value> {
    var c, r := d.container, d.strategy.rollingUpdate;
    match slot
    case ReplicaCount => Some(VInt(d.replicas))
    case StrategyType => Some(VStr(d.strategy.strategyType))
    case MaxUnavailable => if r.None? then None else OptBound(r.value.maxUnavailable)
    case MaxSurge => if r.None? then None else OptBound(r.value.maxSurge)
    case ContainerName => Some(VStr(c.name))
    case Image => Some(VStr(c.image))
    case PullPolicy => NonEmpty(c.pullPolicy)
    case ContainerPorts => Some(VContainerPorts(c.ports))
    case RequestsCpu => if c.requests.None? then None else OptText(c.requests.value.cpu)
    case RequestsMemory => if c.requests.None? then None else OptText(c.requests.value.memory)
    case LimitsCpu => if c.limits.None? then None else OptText(c.limits.value.cpu)
    case LimitsMemory => if c.limits.None? then None else OptText(c.limits.value.memory)
    case Liveness => Some(VProbe(c.liveness))
    case Readiness => Some(VProbe(c.readiness))
    case Security => Some(VSecurity(c.security))
    case Mounts => Some(VMounts(c.mounts))
    case PodSecurity => Some(VPodSecurity(d.podSecurity))
    case EmptyDirs => Some(VStrs(d.emptyDirs))
    case _ => None
  }

  function SlotValue(c: Child, slot: Slot): Option<Value> {
    match c
    case ADeployment(d) => DeploymentSlot(d, slot)
    case AService(s) =>
      (match slot
       case ServiceType => Some(VStr(s.serviceType))
       case ServicePorts => Some(VServicePorts(s.ports))
       case _ => None)
    case AnHPA(h) =>
      (match slot
       case ScaleTarget => Some(VTarget(h.target))
       case MinReplicas => Some(VInt(h.minReplicas))
       case MaxReplicas => Some(VInt(h.maxReplicas))
       case TargetCpu => Some(VInt(h.targetCPU))
       case _ => None)
    case AnHTTPRoute(r) =>
      (match slot
       case Hostnames => if r.hostnames == [] then None else Some(VStrs(r.hostnames))
       case ParentRefs => if r.parentRefs == [] then None else Some(VParents(r.parentRefs))
       case PathPrefix => Some(VStr(r.pathPrefix))
       case Backend => Some(VBackend(r.backend))
       case _ => None)
    case ANetworkPolicy(np) =>
      (match slot
       case IngressProtocol => Some(VStr(np.ingressProtocol))
       case IngressPort => Some(VInt(np.ingressPort))
       case PolicyTypes => Some(VStrs(np.policyTypes))
       case _ => None)
    case APDB(p) =>
      (match slot
       case MaxUnavailable => Some(VBound(p.maxUnavailable))
       case _ => None)
    case AServiceMonitor(m) =>
      (match slot
       case EndpointPort => Some(VStr(m.endpointPort))
       case EndpointPath => Some(VStr(m.path))
       case EndpointInterval => Some(VStr(m.interval))
       case _ => None)
  }

  function LabelsOf(c: Child): LabelSet {
    match c
    case ADeployment(d) => d.labels
    case AService(s) => s.labels
    case AnHPA(h) => h.labels
    case AnHTTPRoute(r) => r.labels
    case ANetworkPolicy(np) => np.labels
    case APDB(p) => p.labels
    case AServiceMonitor(m) => m.labels
  }

  function PodLabelsOf(c: Child): LabelSet {
    if c.ADeployment? then c.deployment.podLabels else map[]
  }

  function SelectorOf(c: Child): LabelSet {
    match c
    case ADeployment(d) => d.selector
    case AService(s) => s.selector
    case ANetworkPolicy(np) => np.podSelector
    case APDB(p) => p.selector
    case AServiceMonitor(m) => m.selector
    case _ => map[]
  }

  function EnvTable(c: Child): map<string, string> {
    if c.ADeployment? then Folded(c.deployment.container.env) else map[]
  }

  function Entry(m: map<string, string>, k: string): Option<Value> {
    if k in m then Some(VStr(m[k])) else None
  }

  function ValueAt(c: Child, p: Path): Option<Value> {
    match p
    case At(slot) => SlotValue(c, slot)
    case Label(k) => Entry(LabelsOf(c), k)
    case PodLabel(k) => Entry(PodLabelsOf(c), k)
    case Select(k) => Entry(SelectorOf(c), k)
    case EnvEntry(k) => Entry(EnvTable(c), k)
    case OwnerRef(_) => None
    case Server(_) => None
  }

  /** Every path a child can have a value at. */
  function Paths(c: Child): (ps: set<Path>)
    ensures forall p :: ValueAt(c, p).Some? ==> p in ps
  {
    (set s: Slot | true :: At(s)) + (set k | k in LabelsOf(c) :: Label(k))
        + (set k | k in PodLabelsOf(c) :: PodLabel(k))
    + (set k | k in SelectorOf(c) :: Select(k)) + (set k | k in EnvTable(c) :: EnvEntry(k))
  }

  function Fields(c: Child): (o: Obj)
    ensures forall p :: p in o <==> ValueAt(c, p).Some?
    ensures forall p :: p in o ==> o[p] == ValueAt(c, p).value
  {
    map p | p in Paths(c) && ValueAt(c, p).Some? :: ValueAt(c, p).value
  }

  /** What an apply sends: the desired fields and the controller owner reference. */
  function Manifest(i: Step, app: App, uid: nat): Obj {
    Fields(Desired(i, app))[OwnerRef(uid) := VPresent]
  }

  /** Every desired field is stored with the desired value. */
  predicate Covers(stored: Obj, desired: Obj) {
    forall p :: p in desired ==> p in stored && stored[p] == desired[p]
  }

  /** An apply never sends a field only the server writes, and exactly one owner. */
  lemma ManifestFields(i: Step, app: App, uid: nat)
    ensures forall p :: p in Manifest(i, app, uid) ==> !p.Server?
    ensures forall u :: OwnerRef(u) in Manifest(i, app, uid) <==> u == uid
  {
  }

  lemma TablesFaithful(a: map<string, string>, b: map<string, string>)
    requires forall k :: Entry(a, k) == Entry(b, k)
    ensures a == b
  {
    forall k ensures k in a <==> k in b {
      assert Entry(a, k) == Entry(b, k);
    }
    forall k | k in a ensures a[k] == b[k] {
      assert Entry(a, k) == Entry(b, k);
    }
  }

  /** The field of o under p, if any. */
  function FieldAt(o: Obj, p: Path): Option<Value> {
    if p in o then Some(o[p]) else None
  }

  lemma FieldIsValue(c: Child, uid: nat, p: Path)
    requires p != OwnerRef(uid)
    ensures FieldAt(Fields(c)[OwnerRef(uid) := VPresent], p) == ValueAt(c, p)
  {
    assert p in Fields(c) <==> ValueAt(c, p).Some?;
  }

  lemma SameFields(a: Child, b: Child, uid: nat)
    requires Fields(a)[OwnerRef(uid) := VPresent] == Fields(b)[OwnerRef(uid) := VPresent]
    ensures forall p :: ValueAt(a, p) == ValueAt(b, p)
  {
    forall p ensures ValueAt(a, p) == ValueAt(b, p) {
      if p != OwnerRef(uid) {
        FieldIsValue(a, uid, p);
        FieldIsValue(b, uid, p);
      }
    }
  }

  lemma SameTables(a: Child, b: Child)
    requires forall p :: ValueAt(a, p) == ValueAt(b, p)
    ensures LabelsOf(a) == LabelsOf(b) && PodLabelsOf(a) == PodLabelsOf(b)
    ensures SelectorOf(a) == SelectorOf(b) && EnvTable(a) == EnvTable(b)
  {
    forall k ensures Entry(LabelsOf(a), k) == Entry(LabelsOf(b), k) {
      assert ValueAt(a, Label(k)) == ValueAt(b, Label(k));
    }
    TablesFaithful(LabelsOf(a), LabelsOf(b));
    forall k ensures Entry(PodLabelsOf(a), k) == Entry(PodLabelsOf(b), k) {
      assert ValueAt(a, PodLabel(k)) == ValueAt(b, PodLabel(k));
    }
    TablesFaithful(PodLabelsOf(a), PodLabelsOf(b));
    forall k ensures Entry(SelectorOf(a), k) == Entry(SelectorOf(b), k) {
      assert ValueAt(a, Select(k)) == ValueAt(b, Select(k));
    }
    TablesFaithful(SelectorOf(a), SelectorOf(b));
    forall k ensures Entry(EnvTable(a), k) == Entry(EnvTable(b), k) {
      assert ValueAt(a, EnvEntry(k)) == ValueAt(b, EnvEntry(k));
    }
    TablesFaithful(EnvTable(a), EnvTable(b));
  }

  lemma DeploymentsFaithful(a: App, b: App)
    requires forall s :: DeploymentSlot(DesiredDeployment(a), s) == DeploymentSlot(DesiredDeployment(b), s)
    requires PodLabels(a) == PodLabels(b) && SelectorLabels(a.name) == SelectorLabels(b.name)
    requires a.spec.configuration == b.spec.configuration
    ensures DesiredDeployment(a) == DesiredDeployment(b)
  {
    var d, e := DesiredDeployment(a), DesiredDeployment(b);
    assert d.strategy == e.strategy by {
      assert DeploymentSlot(d, StrategyType) == DeploymentSlot(e, StrategyType);
      assert DeploymentSlot(d, MaxUnavailable) == DeploymentSlot(e, MaxUnavailable);
      assert DeploymentSlot(d, MaxSurge) == DeploymentSlot(e, MaxSurge);
    }
    assert DeploymentSlot(d, ReplicaCount) == DeploymentSlot(e, ReplicaCount);
    ContainersFaithful(a, b);
  }

  lemma ResourcesFaithful(a: Deployment, b: Deployment)
    requires forall s :: DeploymentSlot(a, s) == DeploymentSlot(b, s)
    requires a.container.requests.Some? ==>
            a.container.requests.value.cpu.Some? || a.container.requests.value.memory.Some?
    requires b.container.requests.Some? ==>
            b.container.requests.value.cpu.Some? || b.container.requests.value.memory.Some?
    requires a.container.limits.Some? ==> a.container.limits.value.cpu.Some? || a.container.limits.value.memory.Some?
    requires b.container.limits.Some? ==> b.container.limits.value.cpu.Some? || b.container.limits.value.memory.Some?
    ensures a.container.requests == b.container.requests && a.container.limits == b.container.limits
  {
    assert DeploymentSlot(a, RequestsCpu) == DeploymentSlot(b, RequestsCpu);
    assert DeploymentSlot(a, RequestsMemory) == DeploymentSlot(b, RequestsMemory);
    assert DeploymentSlot(a, LimitsCpu) == DeploymentSlot(b, LimitsCpu);
    assert DeploymentSlot(a, LimitsMemory) == DeploymentSlot(b, LimitsMemory);
  }

  lemma PlainSlotsFaithful(a: Deployment, b: Deployment)
    requires forall s :: DeploymentSlot(a, s) == DeploymentSlot(b, s)
    ensures a.container.name == b.container.name && a.container.image == b.container.image
    ensures a.container.pullPolicy == b.container.pullPolicy && a.container.ports == b.container.ports
    ensures a.container.liveness == b.container.liveness && a.container.readiness == b.container.readiness
  {
    assert DeploymentSlot(a, ContainerName) == DeploymentSlot(b, ContainerName);
    assert DeploymentSlot(a, Image) == DeploymentSlot(b, Image);
    assert DeploymentSlot(a, PullPolicy) == DeploymentSlot(b, PullPolicy);
    assert DeploymentSlot(a, ContainerPorts) == DeploymentSlot(b, ContainerPorts);
    assert DeploymentSlot(a, Liveness) == DeploymentSlot(b, Liveness);
    assert DeploymentSlot(a, Readiness) == DeploymentSlot(b, Readiness);
  }

  lemma ContainersFaithful(a: App, b: App)
    requires forall s :: DeploymentSlot(DesiredDeployment(a), s) == DeploymentSlot(DesiredDeployment(b), s)
    requires a.spec.configuration == b.spec.configuration
    ensures DesiredContainer(a) == DesiredContainer(b)
  {
    ResourcesFaithful(DesiredDeployment(a), DesiredDeployment(b));
    PlainSlotsFaithful(DesiredDeployment(a), DesiredDeployment(b));
  }

  lemma ServicesAndScalersFaithful(c: Child, d: Child)
    requires forall s :: SlotValue(c, s) == SlotValue(d, s)
    requires LabelsOf(c) == LabelsOf(d) && SelectorOf(c) == SelectorOf(d)
    ensures c.AService? && d.AService? ==> c == d
    ensures c.AnHPA? && d.AnHPA? ==> c == d
    ensures c.APDB? && d.APDB? ==> c == d
  {
    assert SlotValue(c, ServiceType) == SlotValue(d, ServiceType);
    assert SlotValue(c, ServicePorts) == SlotValue(d, ServicePorts);
    assert SlotValue(c, ScaleTarget) == SlotValue(d, ScaleTarget);
    assert SlotValue(c, MinReplicas) == SlotValue(d, MinReplicas);
    assert SlotValue(c, MaxReplicas) == SlotValue(d, MaxReplicas);
    assert SlotValue(c, TargetCpu) == SlotValue(d, TargetCpu);
    assert SlotValue(c, MaxUnavailable) == SlotValue(d, MaxUnavailable);
  }

  lemma RoutesFaithful(c: Child, d: Child)
    requires c.AnHTTPRoute? && d.AnHTTPRoute? && LabelsOf(c) == LabelsOf(d)
    requires forall s :: SlotValue(c, s) == SlotValue(d, s)
    ensures c == d
  {
    assert SlotValue(c, Hostnames) == SlotValue(d, Hostnames);
    assert SlotValue(c, ParentRefs) == SlotValue(d, ParentRefs);
    assert SlotValue(c, PathPrefix) == SlotValue(d, PathPrefix);
    assert SlotValue(c, Backend) == SlotValue(d, Backend);
  }

  lemma PoliciesFaithful(c: Child, d: Child)
    requires c.ANetworkPolicy? && d.ANetworkPolicy? && LabelsOf(c) == LabelsOf(d) && SelectorOf(c) == SelectorOf(d)
    requires forall s :: SlotValue(c, s) == SlotValue(d, s)
    ensures c == d
  {
    assert SlotValue(c, IngressProtocol) == SlotValue(d, IngressProtocol);
    assert SlotValue(c, IngressPort) == SlotValue(d, IngressPort);
    assert SlotValue(c, PolicyTypes) == SlotValue(d, PolicyTypes);
  }

  lemma MonitorsFaithful(c: Child, d: Child)
    requires c.AServiceMonitor? && d.AServiceMonitor? && LabelsOf(c) == LabelsOf(d) && SelectorOf(c) == SelectorOf(d)
    requires forall s :: SlotValue(c, s) == SlotValue(d, s)
    ensures c == d
  {
    assert SlotValue(c, EndpointPort) == SlotValue(d, EndpointPort);
    assert SlotValue(c, EndpointPath) == SlotValue(d, EndpointPath);
    assert SlotValue(c, EndpointInterval) == SlotValue(d, EndpointInterval);
  }

  /** The fields an apply sends determine the desired object: nothing the generators
      computed is lost on the way to the server. */
  lemma ManifestFaithful(i: Step, a: App, b: App, uid: nat)
    requires Manifest(i, a, uid) == Manifest(i, b, uid)
    ensures Desired(i, a) == Desired(i, b)
  {
    var c, d := Desired(i, a), Desired(i, b);
    SameFields(c, d, uid);
    SameTables(c, d);
    forall s ensures SlotValue(c, s) == SlotValue(d, s) {
      assert ValueAt(c, At(s)) == ValueAt(d, At(s));
    }
    if KindAt(i).DeploymentKind? {
      forall s ensures DeploymentSlot(c.deployment, s) == DeploymentSlot(d.deployment, s) {
        assert SlotValue(c, s) == SlotValue(d, s);
      }
      EnvDeterministic(a.spec.configuration, Env(a.spec.configuration));
      EnvDeterministic(b.spec.configuration, Env(b.spec.configuration));
      DeploymentsFaithful(a, b);
    } else if c.AnHTTPRoute? {
      RoutesFaithful(c, d);
    } else if c.ANetworkPolicy? {
      PoliciesFaithful(c, d);
    } else if c.AServiceMonitor? {
      MonitorsFaithful(c, d);
    } else {
      ServicesAndScalersFaithful(c, d);
    }
  }
}
