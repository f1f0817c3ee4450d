/** Which parts of a spec reach which field of which child: two specs give a field the same
    value exactly when they agree on that part. */
module Edits {
  import opened Meta
  import opened V1Alpha1
  import opened Text
  import opened Generators
  import opened GeneratorLaws
  import opened Children
  import opened Passes
  import opened Operators

  /* ---------- the parts ---------- */

  predicate SameFloor(a: int32, b: int32, floor: int32) {
    a == b || (a <= floor && b <= floor)
  }

  predicate SamePath(a: string, b: string, fallback: string) {
    OrElse(a, fallback) == OrElse(b, fallback)
  }

  predicate SameProbePort(s: Spec, t: Spec) {
    (if s.healthChecks.port == 0 then s.service.port else s.healthChecks.port)
    == (if t.healthChecks.port == 0 then t.service.port else t.healthChecks.port)
  }

  predicate BoundSent(r: RolloutSpec, bound: string) {
    r.strategy != "Recreate" && bound != ""
  }

  /** Bounds agree when neither is sent, or both are and read the same. */
  predicate SameBound(r: RolloutSpec, a: string, q: RolloutSpec, b: string) {
    BoundSent(r, a) == BoundSent(q, b) && (BoundSent(r, a) ==> Bound(a) == Bound(b))
  }

  predicate SameStrategy(s: Spec, t: Spec) {
    s.rollout.strategy == "Recreate" <==> t.rollout.strategy == "Recreate"
  }

  predicate SameMaxUnavailable(s: Spec, t: Spec) {
    SameBound(s.rollout, s.rollout.maxUnavailable, t.rollout, t.rollout.maxUnavailable)
  }

  predicate SameMaxSurge(s: Spec, t: Spec) {
    SameBound(s.rollout, s.rollout.maxSurge, t.rollout, t.rollout.maxSurge)
  }

  predicate SameCeiling(s: Spec, t: Spec) {
    (if s.replicas.max >= s.replicas.min then s.replicas.max else s.replicas.min)
    == (if t.replicas.max >= t.replicas.min then t.replicas.max else t.replicas.min)
  }

  predicate SameLoad(s: Spec, t: Spec) {
    var a, b := s.autoscaling.targetCPUUtilization, t.autoscaling.targetCPUUtilization;
    a == b || (a in {0, 80} && b in {0, 80})
  }

  /** References agree when they are equal, or neither names a gateway. */
  predicate SameGateway(a: string, b: string) {
    a == b || ('/' !in a && '/' !in b)
  }

  /* ---------- slot by slot ---------- */

  predicate DeploymentAgrees(s: Spec, t: Spec, slot: Slot) {
    match slot
    case ReplicaCount => SameFloor(s.replicas.min, t.replicas.min, 1)
    case StrategyType => SameStrategy(s, t)
    case MaxUnavailable => SameMaxUnavailable(s, t)
    case MaxSurge => SameMaxSurge(s, t)
    case Image => s.image.repository + ":" + s.image.tag == t.image.repository + ":" + t.image.tag
    case PullPolicy => s.image.pullPolicy == t.image.pullPolicy
    case ContainerPorts => s.service.port == t.service.port
    case RequestsCpu => s.resources.requests.cpu == t.resources.requests.cpu
    case RequestsMemory => s.resources.requests.memory == t.resources.requests.memory
    case LimitsCpu => s.resources.limits.cpu == t.resources.limits.cpu
    case LimitsMemory => s.resources.limits.memory == t.resources.limits.memory
    case Liveness => SamePath(s.healthChecks.livenessPath, t.healthChecks.livenessPath, "/healthz")
        && SameProbePort(s, t)
    case Readiness => SamePath(s.healthChecks.readinessPath, t.healthChecks.readinessPath, "/readyz")
        && SameProbePort(s, t)
    case _ => true
  }

  predicate AgreeAt(i: Step, s: Spec, t: Spec, slot: Slot) {
    match KindAt(i)
    case DeploymentKind => DeploymentAgrees(s, t, slot)
    case ServiceKind =>
      (match slot
       case ServiceType => SamePath(s.service.serviceType, t.service.serviceType, "ClusterIP")
       case ServicePorts => s.service.port == t.service.port
       case _ => true)
    case HPAKind =>
      (match slot
       case MinReplicas => s.replicas.min == t.replicas.min
       case MaxReplicas => SameCeiling(s, t)
       case TargetCpu => SameLoad(s, t)
       case _ => true)
    case HTTPRouteKind =>
      (match slot
       case Hostnames => s.gateway.host == t.gateway.host
       case ParentRefs => SameGateway(s.gateway.gatewayRef, t.gateway.gatewayRef)
       case PathPrefix => SamePath(s.gateway.pathPrefix, t.gateway.pathPrefix, "/")
       case Backend => s.service.port == t.service.port
       case _ => true)
    case NetworkPolicyKind => slot == IngressPort ==> s.service.port == t.service.port
    case PDBKind => slot == MaxUnavailable ==> (s.replicas.min > 4 <==> t.replicas.min > 4)
    case ServiceMonitorKind => true
  }

  /** The value a spec gives a slot of the Deployment. */
  function DeploymentValue(k: AppKey, s: Spec, slot: Slot): Option<Value> {
    DeploymentSlot(DesiredDeployment(AppOf(k, s)), slot)
  }

  lemma RolloutSlots(k: AppKey, s: Spec, t: Spec, slot: Slot)
    requires slot == StrategyType || slot == MaxUnavailable || slot == MaxSurge
    ensures DeploymentValue(k, s, slot) == DeploymentValue(k, t, slot) <==> DeploymentAgrees(s, t, slot)
  {
  }

  lemma ContainerSlots(k: AppKey, s: Spec, t: Spec, slot: Slot)
    requires slot != StrategyType && slot != MaxUnavailable && slot != MaxSurge
    ensures DeploymentValue(k, s, slot) == DeploymentValue(k, t, slot) <==> DeploymentAgrees(s, t, slot)
  {
  }

  lemma DeploymentSlots(k: AppKey, s: Spec, t: Spec, slot: Slot)
    ensures DeploymentValue(k, s, slot) == DeploymentValue(k, t, slot) <==> DeploymentAgrees(s, t, slot)
  {
    if slot == StrategyType || slot == MaxUnavailable || slot == MaxSurge {
      RolloutSlots(k, s, t, slot);
    } else {
      ContainerSlots(k, s, t, slot);
    }
  }

  /** A list of parents tells references apart that name different gateways. */
  lemma ParentsAgree(k: AppKey, s: Spec, t: Spec)
    ensures DesiredHTTPRoute(AppOf(k, s)).parentRefs == DesiredHTTPRoute(AppOf(k, t)).parentRefs
            <==> SameGateway(s.gateway.gatewayRef, t.gateway.gatewayRef)
  {
    JoinSplit(s.gateway.gatewayRef);
    JoinSplit(t.gateway.gatewayRef);
  }

  lemma RouteSlots(k: AppKey, s: Spec, t: Spec, slot: Slot)
    ensures Under(3, AppOf(k, s), slot) == Under(3, AppOf(k, t), slot) <==> AgreeAt(3, s, t, slot)
  {
    ParentsAgree(k, s, t);
  }

  lemma ServiceSlots(k: AppKey, s: Spec, t: Spec, slot: Slot)
    ensures Under(1, AppOf(k, s), slot) == Under(1, AppOf(k, t), slot) <==> AgreeAt(1, s, t, slot)
  {
  }

  lemma ScalerSlots(k: AppKey, s: Spec, t: Spec, slot: Slot)
    ensures Under(2, AppOf(k, s), slot) == Under(2, AppOf(k, t), slot) <==> AgreeAt(2, s, t, slot)
  {
  }

  lemma PolicySlots(k: AppKey, s: Spec, t: Spec, slot: Slot)
    ensures Under(4, AppOf(k, s), slot) == Under(4, AppOf(k, t), slot) <==> AgreeAt(4, s, t, slot)
  {
  }

  lemma BudgetSlots(k: AppKey, s: Spec, t: Spec, slot: Slot)
    ensures Under(5, AppOf(k, s), slot) == Under(5, AppOf(k, t), slot) <==> AgreeAt(5, s, t, slot)
  {
  }

  lemma MonitorSlots(k: AppKey, s: Spec, t: Spec, slot: Slot)
    ensures Under(6, AppOf(k, s), slot) == Under(6, AppOf(k, t), slot) <==> AgreeAt(6, s, t, slot)
  {
  }

  /** Two specs put the same value under a slot of child i, or both none, if and only if they
      agree on the part of the spec that this very slot is for. */
  lemma SlotsAgree(i: Step, k: AppKey, s: Spec, t: Spec, slot: Slot)
    ensures Under(i, AppOf(k, s), slot) == Under(i, AppOf(k, t), slot) <==> AgreeAt(i, s, t, slot)
  {
    match i
    case 0 => DeploymentSlots(k, s, t, slot);
    case 1 => ServiceSlots(k, s, t, slot);
    case 2 => ScalerSlots(k, s, t, slot);
    case 3 => RouteSlots(k, s, t, slot);
    case 4 => PolicySlots(k, s, t, slot);
    case 5 => BudgetSlots(k, s, t, slot);
    case _ => MonitorSlots(k, s, t, slot);
  }

  /* ---------- child by child ---------- */

  /** The parts of the spec that child i is made of, modulo clamps, fallbacks and the reading
      of rollout bounds. */
  predicate Agree(i: Step, s: Spec, t: Spec) {
    match KindAt(i)
    case DeploymentKind =>
      && s.image == t.image && s.service.port == t.service.port && SameFloor(s.replicas.min, t.replicas.min, 1)
      && s.resources == t.resources && s.configuration == t.configuration && SameProbePort(s, t)
      && SamePath(s.healthChecks.livenessPath, t.healthChecks.livenessPath, "/healthz")
      && SamePath(s.healthChecks.readinessPath, t.healthChecks.readinessPath, "/readyz")
      && SameStrategy(s, t) && SameMaxUnavailable(s, t) && SameMaxSurge(s, t)
    case ServiceKind =>
      s.service.port == t.service.port && SamePath(s.service.serviceType, t.service.serviceType, "ClusterIP")
    case HPAKind => s.replicas.min == t.replicas.min && SameCeiling(s, t) && SameLoad(s, t)
    case HTTPRouteKind =>
      && s.gateway.host == t.gateway.host && SameGateway(s.gateway.gatewayRef, t.gateway.gatewayRef)
      && SamePath(s.gateway.pathPrefix, t.gateway.pathPrefix, "/") && s.service.port == t.service.port
    case NetworkPolicyKind => s.service.port == t.service.port
    case PDBKind => s.replicas.min > 4 <==> t.replicas.min > 4
    case ServiceMonitorKind => true
  }

  /** With the tag fixed by the version label, the image text fixes the repository. */
  lemma ImageFixed(k: AppKey, s: Spec, t: Spec)
    requires PodLabels(AppOf(k, s)) == PodLabels(AppOf(k, t))
    requires s.image.repository + ":" + s.image.tag == t.image.repository + ":" + t.image.tag
    ensures s.image.repository == t.image.repository && s.image.tag == t.image.tag
  {
    GeneratorLaws.PodLabelsOf(AppOf(k, s));
    GeneratorLaws.PodLabelsOf(AppOf(k, t));
    var a, b := s.image.repository + ":" + s.image.tag, t.image.repository + ":" + t.image.tag;
    assert |s.image.repository| == |t.image.repository|;
    assert a[..|s.image.repository|] == s.image.repository && b[..|t.image.repository|] == t.image.repository;
  }

  lemma ConfigurationFixed(s: Spec, t: Spec)
    requires Env(s.configuration) == Env(t.configuration)
    ensures s.configuration == t.configuration
  {
    EnvDeterministic(s.configuration, Env(s.configuration));
    EnvDeterministic(t.configuration, Env(t.configuration));
  }

  /** The slots fix the parts listed for the Deployment, but for its image and its environment. */
  lemma RolloutFixed(s: Spec, t: Spec)
    requires forall slot :: DeploymentAgrees(s, t, slot)
    ensures SameFloor(s.replicas.min, t.replicas.min, 1)
    ensures SameStrategy(s, t) && SameMaxUnavailable(s, t) && SameMaxSurge(s, t)
  {
    assert DeploymentAgrees(s, t, ReplicaCount) && DeploymentAgrees(s, t, StrategyType);
    assert DeploymentAgrees(s, t, MaxUnavailable) && DeploymentAgrees(s, t, MaxSurge);
  }

  lemma ResourcesFixed(s: Spec, t: Spec)
    requires forall slot :: DeploymentAgrees(s, t, slot)
    ensures s.resources == t.resources
  {
    assert DeploymentAgrees(s, t, RequestsCpu) && DeploymentAgrees(s, t, RequestsMemory);
    assert DeploymentAgrees(s, t, LimitsCpu) && DeploymentAgrees(s, t, LimitsMemory);
  }

  lemma ContainerFixed(s: Spec, t: Spec)
    requires forall slot :: DeploymentAgrees(s, t, slot)
    ensures s.image.pullPolicy == t.image.pullPolicy && s.service.port == t.service.port && SameProbePort(s, t)
    ensures SamePath(s.healthChecks.livenessPath, t.healthChecks.livenessPath, "/healthz")
    ensures SamePath(s.healthChecks.readinessPath, t.healthChecks.readinessPath, "/readyz")
  {
    assert DeploymentAgrees(s, t, PullPolicy) && DeploymentAgrees(s, t, ContainerPorts);
    assert DeploymentAgrees(s, t, Liveness) && DeploymentAgrees(s, t, Readiness);
  }

  /** The parts of a Deployment that follow from the object. */
  lemma DeploymentOnlyIf(k: AppKey, s: Spec, t: Spec)
    requires DesiredDeployment(AppOf(k, s)) == DesiredDeployment(AppOf(k, t))
    ensures Agree(0, s, t)
  {
    forall slot ensures DeploymentAgrees(s, t, slot) {
      DeploymentSlots(k, s, t, slot);
    }
    RolloutFixed(s, t);
    ResourcesFixed(s, t);
    ContainerFixed(s, t);
    assert DeploymentAgrees(s, t, Image);
    ImageFixed(k, s, t);
    ConfigurationFixed(s, t);
  }

  lemma OthersOnlyIf(i: Step, k: AppKey, s: Spec, t: Spec)
    requires Desired(i, AppOf(k, s)) == Desired(i, AppOf(k, t)) && i != 0
    ensures Agree(i, s, t)
  {
    match i
    case 1 => ServiceOnlyIf(k, s, t);
    case 2 => ScalerOnlyIf(k, s, t);
    case 3 => RouteOnlyIf(k, s, t);
    case 4 => PolicySlots(k, s, t, IngressPort);
    case 5 => BudgetSlots(k, s, t, MaxUnavailable);
    case _ =>
  }

  lemma ServiceOnlyIf(k: AppKey, s: Spec, t: Spec)
    requires Desired(1, AppOf(k, s)) == Desired(1, AppOf(k, t))
    ensures Agree(1, s, t)
  {
    forall slot ensures AgreeAt(1, s, t, slot) {
      ServiceSlots(k, s, t, slot);
    }
    ServiceParts(s, t);
  }

  lemma ServiceParts(s: Spec, t: Spec)
    requires forall slot :: AgreeAt(1, s, t, slot)
    ensures Agree(1, s, t)
  {
    assert AgreeAt(1, s, t, ServiceType) && AgreeAt(1, s, t, ServicePorts);
  }

  lemma ScalerOnlyIf(k: AppKey, s: Spec, t: Spec)
    requires Desired(2, AppOf(k, s)) == Desired(2, AppOf(k, t))
    ensures Agree(2, s, t)
  {
    forall slot ensures AgreeAt(2, s, t, slot) {
      ScalerSlots(k, s, t, slot);
    }
    ScalerParts(s, t);
  }

  lemma ScalerParts(s: Spec, t: Spec)
    requires forall slot :: AgreeAt(2, s, t, slot)
    ensures Agree(2, s, t)
  {
    assert AgreeAt(2, s, t, MinReplicas) && AgreeAt(2, s, t, MaxReplicas) && AgreeAt(2, s, t, TargetCpu);
  }

  lemma RoutesAgree(k: AppKey, s: Spec, t: Spec)
    requires Desired(3, AppOf(k, s)) == Desired(3, AppOf(k, t))
    ensures s.gateway.host == t.gateway.host && SamePath(s.gateway.pathPrefix, t.gateway.pathPrefix, "/")
    ensures s.service.port == t.service.port
    ensures DesiredHTTPRoute(AppOf(k, s)).parentRefs == DesiredHTTPRoute(AppOf(k, t)).parentRefs
  {
    var a, b := DesiredHTTPRoute(AppOf(k, s)), DesiredHTTPRoute(AppOf(k, t));
    assert Desired(3, AppOf(k, s)) == AnHTTPRoute(a) && Desired(3, AppOf(k, t)) == AnHTTPRoute(b);
    assert a.hostnames == b.hostnames && a.pathPrefix == b.pathPrefix && a.backend == b.backend;
  }

  lemma RouteOnlyIf(k: AppKey, s: Spec, t: Spec)
    requires Desired(3, AppOf(k, s)) == Desired(3, AppOf(k, t))
    ensures Agree(3, s, t)
  {
    ParentsAgree(k, s, t);
    RoutesAgree(k, s, t);
  }

  lemma SameRollout(s: Spec, t: Spec)
    requires SameStrategy(s, t) && SameMaxUnavailable(s, t) && SameMaxSurge(s, t)
    ensures RolloutStrategy(s.rollout) == RolloutStrategy(t.rollout)
  {
  }

  lemma DeploymentIf(k: AppKey, s: Spec, t: Spec)
    requires Agree(0, s, t)
    ensures DesiredDeployment(AppOf(k, s)) == DesiredDeployment(AppOf(k, t))
  {
    SameRollout(s, t);
    assert DesiredContainer(AppOf(k, s)) == DesiredContainer(AppOf(k, t));
  }

  lemma OthersIf(i: Step, k: AppKey, s: Spec, t: Spec)
    requires Agree(i, s, t) && i != 0
    ensures Desired(i, AppOf(k, s)) == Desired(i, AppOf(k, t))
  {
    if KindAt(i).HTTPRouteKind? {
      ParentsAgree(k, s, t);
    }
  }

  /** An apply of child i sends the same object for two specs if and only if they agree on
      exactly the parts listed for that child: every other edit leaves the child alone, and
      every edit of a listed part reaches it. */
  lemma ManifestsAgree(i: Step, k: AppKey, s: Spec, t: Spec, uid: nat)
    ensures Manifest(i, AppOf(k, s), uid) == Manifest(i, AppOf(k, t), uid) <==> Agree(i, s, t)
  {
    if Manifest(i, AppOf(k, s), uid) == Manifest(i, AppOf(k, t), uid) {
      ManifestFaithful(i, AppOf(k, s), AppOf(k, t), uid);
      if i == 0 { DeploymentOnlyIf(k, s, t); } else { OthersOnlyIf(i, k, s, t); }
    }
    if Agree(i, s, t) {
      if i == 0 { DeploymentIf(k, s, t); } else { OthersIf(i, k, s, t); }
    }
  }

  /** An edit of the spec changes nothing the operator wants if and only if it switches no
      child on or off and touches no part of a child that is on. */
  lemma EditWithoutEffect(k: AppKey, s: Spec, t: Spec, uid: nat)
    ensures (forall i: Step :: OperatorPlan()(k, i, s, uid) == OperatorPlan()(k, i, t, uid))
            <==> forall i: Step :: (Wanted(i, s) <==> Wanted(i, t)) && (Wanted(i, s) ==> Agree(i, s, t))
  {
    forall i: Step
      ensures OperatorPlan()(k, i, s, uid) == OperatorPlan()(k, i, t, uid)
              <==> (Wanted(i, s) <==> Wanted(i, t)) && (Wanted(i, s) ==> Agree(i, s, t))
    {
      ManifestsAgree(i, k, s, t, uid);
    }
  }
}
