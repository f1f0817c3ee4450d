/** Conversion between the spoke version and the hub (storage) version, and how it
    meets the webhooks of the two versions. */
module Conversion {
  import opened Meta
  import A = V1Alpha1
  import B = V1Beta1

  type Spoke = Object<A.Spec, A.Status>
  type Hub = Object<B.Spec, B.Status>

  function SpecToHub(s: A.Spec): B.Spec {
    B.Spec(
      image := B.ImageSpec(repository := s.image.repository, tag := s.image.tag, pullPolicy := s.image.pullPolicy),
      replicas := B.ReplicasSpec(min := s.replicas.min, max := s.replicas.max),
      service := B.ServiceSpec(port := s.service.port, serviceType := s.service.serviceType),
      configuration := s.configuration,
      envFrom := [],
      podAnnotations := map[],
      autoscaling := B.AutoscalingSpec(enabled := s.autoscaling.enabled,
                                       targetCPUUtilization := s.autoscaling.targetCPUUtilization),
      gateway := B.GatewaySpec(enabled := s.gateway.enabled, host := s.gateway.host,
                               gatewayRef := s.gateway.gatewayRef, pathPrefix := s.gateway.pathPrefix),
      observability := B.ObservabilitySpec(metrics := s.observability.metrics),
      security := B.SecuritySpec(networkPolicy := s.security.networkPolicy),
      resources := B.ResourcesSpec(
        requests := B.ResourceSpec(cpu := s.resources.requests.cpu, memory := s.resources.requests.memory),
        limits := B.ResourceSpec(cpu := s.resources.limits.cpu, memory := s.resources.limits.memory)),
      healthChecks := B.HealthChecksSpec(livenessPath := s.healthChecks.livenessPath,
                                         readinessPath := s.healthChecks.readinessPath, port := s.healthChecks.port),
      rollout := B.RolloutSpec(strategy := s.rollout.strategy, maxUnavailable := s.rollout.maxUnavailable,
                               maxSurge := s.rollout.maxSurge))
  }

  function SpecToSpoke(s: B.Spec): A.Spec {
    A.Spec(
      image := A.ImageSpec(repository := s.image.repository, tag := s.image.tag, pullPolicy := s.image.pullPolicy),
      replicas := A.ReplicasSpec(min := s.replicas.min, max := s.replicas.max),
      service := A.ServiceSpec(port := s.service.port, serviceType := s.service.serviceType),
      configuration := s.configuration,
      autoscaling := A.AutoscalingSpec(enabled := s.autoscaling.enabled,
                                       targetCPUUtilization := s.autoscaling.targetCPUUtilization),
      gateway := A.GatewaySpec(enabled := s.gateway.enabled, host := s.gateway.host,
                               gatewayRef := s.gateway.gatewayRef, pathPrefix := s.gateway.pathPrefix),
      observability := A.ObservabilitySpec(metrics := s.observability.metrics),
      security := A.SecuritySpec(networkPolicy := s.security.networkPolicy),
      resources := A.ResourcesSpec(
        requests := A.ResourceSpec(cpu := s.resources.requests.cpu, memory := s.resources.requests.memory),
        limits := A.ResourceSpec(cpu := s.resources.limits.cpu, memory := s.resources.limits.memory)),
      healthChecks := A.HealthChecksSpec(livenessPath := s.healthChecks.livenessPath,
                                         readinessPath := s.healthChecks.readinessPath, port := s.healthChecks.port),
      rollout := A.RolloutSpec(strategy := s.rollout.strategy, maxUnavailable := s.rollout.maxUnavailable,
                               maxSurge := s.rollout.maxSurge))
  }

  function StatusToHub(s: A.Status): B.Status {
    B.Status(observedGeneration := s.observedGeneration, readyReplicas := s.readyReplicas, url := s.url,
             conditions := s.conditions, deployedVersion := s.deployedVersion)
  }

  function StatusToSpoke(s: B.Status): A.Status {
    A.Status(observedGeneration := s.observedGeneration, readyReplicas := s.readyReplicas, url := s.url,
             conditions := s.conditions, deployedVersion := s.deployedVersion)
  }

  function ToHub(a: Spoke): Hub {
    Object(a.meta, SpecToHub(a.spec), StatusToHub(a.status))
  }

  function ToSpoke(b: Hub): Spoke {
    Object(b.meta, SpecToSpoke(b.spec), StatusToSpoke(b.status))
  }

  /** Writes the hub form of src over every field of dst. */
  method ConvertTo(src: A.PlatformApplication, dst: B.PlatformApplication)
    modifies dst
    ensures Object(dst.meta, dst.spec, dst.status) == ToHub(Object(src.meta, src.spec, src.status))
  {
    dst.meta := src.meta;
    dst.spec := dst.spec.(
      image := B.ImageSpec(src.spec.image.repository, src.spec.image.tag, src.spec.image.pullPolicy),
      replicas := B.ReplicasSpec(src.spec.replicas.min, src.spec.replicas.max),
      service := B.ServiceSpec(src.spec.service.port, src.spec.service.serviceType),
      configuration := src.spec.configuration);
    dst.spec := dst.spec.(
      autoscaling := B.AutoscalingSpec(src.spec.autoscaling.enabled, src.spec.autoscaling.targetCPUUtilization),
      gateway := B.GatewaySpec(src.spec.gateway.enabled, src.spec.gateway.host,
                               src.spec.gateway.gatewayRef, src.spec.gateway.pathPrefix),
      observability := B.ObservabilitySpec(src.spec.observability.metrics),
      security := B.SecuritySpec(src.spec.security.networkPolicy));
    dst.spec := dst.spec.(
      resources := B.ResourcesSpec(
        B.ResourceSpec(src.spec.resources.requests.cpu, src.spec.resources.requests.memory),
        B.ResourceSpec(src.spec.resources.limits.cpu, src.spec.resources.limits.memory)),
      healthChecks := B.HealthChecksSpec(src.spec.healthChecks.livenessPath,
                                         src.spec.healthChecks.readinessPath, src.spec.healthChecks.port),
      rollout := B.RolloutSpec(src.spec.rollout.strategy, src.spec.rollout.maxUnavailable, src.spec.rollout.maxSurge));
    dst.spec := dst.spec.(envFrom := [], podAnnotations := map[]);
    dst.status := B.Status(src.status.observedGeneration, src.status.readyReplicas, src.status.url,
                           src.status.conditions, src.status.deployedVersion);
  }

  /** Writes the spoke form of src over every field of dst. */
  method ConvertFrom(dst: A.PlatformApplication, src: B.PlatformApplication)
    modifies dst
    ensures Object(dst.meta, dst.spec, dst.status) == ToSpoke(Object(src.meta, src.spec, src.status))
  {
    dst.meta := src.meta;
    dst.spec := dst.spec.(
      image := A.ImageSpec(src.spec.image.repository, src.spec.image.tag, src.spec.image.pullPolicy),
      replicas := A.ReplicasSpec(src.spec.replicas.min, src.spec.replicas.max),
      service := A.ServiceSpec(src.spec.service.port, src.spec.service.serviceType),
      configuration := src.spec.configuration);
    dst.spec := dst.spec.(
      autoscaling := A.AutoscalingSpec(src.spec.autoscaling.enabled, src.spec.autoscaling.targetCPUUtilization),
      gateway := A.GatewaySpec(src.spec.gateway.enabled, src.spec.gateway.host,
                               src.spec.gateway.gatewayRef, src.spec.gateway.pathPrefix),
      observability := A.ObservabilitySpec(src.spec.observability.metrics),
      security := A.SecuritySpec(src.spec.security.networkPolicy));
    dst.spec := dst.spec.(
      resources := A.ResourcesSpec(
        A.ResourceSpec(src.spec.resources.requests.cpu, src.spec.resources.requests.memory),
        A.ResourceSpec(src.spec.resources.limits.cpu, src.spec.resources.limits.memory)),
      healthChecks := A.HealthChecksSpec(src.spec.healthChecks.livenessPath,
                                         src.spec.healthChecks.readinessPath, src.spec.healthChecks.port),
      rollout := A.RolloutSpec(src.spec.rollout.strategy, src.spec.rollout.maxUnavailable, src.spec.rollout.maxSurge));
    dst.status := A.Status(src.status.observedGeneration, src.status.readyReplicas, src.status.url,
                           src.status.conditions, src.status.deployedVersion);
  }

  /** Spoke to hub to spoke is the identity on metadata, spec and status. */
  lemma SpokeRoundTrip(a: Spoke)
    ensures ToSpoke(ToHub(a)) == a
  {
    assert SpecToSpoke(SpecToHub(a.spec)) == a.spec;
  }

  /** Hub to spoke to hub keeps everything but the two hub-only fields, which come back empty. */
  lemma HubRoundTrip(b: Hub)
    ensures ToHub(ToSpoke(b)) == b.(spec := b.spec.(envFrom := [], podAnnotations := map[]))
    ensures ToHub(ToSpoke(ToHub(ToSpoke(b)))) == ToHub(ToSpoke(b))
  {
    SpokeRoundTrip(ToSpoke(b));
    assert SpecToHub(SpecToSpoke(b.spec)) == b.spec.(envFrom := [], podAnnotations := map[]);
  }

  /** The round trip through the spoke loses nothing exactly when the hub-only fields are unset. */
  lemma HubLossless(b: Hub)
    ensures ToHub(ToSpoke(b)) == b <==> b.spec.envFrom == [] && b.spec.podAnnotations == map[]
  {
    HubRoundTrip(b);
  }

  /** Both directions keep every shared field under its own JSON path. */
  lemma ConversionKeepsWire(a: A.Spec, b: B.Spec)
    ensures B.Wire(SpecToHub(a)) == A.Wire(a)
    ensures A.Wire(SpecToSpoke(b)) == B.Wire(b)
  {
  }

  /** The wire form determines a spoke spec. */
  lemma WireDetermines(a: A.Spec, b: A.Spec)
    requires A.Wire(a) == A.Wire(b)
    ensures a == b
  {
    assert forall i :: 0 <= i < 26 ==> A.Wire(a)[i] == A.Wire(b)[i];
  }

  /** Converting commutes with defaulting in both directions. */
  lemma ConvertDefaultCommute(a: A.Spec, b: B.Spec)
    ensures SpecToHub(A.Defaulted(a)) == B.Defaulted(SpecToHub(a))
    ensures SpecToSpoke(B.Defaulted(b)) == A.Defaulted(SpecToSpoke(b))
  {
  }

  /** Both validators reach the same verdict with the same warnings. */
  lemma ValidatorsAgree(a: A.Spec, b: B.Spec)
    ensures B.Validate(SpecToHub(a)) == A.Validate(a)
    ensures A.Validate(SpecToSpoke(b)) == B.Validate(b)
  {
  }

  /** Defaulting twice changes nothing more, in either version. */
  lemma DefaultIdempotent(a: A.Spec, b: B.Spec)
    ensures A.Defaulted(A.Defaulted(a)) == A.Defaulted(a)
    ensures B.Defaulted(B.Defaulted(b)) == B.Defaulted(b)
  {
  }

  /** Storing an already defaulted spec again through the spoke leaves it defaulted:
      the webhook on the controller's own writes changes nothing. */
  lemma ControllerWriteStaysDefaulted(b: B.Spec)
    requires B.Defaulted(b) == b
    ensures B.Defaulted(SpecToHub(SpecToSpoke(b))) == SpecToHub(SpecToSpoke(b))
  {
    ConvertDefaultCommute(SpecToSpoke(b), b);
  }

  /** Defaulting never turns an admitted spec into a rejected one, and it rescues
      nothing: the verdict is the same. */
  lemma DefaultKeepsVerdict(a: A.Spec)
    ensures A.Validate(A.Defaulted(a)).Admitted? <==> A.Validate(a).Admitted?
  {
  }

  /** The rules of admission, each on its own. */
  predicate Violates(s: A.Spec, v: Violation) {
    match v
    case MinAboveMax => 0 < s.replicas.max < s.replicas.min
    case MinBelowOne => s.replicas.min < 1
    case NoRepository => s.image.repository == ""
    case NoTag => s.image.tag == ""
    case PortOutOfRange => !(1 <= s.service.port <= 65535)
  }

  predicate Warns(s: A.Spec, w: Warning) {
    match w
    case HpaNoEffect => s.autoscaling.enabled && s.replicas.min == s.replicas.max
    case MatchesAllHosts => s.gateway.enabled && s.gateway.host == ""
  }

  /** The rules that are tried before this one. */
  function Before(v: Violation): set<Violation> {
    match v
    case MinAboveMax => {}
    case MinBelowOne => {MinAboveMax}
    case NoRepository => {MinAboveMax, MinBelowOne}
    case NoTag => {MinAboveMax, MinBelowOne, NoRepository}
    case PortOutOfRange => {MinAboveMax, MinBelowOne, NoRepository, NoTag}
  }

  function Warned(s: A.Spec, w: Warning): seq<Warning> {
    if Warns(s, w) then [w] else []
  }

  /** A spec is admitted exactly when it violates no rule; a rejection names the first rule that
      is violated, and an admission warns of exactly what is to be warned of, in order. */
  lemma VerdictExact(s: A.Spec)
    ensures A.Validate(s).Admitted? <==> forall v: Violation :: !Violates(s, v)
    ensures forall v :: A.Validate(s) == Rejected(v) <==>
                        Violates(s, v) && forall u :: u in Before(v) ==> !Violates(s, u)
    ensures A.Validate(s).Admitted? ==> A.Validate(s).warnings == Warned(s, HpaNoEffect) + Warned(s, MatchesAllHosts)
  {
    assert Violates(s, MinAboveMax) || Violates(s, MinBelowOne) || Violates(s, NoRepository) || Violates(s, NoTag)
           || Violates(s, PortOutOfRange) || A.Validate(s).Admitted?;
    forall v ensures A.Validate(s) == Rejected(v) <==>
                     Violates(s, v) && forall u :: u in Before(v) ==> !Violates(s, u)
    {
      FirstViolated(s, v);
    }
  }

  lemma FirstViolated(s: A.Spec, v: Violation)
    ensures A.Validate(s) == Rejected(v) <==> Violates(s, v) && forall u :: u in Before(v) ==> !Violates(s, u)
  {
    var tried := Before(v);
    assert MinAboveMax in tried <==> v != MinAboveMax;
    assert MinBelowOne in tried <==> v != MinAboveMax && v != MinBelowOne;
    assert NoRepository in tried <==> v == NoTag || v == PortOutOfRange;
    assert NoTag in tried <==> v == PortOutOfRange;
  }

  function IfUnset(text: string, fallback: string): string {
    if text == "" then fallback else text
  }

  /** What defaulting does: eight fields get their own fallback where they are unset, two of
      them only where their feature is on; every other field keeps its value. */
  lemma DefaultsExact(s: A.Spec)
    ensures var d := A.Defaulted(s);
            && d.image.pullPolicy == IfUnset(s.image.pullPolicy, "IfNotPresent")
            && d.replicas.max == (if s.replicas.max == 0 then s.replicas.min else s.replicas.max)
            && d.service.serviceType == IfUnset(s.service.serviceType, "ClusterIP")
            && d.autoscaling.targetCPUUtilization ==
                 (if s.autoscaling.enabled && s.autoscaling.targetCPUUtilization == 0 then 80
                  else s.autoscaling.targetCPUUtilization)
            && d.gateway.pathPrefix ==
                 (if s.gateway.enabled then IfUnset(s.gateway.pathPrefix, "/") else s.gateway.pathPrefix)
            && d.healthChecks.livenessPath == IfUnset(s.healthChecks.livenessPath, "/healthz")
            && d.healthChecks.readinessPath == IfUnset(s.healthChecks.readinessPath, "/readyz")
            && d.rollout.strategy == IfUnset(s.rollout.strategy, "RollingUpdate")
    ensures var d := A.Defaulted(s);
            d == s.(image := s.image.(pullPolicy := d.image.pullPolicy),
                    replicas := s.replicas.(max := d.replicas.max),
                    service := s.service.(serviceType := d.service.serviceType),
                    autoscaling := s.autoscaling.(targetCPUUtilization := d.autoscaling.targetCPUUtilization),
                    gateway := s.gateway.(pathPrefix := d.gateway.pathPrefix),
                    healthChecks := s.healthChecks.(livenessPath := d.healthChecks.livenessPath,
                                                    readinessPath := d.healthChecks.readinessPath),
                    rollout := s.rollout.(strategy := d.rollout.strategy))
  {
  }
}
