/** Kubernetes metadata shared by both API versions, and the admission verdicts. */
module Meta {
  type int32 = x: int | -0x8000_0000 <= x <= 0x7FFF_FFFF

  datatype ObjectMeta = ObjectMeta(
    namespace: string,
    name: string,
    uid: nat,
    resourceVersion: nat,
    generation: nat,
    deleting: bool,
    finalizers: seq<string>)

  datatype ConditionStatus = True | False | Unknown

  datatype ConditionType = Ready | Progressing | Degraded | ConfigurationValid | Custom(name: string)

  datatype Condition = Condition(
    conditionType: ConditionType, status: ConditionStatus, reason: string, message: string, lastTransitionTime: nat)

  /** A namespaced object with a spec of type S and a status of type T. */
  datatype Object<S, T> = Object(meta: ObjectMeta, spec: S, status: T)

  datatype Json = Str(str: string) | Number(number: int) | Flag(flag: bool) | Table(entries: map<string, string>)

  datatype Violation = MinAboveMax | MinBelowOne | NoRepository | NoTag | PortOutOfRange

  datatype Warning = HpaNoEffect | MatchesAllHosts

  datatype Verdict = Rejected(violation: Violation) | Admitted(warnings: seq<Warning>)
}

/** API version v1alpha1: the spoke version, which the controller reads and writes. */
module V1Alpha1 {
  import opened Meta

  datatype ImageSpec = ImageSpec(repository: string, tag: string, pullPolicy: string)

  datatype ReplicasSpec = ReplicasSpec(min: int32, max: int32)

  datatype ServiceSpec = ServiceSpec(port: int32, serviceType: string)

  datatype AutoscalingSpec = AutoscalingSpec(enabled: bool, targetCPUUtilization: int32)

  datatype GatewaySpec = GatewaySpec(enabled: bool, host: string, gatewayRef: string, pathPrefix: string)

  datatype ObservabilitySpec = ObservabilitySpec(metrics: bool)

  datatype SecuritySpec = SecuritySpec(networkPolicy: bool)

  datatype ResourceSpec = ResourceSpec(cpu: string, memory: string)

  datatype ResourcesSpec = ResourcesSpec(requests: ResourceSpec, limits: ResourceSpec)

  datatype HealthChecksSpec = HealthChecksSpec(livenessPath: string, readinessPath: string, port: int32)

  datatype RolloutSpec = RolloutSpec(strategy: string, maxUnavailable: string, maxSurge: string)

  datatype Spec = Spec(
    image: ImageSpec,
    replicas: ReplicasSpec,
    service: ServiceSpec,
    configuration: map<string, string>,
    autoscaling: AutoscalingSpec,
    gateway: GatewaySpec,
    observability: ObservabilitySpec,
    security: SecuritySpec,
    resources: ResourcesSpec,
    healthChecks: HealthChecksSpec,
    rollout: RolloutSpec)

  datatype Status = Status(
    observedGeneration: int,
    readyReplicas: int32,
    url: string,
    conditions: seq<Condition>,
    deployedVersion: string)

  const EMPTY_STATUS := Status(0, 0, "", [], "")

  /** The object's wire form: each JSON path of the shared fields with its value. */
  function Wire(s: Spec): seq<(string, Json)> {
    [
      ("image.repository", Str(s.image.repository)),
      ("image.tag", Str(s.image.tag)),
      ("image.pullPolicy", Str(s.image.pullPolicy)),
      ("replicas.min", Number(s.replicas.min)),
      ("replicas.max", Number(s.replicas.max)),
      ("service.port", Number(s.service.port)),
      ("service.type", Str(s.service.serviceType)),
      ("configuration", Table(s.configuration)),
      ("autoscaling.enabled", Flag(s.autoscaling.enabled)),
      ("autoscaling.targetCPUUtilization", Number(s.autoscaling.targetCPUUtilization)),
      ("gateway.enabled", Flag(s.gateway.enabled)),
      ("gateway.host", Str(s.gateway.host)),
      ("gateway.gatewayRef", Str(s.gateway.gatewayRef)),
      ("gateway.pathPrefix", Str(s.gateway.pathPrefix)),
      ("observability.metrics", Flag(s.observability.metrics)),
      ("security.networkPolicy", Flag(s.security.networkPolicy)),
      ("resources.requests.cpu", Str(s.resources.requests.cpu)),
      ("resources.requests.memory", Str(s.resources.requests.memory)),
      ("resources.limits.cpu", Str(s.resources.limits.cpu)),
      ("resources.limits.memory", Str(s.resources.limits.memory)),
      ("healthChecks.livenessPath", Str(s.healthChecks.livenessPath)),
      ("healthChecks.readinessPath", Str(s.healthChecks.readinessPath)),
      ("healthChecks.port", Number(s.healthChecks.port)),
      ("rollout.strategy", Str(s.rollout.strategy)),
      ("rollout.maxUnavailable", Str(s.rollout.maxUnavailable)),
      ("rollout.maxSurge", Str(s.rollout.maxSurge))
    ]
  }

  /* ---------- admission ---------- */

  function DefaultedWorkload(s: Spec): Spec {
    s.(image := if s.image.pullPolicy == "" then s.image.(pullPolicy := "IfNotPresent") else s.image,
       replicas := if s.replicas.max == 0 then s.replicas.(max := s.replicas.min) else s.replicas,
       service := if s.service.serviceType == "" then s.service.(serviceType := "ClusterIP") else s.service)
  }

  function DefaultedScalingAndProbes(s: Spec): Spec {
    s.(autoscaling := if s.autoscaling.enabled && s.autoscaling.targetCPUUtilization == 0
                      then s.autoscaling.(targetCPUUtilization := 80) else s.autoscaling,
       healthChecks := s.healthChecks.(
         livenessPath := if s.healthChecks.livenessPath == "" then "/healthz" else s.healthChecks.livenessPath,
         readinessPath := if s.healthChecks.readinessPath == "" then "/readyz" else s.healthChecks.readinessPath))
  }

  function DefaultedTraffic(s: Spec): Spec {
    s.(rollout := if s.rollout.strategy == "" then s.rollout.(strategy := "RollingUpdate") else s.rollout,
       gateway := if s.gateway.enabled && s.gateway.pathPrefix == ""
                  then s.gateway.(pathPrefix := "/") else s.gateway)
  }

  /** The value the defaulting webhook leaves behind. */
  function Defaulted(s: Spec): Spec {
    DefaultedTraffic(DefaultedScalingAndProbes(DefaultedWorkload(s)))
  }

  /** The validating webhook: the first failing rule in source order, or the warnings. */
  function Validate(s: Spec): Verdict {
    if s.replicas.max > 0 && s.replicas.min > s.replicas.max then Rejected(MinAboveMax)
    else if s.replicas.min < 1 then Rejected(MinBelowOne)
    else if s.image.repository == "" then Rejected(NoRepository)
    else if s.image.tag == "" then Rejected(NoTag)
    else if s.service.port < 1 || s.service.port > 65535 then Rejected(PortOutOfRange)
    else
      var w := if s.autoscaling.enabled && s.replicas.min == s.replicas.max then [HpaNoEffect] else [];
      Admitted(if s.gateway.enabled && s.gateway.host == "" then w + [MatchesAllHosts] else w)
  }

  /** The stored object, updated in place by the webhook. */
  class PlatformApplication {
    var meta: ObjectMeta
    var spec: Spec
    var status: Status

    constructor (meta: ObjectMeta, spec: Spec, status: Status)
      ensures this.meta == meta && this.spec == spec && this.status == status
    {
      this.meta, this.spec, this.status := meta, spec, status;
    }

    /** The webhook's assignments run in source order; the three helpers group them. */
    method Default()
      modifies this`spec
      ensures spec == Defaulted(old(spec))
    {
      DefaultWorkload();
      DefaultScalingAndProbes();
      DefaultTraffic();
    }

    method DefaultWorkload()
      modifies this`spec
      ensures spec == DefaultedWorkload(old(spec))
    {
      if spec.image.pullPolicy == "" {
        spec := spec.(image := spec.image.(pullPolicy := "IfNotPresent"));
      }
      if spec.replicas.max == 0 {
        spec := spec.(replicas := spec.replicas.(max := spec.replicas.min));
      }
      if spec.service.serviceType == "" {
        spec := spec.(service := spec.service.(serviceType := "ClusterIP"));
      }
    }

    method DefaultScalingAndProbes()
      modifies this`spec
      ensures spec == DefaultedScalingAndProbes(old(spec))
    {
      if spec.autoscaling.enabled && spec.autoscaling.targetCPUUtilization == 0 {
        spec := spec.(autoscaling := spec.autoscaling.(targetCPUUtilization := 80));
      }
      if spec.healthChecks.livenessPath == "" {
        spec := spec.(healthChecks := spec.healthChecks.(livenessPath := "/healthz"));
      }
      if spec.healthChecks.readinessPath == "" {
        spec := spec.(healthChecks := spec.healthChecks.(readinessPath := "/readyz"));
      }
    }

    method DefaultTraffic()
      modifies this`spec
      ensures spec == DefaultedTraffic(old(spec))
    {
      if spec.rollout.strategy == "" {
        spec := spec.(rollout := spec.rollout.(strategy := "RollingUpdate"));
      }
      if spec.gateway.enabled && spec.gateway.pathPrefix == "" {
        spec := spec.(gateway := spec.gateway.(pathPrefix := "/"));
      }
    }
  }
}

/** API version v1beta1: the storage version and conversion hub. */
module V1Beta1 {
  import opened Meta

  datatype ImageSpec = ImageSpec(repository: string, tag: string, pullPolicy: string)

  datatype ReplicasSpec = ReplicasSpec(min: int32, max: int32)

  datatype ServiceSpec = ServiceSpec(port: int32, serviceType: string)

  datatype AutoscalingSpec = AutoscalingSpec(enabled: bool, targetCPUUtilization: int32)

  datatype GatewaySpec = GatewaySpec(enabled: bool, host: string, gatewayRef: string, pathPrefix: string)

  datatype ObservabilitySpec = ObservabilitySpec(metrics: bool)

  datatype SecuritySpec = SecuritySpec(networkPolicy: bool)

  datatype ResourceSpec = ResourceSpec(cpu: string, memory: string)

  datatype ResourcesSpec = ResourcesSpec(requests: ResourceSpec, limits: ResourceSpec)

  datatype HealthChecksSpec = HealthChecksSpec(livenessPath: string, readinessPath: string, port: int32)

  datatype RolloutSpec = RolloutSpec(strategy: string, maxUnavailable: string, maxSurge: string)

  datatype Spec = Spec(
    image: ImageSpec,
    replicas: ReplicasSpec,
    service: ServiceSpec,
    configuration: map<string, string>,
    envFrom: seq<string>,
    podAnnotations: map<string, string>,
    autoscaling: AutoscalingSpec,
    gateway: GatewaySpec,
    observability: ObservabilitySpec,
    security: SecuritySpec,
    resources: ResourcesSpec,
    healthChecks: HealthChecksSpec,
    rollout: RolloutSpec)

  datatype Status = Status(
    observedGeneration: int,
    readyReplicas: int32,
    url: string,
    conditions: seq<Condition>,
    deployedVersion: string)

  const EMPTY_STATUS := Status(0, 0, "", [], "")

  /** The object's wire form: each JSON path of the shared fields with its value. */
  function Wire(s: Spec): seq<(string, Json)> {
    [
      ("image.repository", Str(s.image.repository)),
      ("image.tag", Str(s.image.tag)),
      ("image.pullPolicy", Str(s.image.pullPolicy)),
      ("replicas.min", Number(s.replicas.min)),
      ("replicas.max", Number(s.replicas.max)),
      ("service.port", Number(s.service.port)),
      ("service.type", Str(s.service.serviceType)),
      ("configuration", Table(s.configuration)),
      ("autoscaling.enabled", Flag(s.autoscaling.enabled)),
      ("autoscaling.targetCPUUtilization", Number(s.autoscaling.targetCPUUtilization)),
      ("gateway.enabled", Flag(s.gateway.enabled)),
      ("gateway.host", Str(s.gateway.host)),
      ("gateway.gatewayRef", Str(s.gateway.gatewayRef)),
      ("gateway.pathPrefix", Str(s.gateway.pathPrefix)),
      ("observability.metrics", Flag(s.observability.metrics)),
      ("security.networkPolicy", Flag(s.security.networkPolicy)),
      ("resources.requests.cpu", Str(s.resources.requests.cpu)),
      ("resources.requests.memory", Str(s.resources.requests.memory)),
      ("resources.limits.cpu", Str(s.resources.limits.cpu)),
      ("resources.limits.memory", Str(s.resources.limits.memory)),
      ("healthChecks.livenessPath", Str(s.healthChecks.livenessPath)),
      ("healthChecks.readinessPath", Str(s.healthChecks.readinessPath)),
      ("healthChecks.port", Number(s.healthChecks.port)),
      ("rollout.strategy", Str(s.rollout.strategy)),
      ("rollout.maxUnavailable", Str(s.rollout.maxUnavailable)),
      ("rollout.maxSurge", Str(s.rollout.maxSurge))
    ]
  }

  /* ---------- admission ---------- */

  function DefaultedWorkload(s: Spec): Spec {
    s.(image := if s.image.pullPolicy == "" then s.image.(pullPolicy := "IfNotPresent") else s.image,
       replicas := if s.replicas.max == 0 then s.replicas.(max := s.replicas.min) else s.replicas,
       service := if s.service.serviceType == "" then s.service.(serviceType := "ClusterIP") else s.service)
  }

  function DefaultedScalingAndProbes(s: Spec): Spec {
    s.(autoscaling := if s.autoscaling.enabled && s.autoscaling.targetCPUUtilization == 0
                      then s.autoscaling.(targetCPUUtilization := 80) else s.autoscaling,
       healthChecks := s.healthChecks.(
         livenessPath := if s.healthChecks.livenessPath == "" then "/healthz" else s.healthChecks.livenessPath,
         readinessPath := if s.healthChecks.readinessPath == "" then "/readyz" else s.healthChecks.readinessPath))
  }

  function DefaultedTraffic(s: Spec): Spec {
    s.(rollout := if s.rollout.strategy == "" then s.rollout.(strategy := "RollingUpdate") else s.rollout,
       gateway := if s.gateway.enabled && s.gateway.pathPrefix == ""
                  then s.gateway.(pathPrefix := "/") else s.gateway)
  }

  /** The value the defaulting webhook leaves behind. */
  function Defaulted(s: Spec): Spec {
    DefaultedTraffic(DefaultedScalingAndProbes(DefaultedWorkload(s)))
  }

  /** The validating webhook: the first failing rule in source order, or the warnings. */
  function Validate(s: Spec): Verdict {
    if s.replicas.max > 0 && s.replicas.min > s.replicas.max then Rejected(MinAboveMax)
    else if s.replicas.min < 1 then Rejected(MinBelowOne)
    else if s.image.repository == "" then Rejected(NoRepository)
    else if s.image.tag == "" then Rejected(NoTag)
    else if s.service.port < 1 || s.service.port > 65535 then Rejected(PortOutOfRange)
    else
      var w := if s.autoscaling.enabled && s.replicas.min == s.replicas.max then [HpaNoEffect] else [];
      Admitted(if s.gateway.enabled && s.gateway.host == "" then w + [MatchesAllHosts] else w)
  }

  /** The stored object, updated in place by the webhook. */
  class PlatformApplication {
    var meta: ObjectMeta
    var spec: Spec
    var status: Status

    constructor (meta: ObjectMeta, spec: Spec, status: Status)
      ensures this.meta == meta && this.spec == spec && this.status == status
    {
      this.meta, this.spec, this.status := meta, spec, status;
    }

    /** The webhook's assignments run in source order; the three helpers group them. */
    method Default()
      modifies this`spec
      ensures spec == Defaulted(old(spec))
    {
      DefaultWorkload();
      DefaultScalingAndProbes();
      DefaultTraffic();
    }

    method DefaultWorkload()
      modifies this`spec
      ensures spec == DefaultedWorkload(old(spec))
    {
      if spec.image.pullPolicy == "" {
        spec := spec.(image := spec.image.(pullPolicy := "IfNotPresent"));
      }
      if spec.replicas.max == 0 {
        spec := spec.(replicas := spec.replicas.(max := spec.replicas.min));
      }
      if spec.service.serviceType == "" {
        spec := spec.(service := spec.service.(serviceType := "ClusterIP"));
      }
    }

    method DefaultScalingAndProbes()
      modifies this`spec
      ensures spec == DefaultedScalingAndProbes(old(spec))
    {
      if spec.autoscaling.enabled && spec.autoscaling.targetCPUUtilization == 0 {
        spec := spec.(autoscaling := spec.autoscaling.(targetCPUUtilization := 80));
      }
      if spec.healthChecks.livenessPath == "" {
        spec := spec.(healthChecks := spec.healthChecks.(livenessPath := "/healthz"));
      }
      if spec.healthChecks.readinessPath == "" {
        spec := spec.(healthChecks := spec.healthChecks.(readinessPath := "/readyz"));
      }
    }

    method DefaultTraffic()
      modifies this`spec
      ensures spec == DefaultedTraffic(old(spec))
    {
      if spec.rollout.strategy == "" {
        spec := spec.(rollout := spec.rollout.(strategy := "RollingUpdate"));
      }
      if spec.gateway.enabled && spec.gateway.pathPrefix == "" {
        spec := spec.(gateway := spec.gateway.(pathPrefix := "/"));
      }
    }
  }
}
