/** What the generated objects mean to each other and to Kubernetes. */
module GeneratorLaws {
  import opened Meta
  import opened V1Alpha1
  import opened Text
  import opened Labels
  import opened Generators

  /* ---------- environment ---------- */

  /** The configuration a list of environment variables sets, later entries winning. */
  function Folded(env: seq<EnvVar>): map<string, string> {
    if env == [] then map[] else Folded(env[..|env| - 1])[env[|env| - 1].name := env[|env| - 1].value]
  }

  ghost predicate SortedByName(env: seq<EnvVar>) {
    forall i, j :: 0 <= i < j < |env| ==> Less(env[i].name, env[j].name)
  }

  lemma {:induction false} FoldedSorted(env: seq<EnvVar>)
    requires SortedByName(env)
    ensures forall k :: k in Folded(env) <==> exists i :: 0 <= i < |env| && env[i].name == k
    ensures forall i :: 0 <= i < |env| ==> env[i].name in Folded(env) && Folded(env)[env[i].name] == env[i].value
  {
    if env == [] {
    } else {
      var init := env[..|env| - 1];
      FoldedSorted(init);
      forall i | 0 <= i < |init| ensures env[i].name != env[|env| - 1].name {
        LessTrichotomy(env[i].name, env[i].name);
        assert Less(env[i].name, env[|env| - 1].name);
      }
      assert forall i :: 0 <= i < |init| ==> init[i] == env[i];
      forall k | k in Folded(env) ensures exists i :: 0 <= i < |env| && env[i].name == k {
        if k in Folded(init) {
          var i :| 0 <= i < |init| && init[i].name == k;
          assert env[i].name == k;
        } else {
          assert env[|env| - 1].name == k;
        }
      }
      forall i | 0 <= i < |env|
        ensures env[i].name in Folded(env) && Folded(env)[env[i].name] == env[i].value
      {
        if i < |init| { assert init[i].name in Folded(init); }
      }
    }
  }

  function Names(env: seq<EnvVar>): (ks: seq<string>)
    ensures |ks| == |env|
    ensures forall i :: 0 <= i < |env| ==> ks[i] == env[i].name
  {
    seq(|env|, i requires 0 <= i < |env| => env[i].name)
  }

  lemma NamesList(env: seq<EnvVar>)
    requires SortedByName(env)
    ensures Lists(Names(env), Folded(env).Keys)
  {
    FoldedSorted(env);
    var ks := Names(env);
    forall k ensures k in ks <==> k in Folded(env).Keys {
      if k in ks {
        var i :| 0 <= i < |ks| && ks[i] == k;
        assert env[i].name == k;
      }
      if k in Folded(env) {
        var i :| 0 <= i < |env| && env[i].name == k;
        assert ks[i] == k;
      }
    }
  }

  /** The environment is the one strictly sorted list of variables that folds back to the
      configuration: the pod template is a function of the configuration alone. */
  lemma EnvDeterministic(configuration: map<string, string>, env: seq<EnvVar>)
    ensures SortedByName(env) && Folded(env) == configuration <==> env == Env(configuration)
  {
    SortedKeysLists(configuration.Keys);
    var mine := Env(configuration);
    var ks := SortedKeys(configuration.Keys);
    assert SortedByName(mine);
    FoldedSorted(mine);
    assert Folded(mine) == configuration by {
      forall k ensures k in Folded(mine) <==> k in configuration {
        if k in configuration {
          assert k in ks;
          var i :| 0 <= i < |ks| && ks[i] == k;
          assert mine[i].name == k;
        }
        if k in Folded(mine) {
          var i :| 0 <= i < |mine| && mine[i].name == k;
          assert ks[i] in ks;
        }
      }
      forall k | k in configuration ensures Folded(mine)[k] == configuration[k] {
        assert k in ks;
        var i :| 0 <= i < |ks| && ks[i] == k;
        assert mine[i].name in Folded(mine);
      }
    }
    if SortedByName(env) && Folded(env) == configuration {
      NamesList(env);
      ListingUnique(Names(env), ks, configuration.Keys);
      FoldedSorted(env);
      forall i | 0 <= i < |env| ensures env[i] == mine[i] {
        assert Names(env)[i] == ks[i] == env[i].name;
      }
      assert |env| == |mine|;
    }
  }

  /* ---------- rollout bounds and gateway references ---------- */

  /** A bound becomes a number exactly where `Atoi` reads one; that number is unchanged
      exactly within int32, and off by a multiple of 2^32 elsewhere. Other text stays. */
  lemma BoundFaithful(s: string)
    ensures Atoi(s).None? <==> Bound(s) == StrVal(s)
    ensures Atoi(s).Some? ==>
              && Bound(s).IntVal? && -0x8000_0000 <= Bound(s).intVal <= 0x7FFF_FFFF
              && (Bound(s).intVal == Atoi(s).value <==> -0x8000_0000 <= Atoi(s).value <= 0x7FFF_FFFF)
              && (Bound(s).intVal - Atoi(s).value) % 0x1_0000_0000 == 0
  {
    if Atoi(s).Some? {
      var n := Atoi(s).value;
      assert Wrap32(n) - n == -0x1_0000_0000 * ((n + 0x8000_0000) / 0x1_0000_0000);
    }
  }

  /** Printing an int32 and reading it back as a bound is the identity. */
  lemma BoundRoundTrip(n: int32)
    ensures Bound(Itoa(n)) == IntVal(n)
  {
    AtoiItoa(n);
  }

  /** The route names gateway name in namespace ns exactly when the reference is ns/name;
      a reference without a slash names no gateway. */
  lemma GatewayReference(app: App, ns: string, name: string)
    ensures DesiredHTTPRoute(app).parentRefs == [ParentRef(ns, name)] <==>
            '/' !in ns && app.spec.gateway.gatewayRef == ns + "/" + name
    ensures DesiredHTTPRoute(app).parentRefs == [] <==> '/' !in app.spec.gateway.gatewayRef
  {
    JoinSplit(app.spec.gateway.gatewayRef);
    if '/' !in ns {
      SplitJoin(ns, name);
    }
  }

  /* ---------- the traffic path ---------- */

  /** The service port a backend reference selects. */
  function ResolveServicePort(s: Service, port: int32): Option<ServicePort> {
    ResolvePortIn(s.ports, port)
  }

  function ResolvePortIn(ps: seq<ServicePort>, port: int32): Option<ServicePort> {
    if ps == [] then None else if ps[0].port == port then Some(ps[0]) else ResolvePortIn(ps[1..], port)
  }

  /** The container port a service's target port selects: by number, or by name. */
  function ResolveTarget(ps: seq<ContainerPort>, target: IntOrString): Option<ContainerPort> {
    if ps == [] then None
    else if (target.IntVal? && ps[0].port == target.intVal) || (target.StrVal? && ps[0].name == target.strVal)
    then Some(ps[0])
    else ResolveTarget(ps[1..], target)
  }

  predicate Admits(np: NetworkPolicy, port: int32, protocol: string) {
    np.ingressPort == port && np.ingressProtocol == protocol
  }

  /** From the route's backend to a container port that the network policy admits. */
  lemma TrafficPathCloses(app: App)
    ensures var backend := DesiredHTTPRoute(app).backend;
            && backend.kind == "Service" && backend.name == app.name
            && var sp := ResolveServicePort(DesiredService(app), backend.port);
               && sp.Some?
               && var cp := ResolveTarget(DesiredDeployment(app).container.ports, sp.value.targetPort);
                  && cp.Some? && cp.value.protocol == sp.value.protocol
                  && Admits(DesiredNetworkPolicy(app), cp.value.port, cp.value.protocol)
    ensures DesiredHPA(app).target == ObjectRef("Deployment", app.name)
  {
  }

  /** The network policy lists the port the probes use exactly when no separate health-check
      port is configured. */
  lemma ProbePortListed(app: App)
    ensures Admits(DesiredNetworkPolicy(app), DesiredContainer(app).liveness.port, "TCP") <==>
            app.spec.healthChecks.port == 0 || app.spec.healthChecks.port == app.spec.service.port
    ensures DesiredContainer(app).readiness.port == DesiredContainer(app).liveness.port
  {
  }

  lemma PodLabelsOf(app: App)
    ensures NAME in PodLabels(app) && PodLabels(app)[NAME] == app.name
    ensures INSTANCE in PodLabels(app) && PodLabels(app)[INSTANCE] == app.name
    ensures VERSION in PodLabels(app) && PodLabels(app)[VERSION] == app.spec.image.tag
  {
    var ms := [CommonLabels(app.name), map[INSTANCE := app.name, VERSION := app.spec.image.tag]];
    assert Merged(ms[..1][..0]) == map[];
    assert ms[..1][..0] == [];
    assert Merged(ms[..1]) == map[] + ms[0];
    assert Merged(ms) == Merged(ms[..1]) + ms[1];
    assert INSTANCE != NAME && VERSION != NAME;
  }

  /** The pods of b belong to the Deployment, Service, disruption budget and network policy
      of a exactly when a and b have the same name. */
  lemma SelectorsSeparate(a: App, b: App)
    ensures Matches(DesiredDeployment(a).selector, DesiredDeployment(b).podLabels) <==> a.name == b.name
    ensures Matches(DesiredService(a).selector, DesiredDeployment(b).podLabels) <==> a.name == b.name
    ensures Matches(DesiredPDB(a).selector, DesiredDeployment(b).podLabels) <==> a.name == b.name
    ensures Matches(DesiredNetworkPolicy(a).podSelector, DesiredDeployment(b).podLabels) <==> a.name == b.name
  {
    PodLabelsOf(b);
    assert NAME in SelectorLabels(a.name);
  }

  /** A ServiceMonitor selects a service exactly when both labels say its name. */
  lemma ServiceMonitorSelects(a: App, labels: LabelSet)
    ensures Matches(DesiredServiceMonitor(a).selector, labels) <==>
            NAME in labels && labels[NAME] == a.name && INSTANCE in labels && labels[INSTANCE] == a.name
  {
    var s := SelectorLabels(a.name);
    assert NAME in s && INSTANCE in s && NAME != INSTANCE;
  }

  /** No generated Service carries the second label, so no generated ServiceMonitor selects
      any generated Service, its own application's included. */
  lemma ServiceMonitorSelectsNoService(a: App, b: App)
    ensures !Matches(DesiredServiceMonitor(a).selector, DesiredService(b).labels)
  {
    assert INSTANCE in SelectorLabels(a.name) && INSTANCE !in CommonLabels(b.name);
  }

  /* ---------- disruption budget ---------- */

  /** Kubernetes scales a percentage of n pods rounding up. */
  function Scaled(v: IntOrString, n: nat): Option<int> {
    match v
    case IntVal(i) => Some(i)
    case StrVal(s) =>
      if s != "" && s[|s| - 1] == '%' && Atoi(s[..|s| - 1]).Some?
      then Some((Atoi(s[..|s| - 1]).value * n + 99) / 100) else None
  }

  lemma TwentyFive()
    ensures Atoi("25") == Some(25)
  {
    AtoiItoa(25);
    assert Digits(25) == Digits(2) + [Digit(5)];
    assert [Digit(2)] + [Digit(5)] == "25";
  }

  lemma QuarterScaled(n: nat)
    ensures Scaled(StrVal("25%"), n) == Some((n + 3) / 4)
  {
    TwentyFive();
    var s := "25%";
    assert s[..|s| - 1] == "25";
  }

  /** For every replica count n the autoscaler may choose, the budget allows at least one
      disruption and keeps at least three quarters of the pods, rounded down, and one pod. */
  lemma DisruptionBudget(app: App, n: nat)
    requires app.spec.replicas.min >= 2
    requires app.spec.replicas.min <= n <= DesiredHPA(app).maxReplicas
    ensures var allowed := Scaled(DesiredPDB(app).maxUnavailable, n);
            allowed.Some? && allowed.value >= 1 && n - allowed.value >= 3 * n / 4 >= 1
  {
    QuarterScaled(n);
  }

  /** At the minimum itself the two regimes are one rule: a quarter, rounded up. */
  lemma DisruptionAtMin(app: App)
    requires app.spec.replicas.min >= 2
    ensures Scaled(DesiredPDB(app).maxUnavailable, app.spec.replicas.min) == Some((app.spec.replicas.min + 3) / 4)
  {
    QuarterScaled(app.spec.replicas.min);
  }

  /* ---------- defaulting ---------- */

  /** Defaulting changes none of the generated objects but two: the Deployment's pull policy
      when it was empty, and the autoscaler exactly when a negative minimum had no maximum. */
  lemma DefaultPreservesObjects(app: App)
    ensures var d := app.(spec := Defaulted(app.spec));
            && DesiredDeployment(d).container ==
                 DesiredDeployment(app).container.(pullPolicy := OrElse(app.spec.image.pullPolicy, "IfNotPresent"))
            && DesiredDeployment(d).(container := DesiredDeployment(app).container) == DesiredDeployment(app)
            && DesiredService(d) == DesiredService(app)
            && DesiredNetworkPolicy(d) == DesiredNetworkPolicy(app)
            && DesiredPDB(d) == DesiredPDB(app)
            && DesiredServiceMonitor(d) == DesiredServiceMonitor(app)
            && (app.spec.gateway.enabled ==> DesiredHTTPRoute(d) == DesiredHTTPRoute(app))
            && (app.spec.autoscaling.enabled ==>
                 (DesiredHPA(d) == DesiredHPA(app) <==> app.spec.replicas.max != 0 || app.spec.replicas.min >= 0))
  {
  }

  /** An admitted, defaulted spec drives the replica clamps of neither generator, exactly
      when its maximum is not negative. */
  lemma AdmittedNeedsNoClamp(app: App)
    requires Validate(app.spec).Admitted? && Defaulted(app.spec) == app.spec
    ensures var h := DesiredHPA(app);
            && DesiredDeployment(app).replicas == h.minReplicas == app.spec.replicas.min <= h.maxReplicas
            && (h.maxReplicas == app.spec.replicas.max <==> app.spec.replicas.max >= 0)
  {
    assert app.spec.replicas.max != 0;
  }
}
