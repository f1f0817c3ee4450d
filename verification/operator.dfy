/** The convergence results in the operator's own terms: its seven children, its switches,
    its retry limit, and the webhooks in front of it. */
module Operators {
  import opened V1Alpha1
  import opened Text
  import opened Generators
  import opened GeneratorLaws
  import opened Children
  import opened Conversion
  import opened Passes
  import opened Convergence

  /** Child i exists exactly when the spec asks for it, and has every generated field with
      its generated value. */
  predicate AsSpecified(c: Cluster, k: AppKey, spec: Spec, uid: nat, i: Step) {
    var key := KeyOf(i, k);
    && (key in c.children <==> Wanted(i, spec))
    && (key in c.children ==> Covers(c.children[key], Manifest(i, AppOf(k, spec), uid)))
  }

  function OperatorGoal(k: AppKey, spec: Spec, uid: nat): Goal {
    Goal(k, OperatorPlan(), spec, uid)
  }

  lemma RightIsAsSpecified(k: AppKey, spec: Spec, uid: nat, c: Cluster, i: Step)
    ensures RightAt(OperatorGoal(k, spec, uid), c, i) <==> AsSpecified(c, k, spec, uid, i)
  {
  }

  /** Only the seven children of k may differ. */
  ghost predicate OthersUntouched(c: Cluster, d: Cluster, k: AppKey) {
    forall x :: !Owns(k, x) ==> Stored(c, x) == Stored(d, x)
  }

  /** One fault-free pass over an adopted application, from any cluster: all seven children
      are as specified and nothing else has changed. */
  lemma {:induction false} OneCleanPass(ticks: Ticks, w: World, k: AppKey, spec: Spec, uid: nat)
    requires forall m :: SoloFate(ticks(m).fate)
    requires Live(OperatorGoal(k, spec, uid), w.cluster) && Held(OperatorGoal(k, spec, uid), w.cluster)
    requires Faults(ticks, w.calls, Finish(ticks, w, Begin(k, MAX_APPLY_RETRIES, OperatorPlan())).0.calls) == 0
    ensures var v := Finish(ticks, w, Begin(k, MAX_APPLY_RETRIES, OperatorPlan())).0;
            && (forall i: Step :: AsSpecified(v.cluster, k, spec, uid, i))
            && OthersUntouched(w.cluster, v.cluster, k)
  {
    var g := OperatorGoal(k, spec, uid);
    OperatorSendsNoVersion();
    OnePassConverges(ticks, w, g, MAX_APPLY_RETRIES);
    var v := Finish(ticks, w, Begin(k, MAX_APPLY_RETRIES, OperatorPlan())).0;
    forall i: Step ensures AsSpecified(v.cluster, k, spec, uid, i) {
      assert RightAt(g, v.cluster, i);
      RightIsAsSpecified(k, spec, uid, v.cluster, i);
    }
  }

  /** With at most `faults` failing calls in all, every number of passes from faults + 2 on
      leaves all seven children as specified. */
  lemma {:induction false} OperatorConverges(ticks: Ticks, w: World, k: AppKey, spec: Spec, uid: nat, n: nat,
          faults: nat)
    requires (forall m :: SoloFate(ticks(m).fate)) && Live(OperatorGoal(k, spec, uid), w.cluster) && n >= faults + 2
    requires Faults(ticks, w.calls, Repeat(ticks, w, OperatorGoal(k, spec, uid), MAX_APPLY_RETRIES, n).calls) <= faults
    ensures forall i: Step ::
              AsSpecified(Repeat(ticks, w, OperatorGoal(k, spec, uid), MAX_APPLY_RETRIES, n).cluster, k, spec, uid, i)
  {
    var g := OperatorGoal(k, spec, uid);
    OperatorSendsNoVersion();
    BoundedConvergence(ticks, w, g, MAX_APPLY_RETRIES, n, faults);
    var c := Repeat(ticks, w, g, MAX_APPLY_RETRIES, n).cluster;
    forall i: Step ensures AsSpecified(c, k, spec, uid, i) {
      assert RightAt(g, c, i);
      RightIsAsSpecified(k, spec, uid, c, i);
    }
  }

  /* ---------- the hub-only fields ---------- */

  /** The controller reads applications through the spoke version, so neither of the two
      hub-only fields has any effect on any child. */
  lemma HubOnlyFieldsReachNoChild(
      i: Step, k: AppKey, spec: B.Spec, envFrom: seq<string>, podAnnotations: map<string, string>, uid: nat)
    ensures var other := spec.(envFrom := envFrom, podAnnotations := podAnnotations);
            && (Wanted(i, SpecToSpoke(other)) <==> Wanted(i, SpecToSpoke(spec)))
            && Manifest(i, AppOf(k, SpecToSpoke(other)), uid) == Manifest(i, AppOf(k, SpecToSpoke(spec)), uid)
  {
    assert SpecToSpoke(spec.(envFrom := envFrom, podAnnotations := podAnnotations)) == SpecToSpoke(spec);
  }

  /* ---------- what is sent ---------- */

  /** What the generator of child i puts under a slot, if anything. */
  function Under(i: Step, app: App, slot: Slot): Option<Value> {
    SlotValue(Desired(i, app), slot)
  }

  /** What is sent under a path other than the owner's is what the generator put there. */
  lemma PathSent(i: Step, app: App, uid: nat, p: Path)
    requires !p.OwnerRef?
    ensures p in Manifest(i, app, uid) <==> ValueAt(Desired(i, app), p).Some?
    ensures p in Manifest(i, app, uid) ==> Manifest(i, app, uid)[p] == ValueAt(Desired(i, app), p).value
  {
    assert p in Fields(Desired(i, app)) <==> ValueAt(Desired(i, app), p).Some?;
  }

  /** A quantity is sent exactly where it is configured. */
  lemma ResourcesSent(app: App)
    ensures Under(0, app, RequestsCpu) == NonEmpty(app.spec.resources.requests.cpu)
    ensures Under(0, app, RequestsMemory) == NonEmpty(app.spec.resources.requests.memory)
    ensures Under(0, app, LimitsCpu) == NonEmpty(app.spec.resources.limits.cpu)
    ensures Under(0, app, LimitsMemory) == NonEmpty(app.spec.resources.limits.memory)
  {
  }

  /** Exactly the configuration is sent as environment, each key with its value. */
  lemma EnvironmentSent(k: AppKey, spec: Spec, uid: nat, name: string)
    ensures var m := Manifest(0, AppOf(k, spec), uid);
            && (EnvEntry(name) in m <==> name in spec.configuration)
            && (name in spec.configuration ==> m[EnvEntry(name)] == VStr(spec.configuration[name]))
  {
    PathSent(0, AppOf(k, spec), uid, EnvEntry(name));
    EnvironmentValue(AppOf(k, spec), name);
  }

  lemma EnvironmentValue(app: App, name: string)
    ensures ValueAt(Desired(0, app), EnvEntry(name)) == Entry(app.spec.configuration, name)
  {
    EnvDeterministic(app.spec.configuration, Env(app.spec.configuration));
  }

  /* ---------- defaulting ---------- */

  /** For every spec with a minimum of at least one, defaulting switches no child on or off
      and changes no field of any, but an empty pull policy, which becomes IfNotPresent. */
  lemma DefaultPreservesChildren(i: Step, k: AppKey, spec: Spec, uid: nat, p: Path)
    requires spec.replicas.min >= 1
    ensures Wanted(i, Defaulted(spec)) <==> Wanted(i, spec)
    ensures var a, d := Manifest(i, AppOf(k, spec), uid), Manifest(i, AppOf(k, Defaulted(spec)), uid);
            Wanted(i, spec) ==>
              if KindAt(i).DeploymentKind? && p == At(PullPolicy) && spec.image.pullPolicy == ""
              then p !in a && p in d && d[p] == VStr("IfNotPresent")
              else (p in a <==> p in d) && (p in a ==> a[p] == d[p])
  {
    if Wanted(i, spec) {
      DefaultPreservesValues(i, AppOf(k, spec), p);
    }
  }

  lemma DefaultPreservesValues(i: Step, app: App, p: Path)
    requires app.spec.replicas.min >= 1 && Wanted(i, app.spec)
    ensures var d := app.(spec := Defaulted(app.spec));
            if KindAt(i).DeploymentKind? && p == At(PullPolicy)
            then ValueAt(Desired(i, d), p) == Some(VStr(OrElse(app.spec.image.pullPolicy, "IfNotPresent")))
                 && ValueAt(Desired(i, app), p) == NonEmpty(app.spec.image.pullPolicy)
            else ValueAt(Desired(i, d), p) == ValueAt(Desired(i, app), p)
  {
    if i == 0 {
      DefaultedDeployment(app);
      OnlyPullPolicy(DesiredDeployment(app), OrElse(app.spec.image.pullPolicy, "IfNotPresent"), p);
    } else {
      DefaultPreservesOthers(i, app);
    }
  }

  /** A pull policy is seen in its own field only. */
  lemma OnlyPullPolicy(d: Deployment, policy: string, p: Path)
    ensures var e := d.(container := d.container.(pullPolicy := policy));
            if p == At(PullPolicy)
            then ValueAt(ADeployment(e), p) == NonEmpty(policy)
                 && ValueAt(ADeployment(d), p) == NonEmpty(d.container.pullPolicy)
            else ValueAt(ADeployment(e), p) == ValueAt(ADeployment(d), p)
  {
  }

  lemma DefaultedDeployment(app: App)
    requires app.spec.replicas.min >= 1
    ensures var d, e := DesiredDeployment(app), DesiredDeployment(app.(spec := Defaulted(app.spec)));
            e == d.(container := d.container.(pullPolicy := OrElse(app.spec.image.pullPolicy, "IfNotPresent")))
            && d.container.pullPolicy == app.spec.image.pullPolicy
  {
    DefaultPreservesObjects(app);
  }

  lemma DefaultPreservesOthers(i: Step, app: App)
    requires app.spec.replicas.min >= 1 && Wanted(i, app.spec) && i != 0
    ensures Desired(i, app.(spec := Defaulted(app.spec))) == Desired(i, app)
  {
    DefaultPreservesObjects(app);
  }
}
