/** The API server as the controller sees it, and one reconcile pass as a sequence of
    atomic API calls with local computation in between. */
module Passes {
  import opened Meta
  import opened V1Alpha1
  import opened Text
  import opened Generators
  import opened Children
  import opened Errors
  import opened Conditions
  import opened Conversion

  const FINALIZER := "platform.example.io/cleanup"

  // Durations in milliseconds.
  const REQUEUE_DELAY := 30_000
  const CONFLICT_REQUEUE_DELAY := 1_000
  const PROGRESS_CHECK_DELAY := 10_000
  const PERMANENT_REQUEUE_DELAY := 300_000
  const RETRY_BASE_DELAY := 100

  const MAX_APPLY_RETRIES: nat := 3

  /* ---------- finalizers ---------- */

  predicate HasFinalizer(m: ObjectMeta) {
    FINALIZER in m.finalizers
  }

  /** `controllerutil.RemoveFinalizer`: every occurrence goes, the others keep their order. */
  function Others(fs: seq<string>): seq<string> {
    if fs == [] then []
    else if fs[|fs| - 1] == FINALIZER then Others(fs[..|fs| - 1])
    else Others(fs[..|fs| - 1]) + [fs[|fs| - 1]]
  }

  function WithFinalizer(a: Spoke): Spoke {
    a.(meta := a.meta.(finalizers := a.meta.finalizers + [FINALIZER]))
  }

  function WithoutFinalizer(a: Spoke): Spoke {
    a.(meta := a.meta.(finalizers := Others(a.meta.finalizers)))
  }

  lemma {:induction false} OthersFacts(fs: seq<string>)
    ensures FINALIZER !in Others(fs)
    ensures Others(Others(fs)) == Others(fs)
    ensures Others(fs + [FINALIZER]) == Others(fs)
    ensures FINALIZER !in fs ==> Others(fs) == fs
  {
    assert (fs + [FINALIZER])[..|fs|] == fs;
    if fs != [] {
      var init := fs[..|fs| - 1];
      OthersFacts(init);
      assert fs == init + [fs[|fs| - 1]];
      var o := Others(fs);
      if fs[|fs| - 1] != FINALIZER {
        assert o[..|o| - 1] == Others(init);
      }
    }
  }

  /* ---------- the API server ---------- */

  /** All versions of every application, oldest first (None where it was deleted), and the
      children. An application's resourceVersion is its position in its history. */
  datatype Cluster = Cluster(history: map<AppKey, seq<Option<Hub>>>, children: map<Key, Obj>)

  function History(c: Cluster, k: AppKey): seq<Option<Hub>> {
    if k in c.history then c.history[k] else []
  }

  function Stored(c: Cluster, k: Key): Option<Obj> {
    if k in c.children then Some(c.children[k]) else None
  }

  function Current(c: Cluster, k: AppKey): Option<Hub> {
    var h := History(c, k);
    if h == [] then None else h[|h| - 1]
  }

  function Append(c: Cluster, k: AppKey, v: Option<Hub>): Cluster {
    c.(history := c.history[k := History(c, k) + [v]])
  }

  /** A deleting application disappears with its last finalizer. */
  function Persisted(h: Hub): Option<Hub> {
    if h.meta.deleting && h.meta.finalizers == [] then None else Some(h)
  }

  /** What is stored when an application is rewritten through the spoke version: the stored
      object is converted to the spoke, changed and converted back, so the hub-only fields do
      not survive; the generation moves when the specs differ as spokes. */
  function SpokeRewritten(old_: Hub, spec: Spec, finalizers: seq<string>, version: nat): Hub {
    old_.(meta := old_.meta.(resourceVersion := version, finalizers := finalizers,
                             generation := if spec == SpecToSpoke(old_.spec) then old_.meta.generation
                                           else old_.meta.generation + 1),
          spec := SpecToHub(spec))
  }

  /** The same for the status alone: the old spec goes through the spoke as well. */
  function StatusRewritten(old_: Hub, s: Status, version: nat): Hub {
    old_.(meta := old_.meta.(resourceVersion := version), spec := SpecToHub(SpecToSpoke(old_.spec)),
          status := StatusToHub(s))
  }

  predicate SameButVersion(a: Hub, b: Hub) {
    a == b.(meta := b.meta.(resourceVersion := a.meta.resourceVersion))
  }

  /** The server makes no new version where a write changes nothing. */
  function Put(c: Cluster, k: AppKey, old_: Hub, v: Option<Hub>): Cluster {
    if v.Some? && SameButVersion(v.value, old_) then c else Append(c, k, v)
  }

  function StoreUpdate(c: Cluster, k: AppKey, old_: Hub, a: Spoke): Cluster {
    Put(c, k, old_, Persisted(SpokeRewritten(old_, a.spec, a.meta.finalizers, |History(c, k)|)))
  }

  function StoreStatus(c: Cluster, k: AppKey, old_: Hub, a: Spoke): Cluster {
    Put(c, k, old_, Some(StatusRewritten(old_, a.status, |History(c, k)|)))
  }

  datatype Request =
    | GetApp
    | UpdateApp(app: Spoke)
    | UpdateStatus(app: Spoke)
    | GetChild(key: Key)
    | CreateChild(key: Key, desired: Obj)
    | PatchChild(key: Key, desired: Obj)
    | DeleteChild(key: Key)
    | Sleep(delay: nat)

  /** The child a request writes, if any. */
  function Target(r: Request): Option<Key> {
    match r
    case CreateChild(k, _) => Some(k)
    case PatchChild(k, _) => Some(k)
    case DeleteChild(k) => Some(k)
    case _ => None
  }

  datatype Response = GotApp(app: Spoke) | GotChild(child: Obj) | Ok | Failed(error: RawError)

  /** What happens to one call: it is served; it fails, its write possibly done all the same;
      or it is a read served from a cache that lags behind. `written` is what the server and
      other writers contribute to the object a write leaves behind. */
  datatype Fate =
    | Served(written: Obj)
    | Faulted(error: RawError, took: bool, written: Obj)
    | StaleApp(shown: nat)
    | StaleChild(seen: Option<Obj>)

  predicate Fits(req: Request, resp: Response) {
    match req
    case GetApp => resp.GotApp? || resp.Failed?
    case GetChild(_) => resp.GotChild? || resp.Failed?
    case Sleep(_) => resp.Ok? || resp == Failed(CANCELLED)
    case _ => resp.Ok? || resp.Failed?
  }

  function ReadVersion(h: seq<Option<Hub>>, fate: Fate): Option<Hub> {
    if h == [] then None
    else if fate.StaleApp? && fate.shown < |h| then if fate.shown == 0 then None else h[fate.shown - 1]
    else h[|h| - 1]
  }

  /** Whatever the server stores carries a resourceVersion. */
  function Stamped(o: Obj): Obj {
    if Server(ResourceVersion) in o then o else o[Server(ResourceVersion) := VPresent]
  }

  /** What a stale cache holds was stored once, and is stamped too. */
  function Seen(c: Cluster, k: Key, fate: Fate): Option<Obj> {
    match fate
    case StaleChild(None) => None
    case StaleChild(Some(o)) => Some(Stamped(o))
    case _ => Stored(c, k)
  }

  function Written(fate: Fate): Obj {
    if fate.Served? || fate.Faulted? then fate.written else map[]
  }

  /** What a create or patch of desired leaves behind. */
  function Accepted(fate: Fate, desired: Obj): Obj {
    Stamped(Written(fate) + desired)
  }

  /** A write that the server would accept, under its fate. */
  function Settle(before: Cluster, after: Cluster, fate: Fate): (Cluster, Response) {
    if fate.Faulted? then (if fate.took then after else before, Failed(fate.error)) else (after, Ok)
  }

  /** A write that the server would not accept: a failing call need not even reach it. */
  function Refuse(c: Cluster, reason: Reason, fate: Fate): (Cluster, Response) {
    (c, Failed(if fate.Faulted? then fate.error else Api(reason)))
  }

  /** What a cancelled context reports. */
  const CANCELLED: RawError := Plain("context canceled")

  /** One atomic call on behalf of application k. */
  function Serve(c: Cluster, k: AppKey, req: Request, fate: Fate): (r: (Cluster, Response))
    ensures Fits(req, r.1)
  {
    match req
    case GetApp =>
      if fate.Faulted? then (c, Failed(fate.error))
      else
        var v := ReadVersion(History(c, k), fate);
        (c, if v.None? then Failed(Api(NotFound)) else GotApp(ToSpoke(v.value)))
    case UpdateApp(a) =>
      var cur := Current(c, k);
      if cur.None? then Refuse(c, NotFound, fate)
      else if cur.value.meta.resourceVersion != a.meta.resourceVersion then Refuse(c, Conflict, fate)
      else Settle(c, StoreUpdate(c, k, cur.value, a), fate)
    case UpdateStatus(a) =>
      var cur := Current(c, k);
      if cur.None? then Refuse(c, NotFound, fate)
      else if cur.value.meta.resourceVersion != a.meta.resourceVersion then Refuse(c, Conflict, fate)
      else Settle(c, StoreStatus(c, k, cur.value, a), fate)
    case GetChild(key) =>
      if fate.Faulted? then (c, Failed(fate.error))
      else
        var o := Seen(c, key, fate);
        (c, if o.None? then Failed(Api(NotFound)) else GotChild(o.value))
    case CreateChild(key, desired) =>
      if key in c.children then Refuse(c, AlreadyExists, fate)
      else Settle(c, c.(children := c.children[key := Accepted(fate, desired)]), fate)
    case PatchChild(key, desired) =>
      Settle(c, c.(children := c.children[key := Accepted(fate, desired)]), fate)
    case DeleteChild(key) =>
      if key !in c.children then Refuse(c, NotFound, fate)
      else Settle(c, c.(children := c.children - {key}), fate)
    case Sleep(_) =>
      if fate.Faulted? then (c, Failed(CANCELLED)) else (c, Ok)
  }

  /** What an update of an application leaves of its history: what was there, or one version more. */
  lemma UpdateAppends(c: Cluster, k: AppKey, a: Spoke, fate: Fate)
    ensures var h, g := History(c, k), History(Serve(c, k, UpdateApp(a), fate).0, k);
            g == h ||
            (Current(c, k).Some? && Current(c, k).value.meta.resourceVersion == a.meta.resourceVersion &&
             g == h + [Persisted(SpokeRewritten(Current(c, k).value, a.spec, a.meta.finalizers, |h|))])
  {
  }

  lemma StatusAppends(c: Cluster, k: AppKey, a: Spoke, fate: Fate)
    ensures var h, g := History(c, k), History(Serve(c, k, UpdateStatus(a), fate).0, k);
            g == h ||
            (Current(c, k).Some? && Current(c, k).value.meta.resourceVersion == a.meta.resourceVersion &&
             g == h + [Some(StatusRewritten(Current(c, k).value, a.status, |h|))])
  {
  }

  /* ---------- one pass ---------- */

  /** What `Reconcile` returns, and whether it ended with a successful application update
      (whose event queues the next pass). */
  datatype Result = Result(error: Option<Error>, requeueAfter: nat, wroteApp: bool)

  datatype Failure = Failure(step: Step, error: Error)

  datatype Phase = Getting | Creating | Patching | Waiting | Deleting

  /** The call a pass makes next. */
  datatype PC =
    | Fetching
    | RemovingFinalizer
    | AddingFinalizer
    | Working(step: Step, attempt: nat, phase: Phase)
    | ReadingReplicas(failure: Option<Failure>)
    | WritingStatus(failure: Option<Failure>)
    | Finished(result: Result)

  /** What sub-reconciler i sends for an application with this key, spec and uid, or None
      where it deletes. The machine works for any such plan; `OperatorPlan` is the real one. */
  type Plan = (AppKey, Step, Spec, nat) -> Option<Obj>

  function OperatorPlan(): Plan {
    (key: AppKey, i: Step, spec: Spec, uid: nat) =>
      if Wanted(i, spec) then Some(Manifest(i, AppOf(key, spec), uid)) else None
  }

  /** What is sent never carries a resourceVersion. */
  ghost predicate SendsNoVersion(plan: Plan) {
    forall k, i, spec, uid :: plan(k, i, spec, uid).Some? ==> Server(ResourceVersion) !in plan(k, i, spec, uid).value
  }

  lemma OperatorSendsNoVersion()
    ensures SendsNoVersion(OperatorPlan())
  {
    forall k, i, spec, uid | OperatorPlan()(k, i, spec, uid).Some?
      ensures Server(ResourceVersion) !in OperatorPlan()(k, i, spec, uid).value
    {
      ManifestFields(i, AppOf(k, spec), uid);
    }
  }

  /** A pass: its request key, retry limit and plan, where it is, its local copy of the
      application, and the failed attempts and total backoff of the apply it is in (or failed in). */
  datatype Pass = Pass(key: AppKey, limit: nat, plan: Plan, pc: PC, app: Spoke, trail: seq<Error>, slept: nat)

  const BLANK: Spoke :=
    Object(ObjectMeta("", "", 0, 0, 0, false, []),
           Spec(ImageSpec("", "", ""), ReplicasSpec(0, 0), ServiceSpec(0, ""), map[], AutoscalingSpec(false, 0),
                GatewaySpec(false, "", "", ""), ObservabilitySpec(false), SecuritySpec(false),
                ResourcesSpec(ResourceSpec("", ""), ResourceSpec("", "")), HealthChecksSpec("", "", 0),
                RolloutSpec("", "", "")),
           EMPTY_STATUS)

  function Begin(key: AppKey, limit: nat, plan: Plan): Pass {
    Pass(key, limit, plan, Fetching, BLANK, [], 0)
  }

  /** What the generators see; the application read under a key has that name and namespace. */
  function AppOf(key: AppKey, spec: Spec): App {
    App(key.namespace, key.name, spec)
  }

  /** What pass p wants child i to be. */
  function Planned(p: Pass, i: Step): Option<Obj> {
    p.plan(p.key, i, p.app.spec, p.app.meta.uid)
  }

  /** What an apply in pass p sends. */
  function Sent(p: Pass, i: Step): Obj {
    if Planned(p, i).Some? then Planned(p, i).value else map[]
  }

  function Pow2(n: nat): nat {
    if n == 0 then 1 else 2 * Pow2(n - 1)
  }

  /** The backoff before retry number `attempt`. */
  function Backoff(attempt: nat): nat {
    if attempt == 0 then 0 else RETRY_BASE_DELAY * Pow2(attempt - 1)
  }

  /** The total backoff of n retries. */
  function Waited(n: nat): nat {
    if n == 0 then 0 else Waited(n - 1) + Backoff(n)
  }

  lemma {:induction false} WaitedClosed(n: nat)
    ensures Waited(n) == RETRY_BASE_DELAY * (Pow2(n) - 1)
  {
    if n == 0 {
    } else {
      WaitedClosed(n - 1);
    }
  }

  function RequestOf(p: Pass): Request
    requires !p.pc.Finished?
  {
    match p.pc
    case Fetching => GetApp
    case RemovingFinalizer => UpdateApp(p.app)
    case AddingFinalizer => UpdateApp(p.app)
    case Working(i, attempt, phase) =>
      (match phase
       case Getting => GetChild(KeyOf(i, p.key))
       case Creating => CreateChild(KeyOf(i, p.key), Sent(p, i))
       case Patching => PatchChild(KeyOf(i, p.key), Sent(p, i))
       case Waiting => Sleep(Backoff(attempt))
       case Deleting => DeleteChild(KeyOf(i, p.key)))
    case ReadingReplicas(_) => GetChild(KeyOf(0, p.key))
    case WritingStatus(_) => UpdateStatus(p.app)
  }

  function Stop(p: Pass, error: Option<Error>, requeueAfter: nat, wroteApp: bool): Pass {
    p.(pc := Finished(Result(error, requeueAfter, wroteApp)))
  }

  /** Entering sub-reconciler i: apply what is wanted, delete what is not. */
  function Enter(p: Pass, i: Step): Pass {
    p.(pc := Working(i, 0, if Planned(p, i).Some? then Getting else Deleting), trail := [], slept := 0)
  }

  function StepDone(p: Pass, i: Step): Pass {
    if i == 6 then p.(pc := ReadingReplicas(None), trail := [], slept := 0) else Enter(p, i + 1)
  }

  function StepError(p: Pass, i: Step, e: Error): Error {
    Wrapped(ToReconcile(i), ClassifyOrWrap(e, p.key.name, SubReconciler(i)))
  }

  /** The classified error of an apply that gives up. */
  function Refused(p: Pass, i: Step, e: Error): Error {
    ClassifyOrWrap(e, KeyOf(i, p.key).name, ObjectOf(i))
  }

  function StepFailed(p: Pass, i: Step, e: Error): Pass {
    p.(pc := ReadingReplicas(Some(Failure(i, StepError(p, i, e)))))
  }

  /** One attempt of an apply failed: only conflicts are retried, up to the limit. */
  function AttemptFailed(p: Pass, i: Step, attempt: nat, e: Error): Pass {
    var q := p.(trail := p.trail + [e]);
    if IsConflict(e) && attempt < p.limit then q.(pc := Working(i, attempt + 1, Waiting))
    else StepFailed(q, i, Refused(p, i, e))
  }

  function Fetched(p: Pass, a: Spoke, now: nat): Pass {
    if a.meta.deleting then
      if HasFinalizer(a.meta) then p.(pc := RemovingFinalizer, app := WithoutFinalizer(a))
      else Stop(p, None, 0, false)
    else if !HasFinalizer(a.meta) then p.(pc := AddingFinalizer, app := WithFinalizer(a))
    else Enter(p.(app := a.(status := a.status.(conditions := Begun(a.status.conditions, now)))), 0)
  }

  function ReadyReplicasOf(o: Obj): int32 {
    var path := Server(ReadyReplicas);
    if path in o && o[path].VInt? then o[path].n else 0
  }

  function StepName(i: nat): string {
    if i < 7 then
      ["Deployment", "Service", "HPA", "HTTPRoute", "NetworkPolicy", "PodDisruptionBudget", "ServiceMonitor"][i]
    else ""
  }

  function SubjectText(k: Subject): string {
    if k.ObjectOf? && k.step == 2 then "HorizontalPodAutoscaler" else StepName(k.step)
  }

  function ContextText(c: Context): string {
    match c
    case ToGet => "getting"
    case ToCreate => "creating"
    case ToApply => "applying"
    case ToDelete => "deleting"
    case ToReconcile(i) => "reconciling " + StepName(i)
    case ToAddFinalizer => "adding finalizer"
    case ToRemoveFinalizer => "removing finalizer"
  }

  function ClassText(c: Class): string {
    match c
    case Transient => "transient"
    case Permanent => "permanent"
    case ConflictClass => "conflict"
    case UnknownClass => "unknown"
  }

  /** `err.Error()`, up to the wording of the API's own messages and the names of objects. */
  function MessageOf(e: Error): string {
    match e
    case Api(_) => "api error"
    case Plain(m) => m
    case Wrapped(c, inner) => ContextText(c) + ": " + MessageOf(inner)
    case Reconcile(c, r, k, inner) => ClassText(c) + " error on " + SubjectText(k) + " " + r + ": " + MessageOf(inner)
  }

  function OutcomeOf(failure: Option<Failure>, ready: int32, min: int32): Outcome {
    if failure.Some? then Errored(MessageOf(failure.value.error))
    else if ready >= min then Available
    else Deploying("Waiting for " + Itoa(ready) + "/" + Itoa(min) + " replicas",
                   "Only " + Itoa(ready) + "/" + Itoa(min) + " replicas ready")
  }

  /** The reported URL: set from the gateway's host, never cleared. */
  function UrlAfter(s: Spec, url: string): string {
    if s.gateway.enabled && s.gateway.host != "" then "https://" + s.gateway.host else url
  }

  /** The status a pass reports. */
  function Summary(a: Spoke, failure: Option<Failure>, ready: int32, now: nat): Status {
    Status(
      observedGeneration := a.meta.generation,
      readyReplicas := ready,
      url := UrlAfter(a.spec, a.status.url),
      conditions := Settled(a.status.conditions, OutcomeOf(failure, ready, a.spec.replicas.min), now),
      deployedVersion := a.spec.image.tag)
  }

  /** `handleErrorResult`. */
  function HandleError(e: Error): Result {
    var r := AsReconcile(e);
    if r.Reconcile? && r.errorClass == ConflictClass then Result(None, CONFLICT_REQUEUE_DELAY, false)
    else if r.Reconcile? && r.errorClass == Permanent then Result(None, PERMANENT_REQUEUE_DELAY, false)
    else Result(Some(e), REQUEUE_DELAY, false)
  }

  /** The local computation after one response. */
  function Next(p: Pass, resp: Response, now: nat): Pass
    requires !p.pc.Finished? && Fits(RequestOf(p), resp)
  {
    match p.pc
    case Fetching =>
      if resp.Failed? then Stop(p, if IsNotFound(resp.error) then None else Some(resp.error), 0, false)
      else Fetched(p, resp.app, now)
    case RemovingFinalizer =>
      if resp.Ok? then Stop(p, None, 0, true)
      else if IsConflict(resp.error) then Stop(p, None, CONFLICT_REQUEUE_DELAY, false)
      else Stop(p, Some(Wrapped(ToRemoveFinalizer, resp.error)), 0, false)
    case AddingFinalizer =>
      if resp.Ok? then Stop(p, None, 0, true)
      else Stop(p, Some(Wrapped(ToAddFinalizer, resp.error)), 0, false)
    case Working(i, attempt, phase) => NextWorking(p, i, attempt, phase, resp)
    case ReadingReplicas(failure) =>
      var ready := if resp.GotChild? then ReadyReplicasOf(resp.child) else p.app.status.readyReplicas;
      p.(pc := WritingStatus(failure), app := p.app.(status := Summary(p.app, failure, ready, now)))
    case WritingStatus(failure) =>
      if resp.Failed? then
        if IsConflict(resp.error) then Stop(p, None, CONFLICT_REQUEUE_DELAY, false)
        else Stop(p, Some(resp.error), 0, false)
      else if failure.Some? then p.(pc := Finished(HandleError(failure.value.error)))
      else if p.app.status.readyReplicas < p.app.spec.replicas.min then Stop(p, None, PROGRESS_CHECK_DELAY, false)
      else Stop(p, None, 0, false)
  }

  function NextWorking(p: Pass, i: Step, attempt: nat, phase: Phase, resp: Response): Pass
    requires p.pc == Working(i, attempt, phase) && Fits(RequestOf(p), resp)
  {
    match phase
    case Getting =>
      if resp.GotChild? then
        if resp.child == Sent(p, i) then StepDone(p, i)
        else p.(pc := Working(i, attempt, Patching))
      else if IsNotFound(resp.error) then p.(pc := Working(i, attempt, Creating))
      else AttemptFailed(p, i, attempt, Wrapped(ToGet, resp.error))
    case Creating =>
      if resp.Ok? then StepDone(p, i) else AttemptFailed(p, i, attempt, Wrapped(ToCreate, resp.error))
    case Patching =>
      if resp.Ok? then StepDone(p, i) else AttemptFailed(p, i, attempt, Wrapped(ToApply, resp.error))
    case Waiting =>
      if resp.Ok? then p.(pc := Working(i, attempt, Getting), slept := p.slept + Backoff(attempt))
      else StepFailed(p, i, resp.error)
    case Deleting =>
      if resp.Ok? || IsNotFound(resp.error) then StepDone(p, i)
      else StepFailed(p, i, Wrapped(ToDelete, resp.error))
  }

  /* ---------- metrics ---------- */

  datatype Metrics = Metrics(
    active: int,
    subOk: seq<nat>,
    subErr: seq<nat>,
    statusOk: nat,
    statusErr: nat,
    statusConflict: nat,
    reconcileOk: nat,
    reconcileErr: nat)

  const NO_METRICS := Metrics(0, [0, 0, 0, 0, 0, 0, 0], [0, 0, 0, 0, 0, 0, 0], 0, 0, 0, 0, 0)

  function Bump(counts: seq<nat>, i: Step): seq<nat> {
    if i < |counts| then counts[i := counts[i] + 1] else counts
  }

  function Started(m: Metrics): Metrics {
    m.(active := m.active + 1)
  }

  /** `handleErrorResult` counts an error of an unknown class a second time. */
  function ErrorCount(e: Error): nat {
    var r := AsReconcile(e);
    if r.Reconcile? && r.errorClass == UnknownClass then 2 else 1
  }

  /** Leaving sub-reconciler i counts once, as a success or as an error. */
  function SubCounted(m: Metrics, i: Step, q: Pass): Metrics {
    if q.pc.Working? && q.pc.step == i then m
    else if q.pc.ReadingReplicas? && q.pc.failure.Some? then m.(subErr := Bump(m.subErr, i))
    else m.(subOk := Bump(m.subOk, i))
  }

  /** The counters after p moved to q on this response. */
  function Counted(m: Metrics, p: Pass, resp: Response, q: Pass): Metrics {
    var n :=
      match p.pc
      case Working(i, _, _) => SubCounted(m, i, q)
      case WritingStatus(failure) =>
        if resp.Failed? then
          m.(statusErr := m.statusErr + 1,
             statusConflict := if IsConflict(resp.error) then m.statusConflict + 1 else m.statusConflict)
        else if failure.Some? then
          m.(statusOk := m.statusOk + 1, reconcileErr := m.reconcileErr + ErrorCount(failure.value.error))
        else m.(statusOk := m.statusOk + 1, reconcileOk := m.reconcileOk + 1)
      case _ => m;
    if q.pc.Finished? then n.(active := n.active - 1) else n
  }

  /* ---------- a pass on its own ---------- */

  datatype Tick = Tick(fate: Fate, now: nat)

  /** The fates and clock readings of all calls to come. */
  type Ticks = nat -> Tick

  /** The cluster, the number of calls made so far and the counters. */
  datatype World = World(cluster: Cluster, calls: nat, metrics: Metrics)

  function Step1(ticks: Ticks, w: World, p: Pass): (World, Pass)
    requires !p.pc.Finished?
  {
    StepAt(ticks(w.calls), w, p)
  }

  /** One call and what follows it. */
  function StepAt(t: Tick, w: World, p: Pass): (World, Pass)
    requires !p.pc.Finished?
  {
    var (c, resp) := Serve(w.cluster, p.key, RequestOf(p), t.fate);
    var q := Next(p, resp, t.now);
    (World(c, w.calls + 1, Counted(w.metrics, p, resp, q)), q)
  }

  function StageRank(p: Pass): nat {
    match p.pc
    case Fetching => 10
    case RemovingFinalizer => 1
    case AddingFinalizer => 1
    case Working(i, _, _) => 9 - i
    case ReadingReplicas(_) => 2
    case WritingStatus(_) => 1
    case Finished(_) => 0
  }

  function AttemptRank(p: Pass): nat {
    if p.pc.Working? && p.pc.attempt <= p.limit then p.limit - p.pc.attempt else 0
  }

  function PhaseRank(p: Pass): nat {
    if !p.pc.Working? then 0
    else match p.pc.phase case Waiting => 2 case Getting => 1 case _ => 0
  }

  predicate Closer(p: Pass, q: Pass) {
    || StageRank(q) < StageRank(p)
    || (StageRank(q) == StageRank(p) && AttemptRank(q) < AttemptRank(p))
    || (StageRank(q) == StageRank(p) && AttemptRank(q) == AttemptRank(p) && PhaseRank(q) < PhaseRank(p))
  }

  lemma LeavingIsCloser(p: Pass, e: Error)
    requires p.pc.Working?
    ensures StageRank(StepDone(p, p.pc.step)) < StageRank(p) && StageRank(StepFailed(p, p.pc.step, e)) < StageRank(p)
  {
  }

  lemma FailingIsCloser(p: Pass, e: Error)
    requires p.pc.Working?
    ensures Closer(p, AttemptFailed(p, p.pc.step, p.pc.attempt, e))
  {
    LeavingIsCloser(p.(trail := p.trail + [e]), Refused(p, p.pc.step, e));
  }

  lemma ServedIsCloser(p: Pass, resp: Response)
    requires p.pc.Working? && Fits(RequestOf(p), resp) && !resp.Failed?
    ensures Closer(p, NextWorking(p, p.pc.step, p.pc.attempt, p.pc.phase, resp))
  {
    LeavingIsCloser(p, CANCELLED);
  }

  lemma FailedIsCloser(p: Pass, error: RawError)
    requires p.pc.Working? && Fits(RequestOf(p), Failed(error))
    ensures Closer(p, NextWorking(p, p.pc.step, p.pc.attempt, p.pc.phase, Failed(error)))
  {
    match p.pc.phase
    case Getting => FailingIsCloser(p, Wrapped(ToGet, error));
    case Creating => FailingIsCloser(p, Wrapped(ToCreate, error));
    case Patching => FailingIsCloser(p, Wrapped(ToApply, error));
    case Waiting => LeavingIsCloser(p, error);
    case Deleting => LeavingIsCloser(p, Wrapped(ToDelete, error));
  }

  lemma WorkingDecreases(p: Pass, resp: Response)
    requires p.pc.Working? && Fits(RequestOf(p), resp)
    ensures Closer(p, NextWorking(p, p.pc.step, p.pc.attempt, p.pc.phase, resp))
  {
    if resp.Failed? {
      FailedIsCloser(p, resp.error);
    } else {
      ServedIsCloser(p, resp);
    }
  }

  /** A pass makes progress with every response. */
  lemma NextDecreases(p: Pass, resp: Response, now: nat)
    requires !p.pc.Finished? && Fits(RequestOf(p), resp)
    ensures Closer(p, Next(p, resp, now))
  {
    if p.pc.Working? {
      WorkingDecreases(p, resp);
    } else {
      assert StageRank(Next(p, resp, now)) < StageRank(p);
    }
  }

  /** Run a pass to its end with nobody else writing. */
  function Finish(ticks: Ticks, w: World, p: Pass): (World, Pass)
    decreases StageRank(p), AttemptRank(p), PhaseRank(p)
  {
    if p.pc.Finished? then (w, p)
    else
      var t := ticks(w.calls);
      NextDecreases(p, Serve(w.cluster, p.key, RequestOf(p), t.fate).1, t.now);
      var (w', q) := Step1(ticks, w, p);
      Finish(ticks, w', q)
  }

  lemma {:induction false} FinishFinishes(ticks: Ticks, w: World, p: Pass)
    ensures Finish(ticks, w, p).1.pc.Finished?
    decreases StageRank(p), AttemptRank(p), PhaseRank(p)
  {
    if p.pc.Finished? {
    } else {
      var t := ticks(w.calls);
      NextDecreases(p, Serve(w.cluster, p.key, RequestOf(p), t.fate).1, t.now);
      var (w', q) := Step1(ticks, w, p);
      FinishFinishes(ticks, w', q);
    }
  }

  /** The world after p's response, and where the machine then ends up. */
  function Answered(w: World, c: Cluster, p: Pass, resp: Response, q: Pass): World {
    World(c, w.calls + 1, Counted(w.metrics, p, resp, q))
  }

  /** One call takes the machine one step. */
  lemma Unfold(ticks: Ticks, w: World, p: Pass, c: Cluster, resp: Response, now: nat)
    requires !p.pc.Finished?
    requires (c, resp) == Serve(w.cluster, p.key, RequestOf(p), ticks(w.calls).fate) && now == ticks(w.calls).now
    ensures Finish(ticks, w, p) == Finish(ticks, Answered(w, c, p, resp, Next(p, resp, now)), Next(p, resp, now))
  {
    assert Step1(ticks, w, p) == (Answered(w, c, p, resp, Next(p, resp, now)), Next(p, resp, now));
  }
}
