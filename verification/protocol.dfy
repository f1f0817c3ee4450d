/** Any number of passes, possibly stale, interleaved call by call with users who create,
    edit and delete applications and with drift of the children. */
module Protocol {
  import opened Meta
  import opened V1Alpha1
  import opened Text
  import opened Children
  import opened Conditions
  import opened Conversion
  import opened Passes

  datatype PassId = PassId(key: AppKey, n: nat)

  /** A create, patch or delete of a child that a pass asked for, with the version of the
      application the pass had read. */
  datatype ChildWrite = ChildWrite(app: AppKey, version: nat, step: Step, request: Request)

  datatype State = State(
    cluster: Cluster,
    passes: map<PassId, Pass>,
    metrics: Metrics,
    writes: seq<ChildWrite>,
    limit: nat,
    plan: Plan)

  datatype Label =
    | UserCreate(key: AppKey, spec: B.Spec, finalizers: seq<string>)
    | UserEdit(key: AppKey, spec: B.Spec, finalizers: seq<string>)
    | UserSpokeEdit(key: AppKey, spokeSpec: Spec, finalizers: seq<string>)
    | UserDelete(key: AppKey)
    | Drift(child: Key, obj: Option<Obj>)
    | Start(id: PassId)
    | Call(id: PassId, fate: Fate, now: nat)

  function Created(k: AppKey, version: nat, spec: B.Spec, finalizers: seq<string>): Hub {
    Object(ObjectMeta(k.namespace, k.name, version, version, 1, false, finalizers), spec, B.EMPTY_STATUS)
  }

  /** What is stored when an application is rewritten through the hub version: the generation
      moves with the spec. */
  function Rewritten(old_: Hub, spec: B.Spec, finalizers: seq<string>, version: nat): Hub {
    old_.(meta := old_.meta.(resourceVersion := version, finalizers := finalizers,
                             generation := if spec == old_.spec then old_.meta.generation
                                 else old_.meta.generation + 1),
          spec := spec)
  }

  function MarkedDeleting(h: Hub, version: nat): Hub {
    h.(meta := h.meta.(resourceVersion := version, deleting := true, generation := h.meta.generation + 1))
  }

  /** The server lets nobody add a finalizer to a deleting application. */
  predicate EditAllowed(h: Hub, finalizers: seq<string>) {
    h.meta.deleting ==> forall f :: f in finalizers ==> f in h.meta.finalizers
  }

  predicate ByUser(l: Label) {
    l.UserCreate? || l.UserEdit? || l.UserSpokeEdit? || l.UserDelete?
  }

  function UserStep(c: Cluster, l: Label): Cluster
    requires ByUser(l)
  {
    var cur, version := Current(c, l.key), |History(c, l.key)|;
    match l
    case UserCreate(k, spec, fs) => if cur.None? then Append(c, k, Some(Created(k, version, spec, fs))) else c
    case UserEdit(k, spec, fs) =>
      if cur.Some? && EditAllowed(cur.value, fs)
      then Put(c, k, cur.value, Persisted(Rewritten(cur.value, spec, fs, version))) else c
    case UserSpokeEdit(k, spec, fs) =>
      if cur.Some? && EditAllowed(cur.value, fs)
      then Put(c, k, cur.value, Persisted(SpokeRewritten(cur.value, spec, fs, version))) else c
    case UserDelete(k) =>
      if cur.None? || cur.value.meta.deleting then c
      else if cur.value.meta.finalizers == [] then Append(c, k, None)
      else Append(c, k, Some(MarkedDeleting(cur.value, version)))
  }

  function Drifted(c: Cluster, k: Key, o: Option<Obj>): Cluster {
    c.(children := if o.Some? then c.children[k := Stamped(o.value)] else c.children - {k})
  }

  predicate Runnable(s: State, id: PassId) {
    id in s.passes && !s.passes[id].pc.Finished?
  }

  function Logged(p: Pass): seq<ChildWrite> {
    if p.pc.Working? && (p.pc.phase == Creating || p.pc.phase == Patching || p.pc.phase == Deleting)
    then [ChildWrite(p.key, p.app.meta.resourceVersion, p.pc.step, RequestOf(p))] else []
  }

  function CallStep(s: State, id: PassId, fate: Fate, now: nat): State
    requires Runnable(s, id)
  {
    var p := s.passes[id];
    var (c, resp) := Serve(s.cluster, p.key, RequestOf(p), fate);
    var q := Next(p, resp, now);
    s.(cluster := c, passes := s.passes[id := q], metrics := Counted(s.metrics, p, resp, q),
       writes := s.writes + Logged(p))
  }

  /** One step of the system; a step that is not possible changes nothing. */
  function Exec(s: State, l: Label): State {
    match l
    case Drift(k, o) => s.(cluster := Drifted(s.cluster, k, o))
    case Start(id) =>
      if id in s.passes then s
      else s.(passes := s.passes[id := Begin(id.key, s.limit, s.plan)], metrics := Passes.Started(s.metrics))
    case Call(id, fate, now) => if Runnable(s, id) then CallStep(s, id, fate, now) else s
    case _ => s.(cluster := UserStep(s.cluster, l))
  }

  function Run(s: State, ls: seq<Label>): State {
    if ls == [] then s else Exec(Run(s, ls[..|ls| - 1]), ls[|ls| - 1])
  }

  function Initial(limit: nat, plan: Plan, children: map<Key, Obj>): State {
    State(Cluster(map[], children), map[], NO_METRICS, [], limit, plan)
  }

  /* ---------- what holds of every version ---------- */

  /** When the status speaks for the stored generation, it tells the truth about it. */
  predicate Honest(h: Hub) {
    h.status.observedGeneration == h.meta.generation ==>
      && h.status.deployedVersion == h.spec.image.tag
      && (IsReady(h.status.conditions) ==> h.status.readyReplicas >= h.spec.replicas.min)
  }

  predicate VersionOk(h: Hub, version: nat) {
    && h.meta.resourceVersion == version && h.meta.uid <= version
    && h.status.observedGeneration <= h.meta.generation
    && Honest(h) && Fresh(h.status.conditions)
  }

  /** How two versions of the same application, an earlier and a later one, relate. */
  predicate Ordered(a: Hub, b: Hub) {
    && a.meta.generation <= b.meta.generation
    && a.status.observedGeneration <= b.status.observedGeneration
    && (a.status.url != "" ==> b.status.url != "")
    && (a.meta.deleting ==> b.meta.deleting)
    && (a.meta.deleting && !HasFinalizer(a.meta) ==> !HasFinalizer(b.meta))
  }

  ghost predicate HistoryOk(h: seq<Option<Hub>>) {
    && (forall v :: 0 <= v < |h| && h[v].Some? ==> VersionOk(h[v].value, v))
    && (forall v, w :: 0 <= v <= w < |h| && h[v].Some? && h[w].Some? && h[v].value.meta.uid == h[w].value.meta.uid ==>
          Ordered(h[v].value, h[w].value))
  }

  /** A version may follow: a deletion, a new application, or a later version of the current one. */
  predicate MayFollow(h: seq<Option<Hub>>, x: Option<Hub>) {
    x.Some? ==>
      && VersionOk(x.value, |h|)
      && (x.value.meta.uid == |h| ||
          (h != [] && h[|h| - 1].Some? && h[|h| - 1].value.meta.uid == x.value.meta.uid
              && Ordered(h[|h| - 1].value, x.value)))
  }

  lemma AppendOk(h: seq<Option<Hub>>, x: Option<Hub>)
    requires HistoryOk(h) && MayFollow(h, x)
    ensures HistoryOk(h + [x])
  {
    var g := h + [x];
    forall v, w | 0 <= v <= w < |g| && g[v].Some? && g[w].Some? && g[v].value.meta.uid == g[w].value.meta.uid
      ensures Ordered(g[v].value, g[w].value)
    {
      if w < |h| {
        assert g[v] == h[v] && g[w] == h[w];
      } else if v < |h| {
        assert VersionOk(h[v].value, v);
        assert Ordered(h[v].value, h[|h| - 1].value);
      }
    }
  }

  lemma RewrittenFollows(h: seq<Option<Hub>>, cur: Hub, spec: B.Spec, finalizers: seq<string>)
    requires HistoryOk(h) && h != [] && h[|h| - 1] == Some(cur)
    requires cur.meta.deleting && !HasFinalizer(cur.meta) ==> FINALIZER !in finalizers
    ensures MayFollow(h, Persisted(Rewritten(cur, spec, finalizers, |h|)))
  {
    assert VersionOk(cur, |h| - 1);
  }

  lemma SpokeRewrittenFollows(h: seq<Option<Hub>>, cur: Hub, spec: Spec, finalizers: seq<string>)
    requires HistoryOk(h) && h != [] && h[|h| - 1] == Some(cur)
    requires cur.meta.deleting && !HasFinalizer(cur.meta) ==> FINALIZER !in finalizers
    ensures MayFollow(h, Persisted(SpokeRewritten(cur, spec, finalizers, |h|)))
  {
    assert VersionOk(cur, |h| - 1);
  }

  lemma StatusFollows(h: seq<Option<Hub>>, cur: Hub, s: Status)
    requires HistoryOk(h) && h != [] && h[|h| - 1] == Some(cur)
    requires s.observedGeneration == cur.meta.generation && s.deployedVersion == cur.spec.image.tag
    requires IsReady(s.conditions) ==> s.readyReplicas >= cur.spec.replicas.min
    requires Fresh(s.conditions) && (cur.status.url != "" ==> s.url != "")
    ensures MayFollow(h, Some(StatusRewritten(cur, s, |h|)))
  {
    assert VersionOk(cur, |h| - 1);
  }

  lemma CreatedFollows(h: seq<Option<Hub>>, k: AppKey, spec: B.Spec, finalizers: seq<string>)
    requires HistoryOk(h)
    ensures MayFollow(h, Some(Created(k, |h|, spec, finalizers)))
  {
  }

  lemma DeletingFollows(h: seq<Option<Hub>>, cur: Hub)
    requires HistoryOk(h) && h != [] && h[|h| - 1] == Some(cur) && !cur.meta.deleting
    ensures MayFollow(h, Some(MarkedDeleting(cur, |h|)))
  {
    assert VersionOk(cur, |h| - 1);
  }

  /** A version that may follow keeps the history in order, stored or found to change nothing. */
  lemma PutOk(c: Cluster, k: AppKey, old_: Hub, v: Option<Hub>)
    requires HistoryOk(History(c, k)) && MayFollow(History(c, k), v)
    ensures HistoryOk(History(Put(c, k, old_, v), k)) && Extends(History(c, k), History(Put(c, k, old_, v), k))
    ensures HistoryOk(History(Append(c, k, v), k)) && Extends(History(c, k), History(Append(c, k, v), k))
  {
    AppendOk(History(c, k), v);
  }

  lemma EditOk(c: Cluster, k: AppKey, old_: Hub, spec: B.Spec, spokeSpec: Spec, fs: seq<string>)
    requires HistoryOk(History(c, k)) && Current(c, k) == Some(old_) && EditAllowed(old_, fs)
    ensures var d := Put(c, k, old_, Persisted(Rewritten(old_, spec, fs, |History(c, k)|)));
            HistoryOk(History(d, k)) && Extends(History(c, k), History(d, k))
    ensures var d := Put(c, k, old_, Persisted(SpokeRewritten(old_, spokeSpec, fs, |History(c, k)|)));
            HistoryOk(History(d, k)) && Extends(History(c, k), History(d, k))
  {
    var h := History(c, k);
    RewrittenFollows(h, old_, spec, fs);
    SpokeRewrittenFollows(h, old_, spokeSpec, fs);
    PutOk(c, k, old_, Persisted(Rewritten(old_, spec, fs, |h|)));
    PutOk(c, k, old_, Persisted(SpokeRewritten(old_, spokeSpec, fs, |h|)));
  }

  lemma OwnUserStepOk(c: Cluster, l: Label)
    requires ByUser(l) && HistoryOk(History(c, l.key))
    ensures var h, g := History(c, l.key), History(UserStep(c, l), l.key); HistoryOk(g) && Extends(h, g)
  {
    var h, cur := History(c, l.key), Current(c, l.key);
    match l
    case UserCreate(k, spec, fs) =>
      CreatedFollows(h, k, spec, fs);
      AppendOk(h, Some(Created(k, |h|, spec, fs)));
    case UserEdit(k, spec, fs) =>
      if cur.Some? && EditAllowed(cur.value, fs) { EditOk(c, k, cur.value, spec, SpecToSpoke(spec), fs); }
    case UserSpokeEdit(k, spec, fs) =>
      if cur.Some? && EditAllowed(cur.value, fs) { EditOk(c, k, cur.value, SpecToHub(spec), spec, fs); }
    case UserDelete(_) =>
      AppendOk(h, None);
      if cur.Some? && !cur.value.meta.deleting {
        DeletingFollows(h, cur.value);
        AppendOk(h, Some(MarkedDeleting(cur.value, |h|)));
      }
  }

  lemma UserStepElsewhere(c: Cluster, l: Label, k: AppKey)
    requires ByUser(l) && l.key != k
    ensures History(UserStep(c, l), k) == History(c, k) && UserStep(c, l).children == c.children
  {
  }

  /** Users keep every history in order, and only extend it. */
  lemma UserStepOk(c: Cluster, l: Label, k: AppKey)
    requires ByUser(l) && HistoryOk(History(c, l.key))
    requires HistoryOk(History(c, k))
    ensures HistoryOk(History(UserStep(c, l), k)) && Extends(History(c, k), History(UserStep(c, l), k))
  {
    if k == l.key {
      OwnUserStepOk(c, l);
    } else {
      UserStepElsewhere(c, l, k);
    }
  }

  ghost predicate Extends(g: seq<Option<Hub>>, h: seq<Option<Hub>>) {
    |g| <= |h| && forall v :: 0 <= v < |g| ==> h[v] == g[v]
  }
}
