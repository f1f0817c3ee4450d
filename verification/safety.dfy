/** What every pass knows at every point, and what therefore holds over every run. */
module Safety {
  import opened Text
  import opened Children
  import opened Errors
  import opened Conditions
  import opened Conversion
  import opened Passes
  import opened Protocol

  /* ---------- what a pass has read ---------- */

  predicate IsVersion(h: seq<Option<Hub>>, version: nat, x: Hub) {
    version < |h| && h[version] == Some(x)
  }

  /** The pass's copy of the application is a version that was persisted, with the finalizer
      state that its place in the protocol asks for. */
  ghost predicate Sourced(h: seq<Option<Hub>>, p: Pass) {
    match p.pc
    case Fetching => true
    case Finished(_) => true
    case RemovingFinalizer =>
      exists x :: IsVersion(h, p.app.meta.resourceVersion, x) && x.meta.deleting && HasFinalizer(x.meta)
                  && p.app == WithoutFinalizer(ToSpoke(x))
    case AddingFinalizer =>
      exists x :: IsVersion(h, p.app.meta.resourceVersion, x) && !x.meta.deleting && !HasFinalizer(x.meta)
                  && p.app == WithFinalizer(ToSpoke(x))
    case _ =>
      exists x :: IsVersion(h, p.app.meta.resourceVersion, x) && WorksOn(p, x)
  }

  predicate WorksOn(p: Pass, x: Hub) {
    && !x.meta.deleting && HasFinalizer(x.meta) && p.app.meta == x.meta && p.app.spec == SpecToSpoke(x.spec)
    && p.app.status.url == (if p.pc.WritingStatus? then UrlAfter(p.app.spec, x.status.url) else x.status.url)
    && (p.pc.WritingStatus? || p.app.status.readyReplicas == x.status.readyReplicas)
  }

  /** What a pass is about to report. */
  ghost predicate Reporting(p: Pass) {
    match p.pc
    case Working(_, _, _) => Proceeding(p.app.status.conditions)
    case ReadingReplicas(_) => Proceeding(p.app.status.conditions)
    case WritingStatus(_) =>
      var s := p.app.status;
      && s.observedGeneration == p.app.meta.generation && s.deployedVersion == p.app.spec.image.tag
      && FourInOrder(s.conditions) && OneVerdict(s.conditions)
      && (IsReady(s.conditions) <==> p.pc.failure.None? && s.readyReplicas >= p.app.spec.replicas.min)
    case _ => true
  }

  /** An error out of the sub-reconcilers carries the class its API reason calls for. */
  predicate KnownClass(e: Error) {
    IsClassified(e) && AsReconcile(e).errorClass == ClassOfReason(ReasonOf(e))
  }

  /** It says which sub-reconciler failed, and on what: on its object where an apply gave up,
      on the application as a whole where a deletion failed or the backoff was cancelled. */
  predicate NamesStep(p: Pass, f: Failure) {
    f.error.Wrapped? && f.error.context == ToReconcile(f.step) &&
    match f.error.inner
    case Reconcile(_, resource, kind, inner) =>
      || (kind == ObjectOf(f.step) && resource == KeyOf(f.step, p.key).name && Planned(p, f.step).Some?)
      || (kind == SubReconciler(f.step) && resource == p.key.name && (Planned(p, f.step).None? || inner == CANCELLED))
    case _ => false
  }

  predicate FailureKnown(p: Pass, f: Option<Failure>) {
    f.Some? ==> KnownClass(f.value.error) && NamesStep(p, f.value)
  }

  /** An apply fails with a conflict only once it has used up its retries. */
  ghost predicate Exhausted(p: Pass, f: Option<Failure>) {
    f.Some? && Planned(p, f.value.step).Some? && ReasonOf(f.value.error) == Conflict ==>
      |p.trail| == p.limit + 1 && AllConflicts(p.trail) && p.slept == Waited(p.limit)
  }

  ghost predicate AllConflicts(trail: seq<Error>) {
    forall j :: 0 <= j < |trail| ==> IsConflict(trail[j])
  }

  /** Retries: one failed attempt, a conflict, behind every retry, and the backoffs slept. */
  ghost predicate Retrying(p: Pass) {
    match p.pc
    case Working(i, attempt, phase) =>
      && (phase == Deleting <==> Planned(p, i).None?)
      && attempt <= p.limit && |p.trail| == attempt && AllConflicts(p.trail)
      && (phase == Waiting ==> attempt > 0 && p.slept == Waited(attempt - 1))
      && (phase != Waiting ==> p.slept == Waited(attempt))
      && (phase == Deleting ==> attempt == 0)
    case ReadingReplicas(f) => FailureKnown(p, f) && Exhausted(p, f)
    case WritingStatus(f) => FailureKnown(p, f) && Exhausted(p, f)
    case _ => true
  }

  ghost predicate PassOk(h: seq<Option<Hub>>, p: Pass) {
    Sourced(h, p) && Reporting(p) && Retrying(p)
  }

  /* ---------- one response ---------- */

  /** What a fetch can answer: some persisted version. */
  ghost predicate Answers(h: seq<Option<Hub>>, p: Pass, resp: Response) {
    p.pc.Fetching? && resp.GotApp? ==>
      exists x: Hub :: IsVersion(h, x.meta.resourceVersion, x) && resp.app == ToSpoke(x) && Fresh(x.status.conditions)
  }

  lemma FetchedWork(p: Pass, x: Hub, now: nat)
    requires !x.meta.deleting && HasFinalizer(x.meta) && Fresh(x.status.conditions)
    ensures var q := Fetched(p, ToSpoke(x), now); q.pc.Working? && WorksOn(q, x) && Reporting(q) && Retrying(q)
  {
    BegunEntries(x.status.conditions, now);
  }

  lemma FetchOk(h: seq<Option<Hub>>, p: Pass, resp: Response, now: nat)
    requires p.pc.Fetching? && Fits(RequestOf(p), resp) && Answers(h, p, resp)
    ensures PassOk(h, Next(p, resp, now))
  {
    if resp.GotApp? {
      var x: Hub :| IsVersion(h, x.meta.resourceVersion, x) && resp.app == ToSpoke(x) && Fresh(x.status.conditions);
      var q := Fetched(p, resp.app, now);
      assert q.app.meta.resourceVersion == x.meta.resourceVersion || q.pc.Finished?;
      if !x.meta.deleting && HasFinalizer(x.meta) {
        FetchedWork(p, x, now);
      }
    }
  }

  /** A pass inside a sub-reconciler keeps what it has read. */
  lemma WorkKeepsApp(p: Pass, resp: Response)
    requires p.pc.Working? && Fits(RequestOf(p), resp)
    ensures var q := NextWorking(p, p.pc.step, p.pc.attempt, p.pc.phase, resp);
            q.app == p.app && q.key == p.key && q.plan == p.plan && q.limit == p.limit
            && (q.pc.Working? || q.pc.ReadingReplicas?)
  {
  }

  lemma ClassifiedIsKnown(e: Error, c: Context, r: string, k: Subject)
    requires IsRaw(e)
    ensures var d := ClassifyOrWrap(e, r, k);
            d == Reconcile(ClassOfReason(ReasonOf(e)), r, k, e) && KnownClass(d) && KnownClass(Wrapped(c, d))
  {
    RawIsUnclassified(e);
    ClassifyOrWrapStable(e, [], r, k, r, k);
    assert WrapAll(e, []) == e;
  }

  /** Classifying a second time changes nothing. */
  lemma RefusedTwice(e: Error, c: Context, r: string, k: Subject, r': string, k': Subject)
    requires IsRaw(e)
    ensures var d := ClassifyOrWrap(e, r, k);
            && ClassifyOrWrap(d, r', k') == d == Reconcile(ClassOfReason(ReasonOf(e)), r, k, e)
            && KnownClass(Wrapped(c, d))
  {
    ClassifiedIsKnown(e, c, r, k);
  }

  lemma StepFailedKnown(p: Pass, i: Step, e: Error)
    requires IsRaw(e) && (Planned(p, i).None? || e == CANCELLED)
    ensures FailureKnown(p, Some(Failure(i, StepError(p, i, e)))) && ReasonOf(StepError(p, i, e)) == ReasonOf(e)
  {
    ClassifiedIsKnown(e, ToReconcile(i), p.key.name, SubReconciler(i));
  }

  lemma RefusedKnown(p: Pass, i: Step, e: Error)
    requires IsRaw(e) && Planned(p, i).Some?
    ensures var f := StepError(p, i, Refused(p, i, e));
            FailureKnown(p, Some(Failure(i, f))) && ReasonOf(f) == ReasonOf(e)
  {
    RefusedTwice(e, ToReconcile(i), KeyOf(i, p.key).name, ObjectOf(i), p.key.name, SubReconciler(i));
    assert ReasonOf(StepError(p, i, Refused(p, i, e))) == ReasonOf(Refused(p, i, e));
  }

  /** A sub-reconciler fails: e is not yet classified, or classified because an apply gave up. */
  lemma StepFailedRetrying(p: Pass, i: Step, e: Error)
    requires FailureKnown(p, Some(Failure(i, StepError(p, i, e))))
    requires Planned(p, i).Some? && ReasonOf(StepError(p, i, e)) == Conflict ==>
               |p.trail| == p.limit + 1 && AllConflicts(p.trail) && p.slept == Waited(p.limit)
    ensures Retrying(StepFailed(p, i, e))
  {
    var f, q := Failure(i, StepError(p, i, e)), StepFailed(p, i, e);
    assert Planned(q, i) == Planned(p, i);
    assert FailureKnown(q, Some(f));
  }

  lemma AttemptFailedRetrying(p: Pass, i: Step, attempt: nat, e: Error)
    requires IsRaw(e) && Planned(p, i).Some? && attempt <= p.limit
    requires |p.trail| == attempt && AllConflicts(p.trail) && p.slept == Waited(attempt)
    ensures Retrying(AttemptFailed(p, i, attempt, e))
  {
    if !(IsConflict(e) && attempt < p.limit) {
      var q := p.(trail := p.trail + [e]);
      RefusedKnown(q, i, e);
      StepFailedRetrying(q, i, Refused(q, i, e));
    }
  }

  lemma WorkRetrying(p: Pass, resp: Response)
    requires p.pc.Working? && Fits(RequestOf(p), resp) && Retrying(p)
    ensures Retrying(NextWorking(p, p.pc.step, p.pc.attempt, p.pc.phase, resp))
  {
    var i, attempt := p.pc.step, p.pc.attempt;
    if resp.Failed? {
      match p.pc.phase
      case Getting =>
        if !IsNotFound(resp.error) { AttemptFailedRetrying(p, i, attempt, Wrapped(ToGet, resp.error)); }
      case Creating => AttemptFailedRetrying(p, i, attempt, Wrapped(ToCreate, resp.error));
      case Patching => AttemptFailedRetrying(p, i, attempt, Wrapped(ToApply, resp.error));
      case Waiting =>
        StepFailedKnown(p, i, resp.error);
        StepFailedRetrying(p, i, resp.error);
      case Deleting =>
        if !IsNotFound(resp.error) {
          StepFailedKnown(p, i, Wrapped(ToDelete, resp.error));
          StepFailedRetrying(p, i, Wrapped(ToDelete, resp.error));
        }
    }
  }

  lemma WorkOk(h: seq<Option<Hub>>, p: Pass, resp: Response)
    requires p.pc.Working? && Fits(RequestOf(p), resp) && PassOk(h, p)
    ensures PassOk(h, NextWorking(p, p.pc.step, p.pc.attempt, p.pc.phase, resp))
  {
    WorkKeepsApp(p, resp);
    WorkRetrying(p, resp);
    var x :| IsVersion(h, p.app.meta.resourceVersion, x) && WorksOn(p, x);
    var q := NextWorking(p, p.pc.step, p.pc.attempt, p.pc.phase, resp);
    assert WorksOn(q, x);
  }

  lemma ReportsRead(p: Pass, resp: Response, now: nat)
    requires p.pc.ReadingReplicas? && Fits(RequestOf(p), resp) && Reporting(p)
    ensures Reporting(Next(p, resp, now))
  {
    var q := Next(p, resp, now);
    SettledVerdict(p.app.status.conditions,
                   OutcomeOf(p.pc.failure, q.app.status.readyReplicas, p.app.spec.replicas.min), now);
  }

  lemma ReadKeepsFailure(p: Pass, resp: Response, now: nat)
    requires p.pc.ReadingReplicas? && Fits(RequestOf(p), resp)
    ensures var q := Next(p, resp, now); Retrying(p) ==> Retrying(q)
    ensures var q := Next(p, resp, now); forall x :: WorksOn(p, x) ==> WorksOn(q, x)
  {
  }

  lemma ReadOk(h: seq<Option<Hub>>, p: Pass, resp: Response, now: nat)
    requires p.pc.ReadingReplicas? && Fits(RequestOf(p), resp) && PassOk(h, p)
    ensures PassOk(h, Next(p, resp, now))
  {
    var x :| IsVersion(h, p.app.meta.resourceVersion, x) && WorksOn(p, x);
    ReportsRead(p, resp, now);
    ReadKeepsFailure(p, resp, now);
    assert WorksOn(Next(p, resp, now), x);
  }

  lemma NextOk(h: seq<Option<Hub>>, p: Pass, resp: Response, now: nat)
    requires !p.pc.Finished? && Fits(RequestOf(p), resp) && PassOk(h, p) && Answers(h, p, resp)
    ensures PassOk(h, Next(p, resp, now))
  {
    match p.pc
    case Fetching => FetchOk(h, p, resp, now);
    case Working(_, _, _) => WorkOk(h, p, resp);
    case ReadingReplicas(_) => ReadOk(h, p, resp, now);
    case RemovingFinalizer => WriteEndsPass(p, resp, now);
    case AddingFinalizer => WriteEndsPass(p, resp, now);
    case WritingStatus(_) => WriteEndsPass(p, resp, now);
  }

  /** A write of the application is the last call of a pass. */
  lemma WriteEndsPass(p: Pass, resp: Response, now: nat)
    requires p.pc.RemovingFinalizer? || p.pc.AddingFinalizer? || p.pc.WritingStatus?
    requires Fits(RequestOf(p), resp)
    ensures Next(p, resp, now).pc.Finished?
  {
  }

  lemma ExtendsPassOk(g: seq<Option<Hub>>, h: seq<Option<Hub>>, p: Pass)
    requires Extends(g, h) && PassOk(g, p)
    ensures PassOk(h, p)
  {
    if p.pc.RemovingFinalizer? {
      var x :| IsVersion(g, p.app.meta.resourceVersion, x) && x.meta.deleting && HasFinalizer(x.meta)
               && p.app == WithoutFinalizer(ToSpoke(x));
      assert IsVersion(h, p.app.meta.resourceVersion, x);
    } else if p.pc.AddingFinalizer? {
      var x :| IsVersion(g, p.app.meta.resourceVersion, x) && !x.meta.deleting && !HasFinalizer(x.meta)
               && p.app == WithFinalizer(ToSpoke(x));
      assert IsVersion(h, p.app.meta.resourceVersion, x);
    } else if !p.pc.Fetching? && !p.pc.Finished? {
      var x :| IsVersion(g, p.app.meta.resourceVersion, x) && WorksOn(p, x);
      assert IsVersion(h, p.app.meta.resourceVersion, x);
    }
  }

  /* ---------- one call on the server ---------- */

  lemma UpdateAppOk(c: Cluster, p: Pass, fate: Fate)
    requires p.pc.RemovingFinalizer? || p.pc.AddingFinalizer?
    requires HistoryOk(History(c, p.key)) && Sourced(History(c, p.key), p)
    ensures var h, g := History(c, p.key), History(Serve(c, p.key, UpdateApp(p.app), fate).0, p.key);
            HistoryOk(g) && Extends(h, g)
  {
    UpdateAppends(c, p.key, p.app, fate);
    var h, cur := History(c, p.key), Current(c, p.key);
    if cur.Some? && cur.value.meta.resourceVersion == p.app.meta.resourceVersion {
      FinalizerVersionOk(h, cur.value, p);
    }
  }

  lemma FinalizerVersionOk(h: seq<Option<Hub>>, cur: Hub, p: Pass)
    requires HistoryOk(h) && h != [] && h[|h| - 1] == Some(cur) && Sourced(h, p)
    requires p.pc.RemovingFinalizer? || p.pc.AddingFinalizer?
    requires p.app.meta.resourceVersion == cur.meta.resourceVersion
    ensures HistoryOk(h + [Persisted(SpokeRewritten(cur, p.app.spec, p.app.meta.finalizers, |h|))])
  {
    assert VersionOk(cur, |h| - 1);
    SpokeRewrittenFollows(h, cur, p.app.spec, p.app.meta.finalizers);
    AppendOk(h, Persisted(SpokeRewritten(cur, p.app.spec, p.app.meta.finalizers, |h|)));
  }

  lemma UpdateStatusOk(c: Cluster, p: Pass, fate: Fate)
    requires p.pc.WritingStatus?
    requires HistoryOk(History(c, p.key)) && PassOk(History(c, p.key), p)
    ensures var h, g := History(c, p.key), History(Serve(c, p.key, UpdateStatus(p.app), fate).0, p.key);
            HistoryOk(g) && Extends(h, g)
  {
    StatusAppends(c, p.key, p.app, fate);
    var h, cur := History(c, p.key), Current(c, p.key);
    if cur.Some? && cur.value.meta.resourceVersion == p.app.meta.resourceVersion {
      StatusVersionOk(h, cur.value, p);
    }
  }

  lemma StatusVersionOk(h: seq<Option<Hub>>, cur: Hub, p: Pass)
    requires HistoryOk(h) && h != [] && h[|h| - 1] == Some(cur) && PassOk(h, p)
    requires p.pc.WritingStatus? && p.app.meta.resourceVersion == cur.meta.resourceVersion
    ensures HistoryOk(h + [Some(StatusRewritten(cur, p.app.status, |h|))])
  {
    assert VersionOk(cur, |h| - 1);
    var x :| IsVersion(h, p.app.meta.resourceVersion, x) && WorksOn(p, x);
    assert x == cur;
    StatusFollows(h, cur, p.app.status);
    AppendOk(h, Some(StatusRewritten(cur, p.app.status, |h|)));
  }

  lemma FetchAnswers(c: Cluster, p: Pass, fate: Fate)
    requires p.pc.Fetching? && HistoryOk(History(c, p.key))
    ensures var (d, resp) := Serve(c, p.key, GetApp, fate); d == c && Answers(History(c, p.key), p, resp)
  {
    var h := History(c, p.key);
    var v := ReadVersion(h, fate);
    if !fate.Faulted? && v.Some? {
      var n := if fate.StaleApp? && fate.shown < |h| then fate.shown - 1 else |h| - 1;
      assert h[n] == v && VersionOk(v.value, n);
      assert IsVersion(h, v.value.meta.resourceVersion, v.value);
    }
  }

  /** Calls never touch another application's history. */
  lemma ServeOthers(c: Cluster, k: AppKey, req: Request, fate: Fate, other: AppKey)
    requires other != k
    ensures History(Serve(c, k, req, fate).0, other) == History(c, other)
  {
  }

  /** Calls about children leave every history alone. */
  lemma ServeChild(c: Cluster, k: AppKey, req: Request, fate: Fate)
    requires !req.UpdateApp? && !req.UpdateStatus?
    ensures Serve(c, k, req, fate).0.history == c.history
  {
  }

  lemma CallExtends(c: Cluster, p: Pass, fate: Fate)
    requires !p.pc.Finished? && HistoryOk(History(c, p.key)) && PassOk(History(c, p.key), p)
    ensures var g := History(Serve(c, p.key, RequestOf(p), fate).0, p.key);
            HistoryOk(g) && Extends(History(c, p.key), g)
  {
    if p.pc.RemovingFinalizer? || p.pc.AddingFinalizer? {
      UpdateAppOk(c, p, fate);
    } else if p.pc.WritingStatus? {
      UpdateStatusOk(c, p, fate);
    } else {
      ServeChild(c, p.key, RequestOf(p), fate);
    }
  }

  /** One call of a pass keeps its application's history and the pass itself in order. */
  lemma CallOk(c: Cluster, p: Pass, fate: Fate, now: nat)
    requires !p.pc.Finished? && HistoryOk(History(c, p.key)) && PassOk(History(c, p.key), p)
    ensures var (d, resp) := Serve(c, p.key, RequestOf(p), fate);
            var g := History(d, p.key);
            HistoryOk(g) && Extends(History(c, p.key), g) && PassOk(g, Next(p, resp, now))
  {
    var (d, resp) := Serve(c, p.key, RequestOf(p), fate);
    var h, g := History(c, p.key), History(d, p.key);
    CallExtends(c, p, fate);
    if p.pc.Fetching? {
      FetchAnswers(c, p, fate);
    }
    NextOk(h, p, resp, now);
    ExtendsPassOk(h, g, Next(p, resp, now));
  }

  /* ---------- the whole system ---------- */

  /** A child write is backed by a persisted version that held the finalizer and was not
      being deleted, and asks for what the plan says for exactly that version. */
  ghost predicate WriteOk(h: seq<Option<Hub>>, plan: Plan, w: ChildWrite) {
    exists x :: IsVersion(h, w.version, x) && Backs(plan, w, x)
  }

  predicate Backs(plan: Plan, w: ChildWrite, x: Hub) {
    var planned := plan(w.app, w.step, SpecToSpoke(x.spec), x.meta.uid);
    && !x.meta.deleting && HasFinalizer(x.meta)
    && match w.request
       case CreateChild(k, d) => k == KeyOf(w.step, w.app) && planned == Some(d)
       case PatchChild(k, d) => k == KeyOf(w.step, w.app) && planned == Some(d)
       case DeleteChild(k) => k == KeyOf(w.step, w.app) && planned == None
       case _ => false
  }

  ghost predicate HistoriesOk(s: State) {
    forall k :: HistoryOk(History(s.cluster, k))
  }

  ghost predicate PassFits(s: State, id: PassId) {
    id in s.passes ==>
      var p := s.passes[id];
      p.key == id.key && p.limit == s.limit && p.plan == s.plan && PassOk(History(s.cluster, id.key), p)
  }

  ghost predicate PassesOk(s: State) {
    forall id :: PassFits(s, id)
  }

  ghost predicate WritesOk(s: State) {
    forall n :: 0 <= n < |s.writes| ==> WriteOk(History(s.cluster, s.writes[n].app), s.plan, s.writes[n])
  }

  ghost predicate Safe(s: State) {
    HistoriesOk(s) && PassesOk(s) && WritesOk(s)
  }

  ghost predicate Grows(c: Cluster, d: Cluster) {
    forall k :: Extends(History(c, k), History(d, k))
  }

  lemma GrowsKeeps(s: State, t: State)
    requires PassesOk(s) && WritesOk(s) && Grows(s.cluster, t.cluster)
    requires t.writes == s.writes && t.limit == s.limit && t.plan == s.plan
    ensures forall id :: id in t.passes && id in s.passes && t.passes[id] == s.passes[id] ==> PassFits(t, id)
    ensures WritesOk(t)
  {
    forall id | id in t.passes && id in s.passes && t.passes[id] == s.passes[id] ensures PassFits(t, id) {
      assert PassFits(s, id);
      ExtendsPassOk(History(s.cluster, id.key), History(t.cluster, id.key), s.passes[id]);
    }
    forall n | 0 <= n < |t.writes| ensures WriteOk(History(t.cluster, t.writes[n].app), t.plan, t.writes[n]) {
      var w := s.writes[n];
      var x :| IsVersion(History(s.cluster, w.app), w.version, x) && Backs(s.plan, w, x);
      assert IsVersion(History(t.cluster, w.app), w.version, x);
    }
  }

  lemma UserSafe(s: State, l: Label)
    requires Safe(s) && ByUser(l)
    ensures Safe(Exec(s, l))
  {
    var t := Exec(s, l);
    forall k ensures HistoryOk(History(t.cluster, k)) && Extends(History(s.cluster, k), History(t.cluster, k)) {
      UserStepOk(s.cluster, l, k);
    }
    GrowsKeeps(s, t);
    assert forall id :: PassFits(t, id);
  }

  lemma LoggedOk(h: seq<Option<Hub>>, p: Pass)
    requires !p.pc.Finished? && PassOk(h, p)
    ensures forall n :: 0 <= n < |Logged(p)| ==> Logged(p)[n].app == p.key && WriteOk(h, p.plan, Logged(p)[n])
  {
    if Logged(p) != [] {
      var x :| IsVersion(h, p.app.meta.resourceVersion, x) && WorksOn(p, x);
      assert Backs(p.plan, Logged(p)[0], x);
    }
  }

  lemma CallGrows(s: State, id: PassId, fate: Fate, now: nat)
    requires Safe(s) && Runnable(s, id)
    ensures var t := CallStep(s, id, fate, now);
            Grows(s.cluster, t.cluster) && HistoriesOk(t) && PassFits(t, id)
  {
    var p := s.passes[id];
    assert PassFits(s, id);
    assert HistoryOk(History(s.cluster, p.key));
    CallOk(s.cluster, p, fate, now);
    var t := CallStep(s, id, fate, now);
    forall k ensures Extends(History(s.cluster, k), History(t.cluster, k)) && HistoryOk(History(t.cluster, k)) {
      if k != p.key {
        ServeOthers(s.cluster, p.key, RequestOf(p), fate, k);
      }
    }
    NextKeepsKey(p, Serve(s.cluster, p.key, RequestOf(p), fate).1, now);
  }

  lemma NextKeepsKey(p: Pass, resp: Response, now: nat)
    requires !p.pc.Finished? && Fits(RequestOf(p), resp)
    ensures var q := Next(p, resp, now); q.key == p.key && q.limit == p.limit && q.plan == p.plan
  {
    if p.pc.Working? {
      WorkKeepsApp(p, resp);
    }
  }

  /** The writes logged so far, and those of the call. */
  lemma CallWritesOk(s: State, id: PassId, fate: Fate, now: nat)
    requires Safe(s) && Runnable(s, id) && Grows(s.cluster, CallStep(s, id, fate, now).cluster)
    requires var t := CallStep(s, id, fate, now); WritesOk(t.(writes := s.writes))
    ensures WritesOk(CallStep(s, id, fate, now))
  {
    var t, p := CallStep(s, id, fate, now), s.passes[id];
    assert PassFits(s, id);
    LoggedOk(History(s.cluster, p.key), p);
    forall n | 0 <= n < |t.writes| ensures WriteOk(History(t.cluster, t.writes[n].app), t.plan, t.writes[n]) {
      if n < |s.writes| {
        assert WriteOk(History(t.cluster, s.writes[n].app), t.plan, s.writes[n]);
      } else {
        var w := Logged(p)[n - |s.writes|];
        var x :| IsVersion(History(s.cluster, w.app), w.version, x) && Backs(s.plan, w, x);
        assert IsVersion(History(t.cluster, w.app), w.version, x);
      }
    }
  }

  lemma CallSafe(s: State, id: PassId, fate: Fate, now: nat)
    requires Safe(s) && Runnable(s, id)
    ensures Safe(CallStep(s, id, fate, now))
  {
    var t := CallStep(s, id, fate, now);
    CallGrows(s, id, fate, now);
    GrowsKeeps(s, t.(writes := s.writes));
    forall other ensures PassFits(t, other) {
      if other != id {
        assert PassFits(t.(writes := s.writes), other) || other !in t.passes;
      }
    }
    CallWritesOk(s, id, fate, now);
  }

  lemma ExecSafe(s: State, l: Label)
    requires Safe(s)
    ensures Safe(Exec(s, l))
  {
    match l
    case Drift(k, o) =>
      var t := Exec(s, l);
      assert Grows(s.cluster, t.cluster);
      GrowsKeeps(s, t);
      assert HistoriesOk(t) by { assert forall k :: History(t.cluster, k) == History(s.cluster, k); }
      assert forall id :: PassFits(t, id);
    case Start(id) =>
      var t := Exec(s, l);
      GrowsKeeps(s, t);
      forall other ensures PassFits(t, other) {
        assert PassFits(s, other);
      }
    case Call(id, fate, now) =>
      if Runnable(s, id) {
        CallSafe(s, id, fate, now);
      }
    case _ => UserSafe(s, l);
  }

  lemma InitialSafe(limit: nat, plan: Plan, children: map<Key, Obj>)
    ensures Safe(Initial(limit, plan, children))
  {
  }

  /** Every reachable state is safe. */
  lemma {:induction false} RunSafe(limit: nat, plan: Plan, children: map<Key, Obj>, ls: seq<Label>)
    ensures Safe(Run(Initial(limit, plan, children), ls))
  {
    if ls == [] {
    } else {
      RunSafe(limit, plan, children, ls[..|ls| - 1]);
      ExecSafe(Run(Initial(limit, plan, children), ls[..|ls| - 1]), ls[|ls| - 1]);
    }
  }
}
