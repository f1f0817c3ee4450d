/** What one pass reports and how it ends, over every run: the status it writes, the message it
    leaves, and the requeue it asks for, in the very words and numbers the operator uses.
    Delays are in milliseconds. */
module Outcomes {
  import opened Meta
  import opened V1Alpha1
  import opened Text
  import opened Children
  import opened Errors
  import opened Conditions
  import opened Conversion
  import opened Passes
  import opened Protocol
  import opened Safety
  import opened Guarantees

  /* ---------- how a pass ends ---------- */

  /** The end of a pass that failed in a sub-reconciler, by the API's reason. */
  predicate EndsByReason(res: Result, e: Error) {
    match ReasonOf(e)
    case Conflict => res == Result(None, 1_000, false)
    case NotFound => res == Result(None, 300_000, false)
    case Forbidden => res == Result(None, 300_000, false)
    case Invalid => res == Result(None, 300_000, false)
    case BadRequest => res == Result(None, 300_000, false)
    case _ => res == Result(Some(e), 30_000, false)
  }

  /** The end of a pass whose status write was answered: refused, or leaving x stored. */
  predicate EndsAfterStatus(res: Result, resp: Response, failure: Option<Failure>, x: Option<Hub>) {
    match resp
    case Failed(error) =>
      res == if ReasonOf(error) == Conflict then Result(None, 1_000, false) else Result(Some(error), 0, false)
    case _ =>
      && x.Some?
      && match failure
         case Some(f) => EndsByReason(res, f.error)
         case None =>
           res == Result(None, if x.value.status.readyReplicas < x.value.spec.replicas.min then 10_000 else 0, false)
  }

  /** x holds what the pass reports, and asks for as many replicas as the pass has read. */
  predicate Holds(x: Option<Hub>, p: Pass) {
    && x.Some? && x.value.status == StatusToHub(p.app.status)
    && x.value.spec.replicas.min == p.app.spec.replicas.min
  }

  /** What a status write that is taken up leaves as the current version. */
  lemma StatusStored(c: Cluster, p: Pass, fate: Fate)
    requires p.pc.WritingStatus? && HistoryOk(History(c, p.key)) && Sourced(History(c, p.key), p)
    requires Serve(c, p.key, UpdateStatus(p.app), fate).1.Ok?
    ensures Holds(Current(Serve(c, p.key, UpdateStatus(p.app), fate).0, p.key), p)
  {
    var h, cur := History(c, p.key), Current(c, p.key).value;
    var y :| IsVersion(h, p.app.meta.resourceVersion, y) && WorksOn(p, y);
    CurrentIsRead(h, cur, y);
  }

  lemma StatusAnswerEnds(h: seq<Option<Hub>>, p: Pass, resp: Response, now: nat, x: Option<Hub>)
    requires p.pc.WritingStatus? && Fits(RequestOf(p), resp) && PassOk(h, p) && (resp.Ok? ==> Holds(x, p))
    ensures var q := Next(p, resp, now);
            q.pc.Finished? && EndsAfterStatus(q.pc.result, resp, p.pc.failure, x)
  {
    if p.pc.failure.Some? {
      KnownIsAnswered(p.pc.failure.value.error);
    }
  }

  /** The status write of one pass and what follows it. */
  lemma StatusCallDecides(c: Cluster, p: Pass, fate: Fate, now: nat)
    requires p.pc.WritingStatus? && HistoryOk(History(c, p.key)) && PassOk(History(c, p.key), p)
    ensures var (d, resp) := Serve(c, p.key, UpdateStatus(p.app), fate);
            var q := Next(p, resp, now);
            q.pc.Finished? && EndsAfterStatus(q.pc.result, resp, p.pc.failure, Current(d, p.key))
  {
    var (d, resp) := Serve(c, p.key, UpdateStatus(p.app), fate);
    if resp.Ok? {
      StatusStored(c, p, fate);
    }
    StatusAnswerEnds(History(c, p.key), p, resp, now, Current(d, p.key));
  }

  lemma StatusStepDecides(s: State, id: PassId, fate: Fate, now: nat)
    requires Safe(s) && Runnable(s, id) && s.passes[id].pc.WritingStatus?
    ensures var p, t := s.passes[id], CallStep(s, id, fate, now);
            && t.passes[id].pc.Finished?
            && EndsAfterStatus(t.passes[id].pc.result, Serve(s.cluster, id.key, UpdateStatus(p.app), fate).1,
                               p.pc.failure, Current(t.cluster, id.key))
  {
    assert PassFits(s, id);
    assert HistoryOk(History(s.cluster, id.key));
    StatusCallDecides(s.cluster, s.passes[id], fate, now);
  }

  /** The whole decision after a status write, in every run: a refused write requeues in 1 s for
      a conflict and is returned otherwise; a stored one leads to the requeue of the failure
      there was, and without one to another look in 10 s exactly while the stored status shows
      fewer ready replicas than the stored spec asks for. */
  lemma {:induction false} StatusWriteDecides(
      limit: nat, plan: Plan, children: map<Key, Obj>, ls: seq<Label>, id: PassId, fate: Fate, now: nat)
    ensures var s := Run(Initial(limit, plan, children), ls);
            Runnable(s, id) && s.passes[id].pc.WritingStatus? ==>
              var p, t := s.passes[id], Exec(s, Call(id, fate, now));
              && t.passes[id].pc.Finished?
              && EndsAfterStatus(t.passes[id].pc.result, Serve(s.cluster, id.key, UpdateStatus(p.app), fate).1,
                                 p.pc.failure, Current(t.cluster, id.key))
  {
    RunSafe(limit, plan, children, ls);
    var s := Run(Initial(limit, plan, children), ls);
    if Runnable(s, id) && s.passes[id].pc.WritingStatus? {
      StatusStepDecides(s, id, fate, now);
    }
  }

  /** Where a pass is after its fetch was answered. */
  predicate AfterFetch(resp: Response, q: Pass) {
    match resp
    case GotApp(a) =>
      if "platform.example.io/cleanup" in a.meta.finalizers
      then if a.meta.deleting then q.pc.RemovingFinalizer? else q.pc.Working? && q.pc.step == 0 && q.pc.attempt == 0
      else if a.meta.deleting then q.pc == Finished(Result(None, 0, false)) else q.pc.AddingFinalizer?
    case Failed(error) =>
      q.pc == Finished(Result(if ReasonOf(error) == NotFound then None else Some(error), 0, false))
    case _ => false
  }

  /** The error is returned as it came, with these words before it. */
  predicate Returned(res: Result, words: string, error: Error) {
    && res == Result(res.error, 0, false) && res.error.Some?
    && ReasonOf(res.error.value) == ReasonOf(error) && MessageOf(res.error.value) == words + MessageOf(error)
  }

  predicate AfterRemoval(resp: Response, q: Pass) {
    match resp
    case Failed(error) =>
      q.pc.Finished? &&
      if ReasonOf(error) == Conflict then q.pc.result == Result(None, 1_000, false)
      else Returned(q.pc.result, "removing finalizer: ", error)
    case _ => q.pc == Finished(Result(None, 0, true))
  }

  predicate AfterAdoption(resp: Response, q: Pass) {
    match resp
    case Failed(error) => q.pc.Finished? && Returned(q.pc.result, "adding finalizer: ", error)
    case _ => q.pc == Finished(Result(None, 0, true))
  }

  lemma ReturnedAs(c: Context, words: string, error: Error)
    requires words == ContextText(c) + ": "
    ensures Returned(Result(Some(Wrapped(c, error)), 0, false), words, error)
  {
  }

  lemma OutsideAnswered(p: Pass, resp: Response, now: nat)
    requires !p.pc.Finished? && Fits(RequestOf(p), resp)
    ensures var q := Next(p, resp, now);
            && (p.pc.Fetching? ==> AfterFetch(resp, q))
            && (p.pc.RemovingFinalizer? ==> AfterRemoval(resp, q))
            && (p.pc.AddingFinalizer? ==> AfterAdoption(resp, q))
  {
    if resp.Failed? {
      ReturnedAs(ToRemoveFinalizer, "removing finalizer: ", resp.error);
      ReturnedAs(ToAddFinalizer, "adding finalizer: ", resp.error);
    }
  }

  /** Where pass id goes from here, unless it works on children or writes its status. */
  predicate GoesOn(s: State, id: PassId, fate: Fate, q: Pass)
    requires Runnable(s, id)
  {
    var p := s.passes[id];
    match p.pc
    case Fetching => AfterFetch(Serve(s.cluster, id.key, GetApp, fate).1, q)
    case RemovingFinalizer => AfterRemoval(Serve(s.cluster, id.key, UpdateApp(p.app), fate).1, q)
    case AddingFinalizer => AfterAdoption(Serve(s.cluster, id.key, UpdateApp(p.app), fate).1, q)
    case _ => true
  }

  lemma CallGoesOn(s: State, id: PassId, fate: Fate, now: nat)
    requires Safe(s) && Runnable(s, id)
    ensures GoesOn(s, id, fate, CallStep(s, id, fate, now).passes[id])
  {
    assert PassFits(s, id);
    var p := s.passes[id];
    OutsideAnswered(p, Serve(s.cluster, id.key, RequestOf(p), fate).1, now);
  }

  /** The other answers that end a pass, or send it on its way, in every run. */
  lemma {:induction false} OtherAnswersDecide(
      limit: nat, plan: Plan, children: map<Key, Obj>, ls: seq<Label>, id: PassId, fate: Fate, now: nat)
    ensures var s := Run(Initial(limit, plan, children), ls);
            Runnable(s, id) ==> GoesOn(s, id, fate, Exec(s, Call(id, fate, now)).passes[id])
  {
    RunSafe(limit, plan, children, ls);
    var s := Run(Initial(limit, plan, children), ls);
    if Runnable(s, id) {
      CallGoesOn(s, id, fate, now);
    }
  }

  /* ---------- what a pass reports ---------- */

  /** n is what the Deployment as read shows under its ready replicas, 0 where it shows none;
      where it could not be read, what was reported before. */
  predicate Counts(read: Response, before: int32, n: int32) {
    match read
    case GotChild(o) =>
      (match FieldAt(o, Server(ReadyReplicas))
       case Some(VInt(m)) => n == m
       case _ => n == 0)
    case _ => n == before
  }

  predicate Says(c: Condition, t: ConditionType, s: ConditionStatus, reason: string, message: string) {
    c.conditionType == t && c.status == s && c.reason == reason && c.message == message
  }

  /** The four conditions, word for word. */
  predicate Tells(cs: seq<Condition>, failure: Option<Failure>, ready: int32, min: int32) {
    && |cs| == 4 && Says(cs[1], ConfigurationValid, True, "Valid", "Configuration is valid")
    && match failure
       case Some(f) =>
         && Says(cs[0], Progressing, False, "ReconcileError", MessageOf(f.error))
         && Says(cs[2], Degraded, True, "ReconcileError", MessageOf(f.error))
         && Says(cs[3], Ready, False, "ReconcileError", "Reconciliation failed")
       case None =>
         if ready >= min then
           && Says(cs[0], Progressing, False, "Deployed", "All resources reconciled successfully")
           && Says(cs[2], Degraded, False, "Healthy", "Application is healthy")
           && Says(cs[3], Ready, True, "Available", "Application is available")
         else
           var share := Itoa(ready) + "/" + Itoa(min);
           && Says(cs[0], Progressing, True, "Deploying", "Waiting for " + share + " replicas")
           && Says(cs[2], Degraded, False, "Deploying", "Deployment is rolling out")
           && Says(cs[3], Ready, False, "InsufficientReplicas", "Only " + share + " replicas ready")
  }

  /** What a pass is going to report after its read of the Deployment. */
  predicate Drawn(p: Pass, read: Response, q: Pass) {
    && p.pc.ReadingReplicas? && q.pc == WritingStatus(p.pc.failure)
    && q.app.meta == p.app.meta && q.app.spec == p.app.spec
    && Counts(read, p.app.status.readyReplicas, q.app.status.readyReplicas)
    && Tells(q.app.status.conditions, p.pc.failure, q.app.status.readyReplicas, p.app.spec.replicas.min)
  }

  lemma ReadCounts(p: Pass, resp: Response, now: nat)
    requires p.pc.ReadingReplicas? && Fits(RequestOf(p), resp)
    ensures Counts(resp, p.app.status.readyReplicas, Next(p, resp, now).app.status.readyReplicas)
  {
  }

  lemma TellsOutcome(cs: seq<Condition>, failure: Option<Failure>, ready: int32, min: int32, now: nat)
    requires Proceeding(cs)
    ensures Tells(Settled(cs, OutcomeOf(failure, ready, min), now), failure, ready, min)
  {
    var w := Triple(OutcomeOf(failure, ready, min));
    ThreeSets(cs, w.0, w.1, w.2, now);
    var a, b := Itoa(ready), Itoa(min);
    assert "Waiting for " + (a + "/" + b) + " replicas" == "Waiting for " + a + "/" + b + " replicas";
    assert "Only " + (a + "/" + b) + " replicas ready" == "Only " + a + "/" + b + " replicas ready";
  }

  lemma ReadIsDrawn(p: Pass, resp: Response, now: nat)
    requires p.pc.ReadingReplicas? && Fits(RequestOf(p), resp) && Proceeding(p.app.status.conditions)
    ensures Drawn(p, resp, Next(p, resp, now))
  {
    var q := Next(p, resp, now);
    TellsOutcome(p.app.status.conditions, p.pc.failure, q.app.status.readyReplicas, p.app.spec.replicas.min, now);
  }

  /* ---------- from the read to the stored status ---------- */

  /** A pass waits unchanged while others move. */
  lemma {:induction false} WaitsUnmoved(s: State, mid: seq<Label>, id: PassId)
    requires id in s.passes && forall l :: l in mid ==> !(l.Call? && l.id == id)
    ensures id in Run(s, mid).passes && Run(s, mid).passes[id] == s.passes[id]
  {
    if mid == [] {
    } else {
      assert mid[|mid| - 1] in mid;
      WaitsUnmoved(s, mid[..|mid| - 1], id);
    }
  }

  /** The new version x reports on the version cur it replaces, from this read. */
  predicate Reported(cur: Hub, x: Hub, failure: Option<Failure>, read: Response) {
    && Counts(read, cur.status.readyReplicas, x.status.readyReplicas)
    && Tells(x.status.conditions, failure, x.status.readyReplicas, x.spec.replicas.min)
    && x.status.observedGeneration == cur.meta.generation && x.status.deployedVersion == cur.spec.image.tag
    && x.status.url == UrlShown(cur.spec.gateway, cur.status.url)
    && x.spec.replicas == cur.spec.replicas
  }

  ghost predicate ReportAppended(g: seq<Option<Hub>>, h: seq<Option<Hub>>, failure: Option<Failure>, read: Response) {
    h == g ||
    (g != [] && |h| == |g| + 1 && g[|g| - 1].Some? && h[|g|].Some?
     && Reported(g[|g| - 1].value, h[|g|].value, failure, read))
  }

  /** The version a pass works on is the one with which it first read the application. */
  lemma DrawnFromCurrent(f: seq<Option<Hub>>, g: seq<Option<Hub>>, p: Pass, q: Pass, read: Response, cur: Hub)
    requires PassOk(f, p) && Drawn(p, read, q) && HistoryOk(g) && Extends(f, g) && PassOk(g, q)
    requires g != [] && g[|g| - 1] == Some(cur) && q.app.meta.resourceVersion == cur.meta.resourceVersion
    ensures ReportAppended(g, g + [Some(StatusRewritten(cur, q.app.status, |g|))], p.pc.failure, read)
  {
    var x :| IsVersion(f, p.app.meta.resourceVersion, x) && WorksOn(p, x);
    assert IsVersion(g, p.app.meta.resourceVersion, x);
    CurrentIsRead(g, cur, x);
    var y :| IsVersion(g, q.app.meta.resourceVersion, y) && WorksOn(q, y);
    CurrentIsRead(g, cur, y);
  }

  lemma WrittenAsDrawn(f: seq<Option<Hub>>, c: Cluster, p: Pass, q: Pass, read: Response, fate: Fate)
    requires PassOk(f, p) && Drawn(p, read, q) && HistoryOk(History(c, q.key)) && Extends(f, History(c, q.key))
    requires PassOk(History(c, q.key), q)
    ensures ReportAppended(History(c, q.key), History(Serve(c, q.key, UpdateStatus(q.app), fate).0, q.key),
                           p.pc.failure, read)
  {
    StatusAppends(c, q.key, q.app, fate);
    var g, h := History(c, q.key), History(Serve(c, q.key, UpdateStatus(q.app), fate).0, q.key);
    if h != g {
      DrawnFromCurrent(f, g, p, q, read, Current(c, q.key).value);
    }
  }

  /** The read of the Deployment by pass id in state s. */
  function DeploymentRead(s: State, id: PassId, fate: Fate): Response {
    Serve(s.cluster, id.key, GetChild(Key(DeploymentKind, id.key.namespace, id.key.name)), fate).1
  }

  lemma ReadCallDraws(s: State, id: PassId, fate: Fate, t: nat)
    requires Safe(s) && Runnable(s, id) && s.passes[id].pc.ReadingReplicas?
    ensures var u := CallStep(s, id, fate, t);
            Drawn(s.passes[id], DeploymentRead(s, id, fate), u.passes[id]) && u.passes[id].key == id.key
  {
    assert PassFits(s, id);
    var p := s.passes[id];
    assert p.key.name + "" == p.key.name;
    ReadIsDrawn(p, DeploymentRead(s, id, fate), t);
    NextKeepsKey(p, DeploymentRead(s, id, fate), t);
  }

  lemma ReadThenWrite(s: State, u: State, id: PassId, read: Response, fate: Fate, t: nat)
    requires Safe(s) && Waiting(s, u, id, read)
    ensures ReportAppended(History(u.cluster, id.key), History(CallStep(u, id, fate, t).cluster, id.key),
                           s.passes[id].pc.failure, read)
  {
    assert PassFits(s, id) && PassFits(u, id);
    assert HistoryOk(History(u.cluster, id.key)) && Extends(History(s.cluster, id.key), History(u.cluster, id.key));
    WrittenAsDrawn(History(s.cluster, id.key), u.cluster, s.passes[id], u.passes[id], read, fate);
  }

  /** Pass id has drawn its report from a read in s, and others may have moved since. */
  ghost predicate Waiting(s: State, u: State, id: PassId, read: Response) {
    && id in s.passes && Safe(u) && Grows(s.cluster, u.cluster) && Runnable(u, id)
    && Drawn(s.passes[id], read, u.passes[id])
  }

  lemma ReadWaits(s: State, id: PassId, fate: Fate, t: nat)
    requires Safe(s) && Runnable(s, id) && s.passes[id].pc.ReadingReplicas?
    ensures Waiting(s, CallStep(s, id, fate, t), id, DeploymentRead(s, id, fate))
  {
    ReadCallDraws(s, id, fate, t);
    CallSafe(s, id, fate, t);
    CallGrows(s, id, fate, t);
  }

  lemma StillWaiting(s: State, r: State, id: PassId, read: Response, mid: seq<Label>)
    requires Waiting(s, r, id, read) && forall l :: l in mid ==> !(l.Call? && l.id == id)
    ensures Waiting(s, Run(r, mid), id, read)
  {
    RunGrows(r, mid);
    WaitsUnmoved(r, mid, id);
    GrowsTrans(s.cluster, r.cluster, Run(r, mid).cluster);
  }

  /** The pass reads, others move, the pass writes. */
  function AfterRead(s: State, id: PassId, fate: Fate, t: nat, mid: seq<Label>): State {
    Run(Exec(s, Call(id, fate, t)), mid)
  }

  /** What the status write of pass id then adds to the history of its application. */
  ghost predicate WritesReport(s: State, u: State, id: PassId, readFate: Fate, writeFate: Fate, t: nat)
    requires id in s.passes && s.passes[id].pc.ReadingReplicas?
  {
    ReportAppended(History(u.cluster, id.key), History(Exec(u, Call(id, writeFate, t)).cluster, id.key),
                   s.passes[id].pc.failure, DeploymentRead(s, id, readFate))
  }

  lemma ExecIsCall(s: State, id: PassId, fate: Fate, t: nat)
    requires Runnable(s, id)
    ensures Exec(s, Call(id, fate, t)) == CallStep(s, id, fate, t)
  {
  }

  lemma WaitingWrites(s: State, u: State, id: PassId, readFate: Fate, writeFate: Fate, t: nat)
    requires Safe(s) && id in s.passes && s.passes[id].pc.ReadingReplicas?
    requires Waiting(s, u, id, DeploymentRead(s, id, readFate))
    ensures WritesReport(s, u, id, readFate, writeFate, t)
  {
    ReadThenWrite(s, u, id, DeploymentRead(s, id, readFate), writeFate, t);
    ExecIsCall(u, id, writeFate, t);
  }

  lemma ReadWaitWrite(s: State, id: PassId, readFate: Fate, t1: nat, mid: seq<Label>, writeFate: Fate, t2: nat)
    requires Safe(s) && Runnable(s, id) && s.passes[id].pc.ReadingReplicas?
    requires forall l :: l in mid ==> !(l.Call? && l.id == id)
    ensures WritesReport(s, AfterRead(s, id, readFate, t1, mid), id, readFate, writeFate, t2)
  {
    var r := CallStep(s, id, readFate, t1);
    ReadWaits(s, id, readFate, t1);
    ExecIsCall(s, id, readFate, t1);
    StillWaiting(s, r, id, DeploymentRead(s, id, readFate), mid);
    WaitingWrites(s, Run(r, mid), id, readFate, writeFate, t2);
  }

  /** In every run: a pass reads the Deployment, others do anything in between, the pass writes
      its status. Where that stores a new version, the new version says just what the read
      showed, of the generation, tag and gateway it replaces. */
  lemma {:induction false} StoredAsRead(limit: nat, plan: Plan, children: map<Key, Obj>, ls: seq<Label>, id: PassId,
                                        readFate: Fate, t1: nat, mid: seq<Label>, writeFate: Fate, t2: nat)
    requires forall l :: l in mid ==> !(l.Call? && l.id == id)
    ensures var s := Run(Initial(limit, plan, children), ls);
            Runnable(s, id) && s.passes[id].pc.ReadingReplicas? ==>
              WritesReport(s, AfterRead(s, id, readFate, t1, mid), id, readFate, writeFate, t2)
  {
    RunSafe(limit, plan, children, ls);
    var s := Run(Initial(limit, plan, children), ls);
    if Runnable(s, id) && s.passes[id].pc.ReadingReplicas? {
      ReadWaitWrite(s, id, readFate, t1, mid, writeFate, t2);
    }
  }

  /* ---------- readiness ---------- */

  /** The ready replicas that a stored Deployment shows. */
  predicate Runs(o: Obj, min: int32) {
    match FieldAt(o, Server(ReadyReplicas))
    case Some(VInt(n)) => n >= min
    case _ => 0 >= min
  }

  lemma ReadyAsTold(cs: seq<Condition>, failure: Option<Failure>, ready: int32, min: int32)
    requires Tells(cs, failure, ready, min)
    ensures IsReady(cs) <==> failure.None? && ready >= min
  {
    FindIs(cs, Ready, 3);
  }

  /** Enough replicas are ready, as far as a read with this fate can tell: as the Deployment
      shows it that is stored, or that a stale cache still holds; where the read fails or finds
      no Deployment, as cur reported it before. */
  predicate EnoughReady(c: Cluster, k: AppKey, fate: Fate, cur: Hub, min: int32) {
    var o := match fate
             case Faulted(_, _, _) => None
             case StaleChild(seen) => seen
             case _ => Stored(c, Key(DeploymentKind, k.namespace, k.name));
    if o.Some? then Runs(o.value, min) else cur.status.readyReplicas >= min
  }

  lemma ReadyAsRead(c: Cluster, k: AppKey, cur: Hub, x: Hub, failure: Option<Failure>, fate: Fate)
    requires Reported(cur, x, failure, Serve(c, k, GetChild(Key(DeploymentKind, k.namespace, k.name)), fate).1)
    ensures IsReady(x.status.conditions) <==> failure.None? && EnoughReady(c, k, fate, cur, x.spec.replicas.min)
  {
    ReadyAsTold(x.status.conditions, failure, x.status.readyReplicas, x.spec.replicas.min);
  }

  /** A new version, if there is one, says Ready exactly when nothing failed and enough is ready. */
  ghost predicate ReadyTruly(
      c: Cluster, k: AppKey, fate: Fate, g: seq<Option<Hub>>, h: seq<Option<Hub>>, failure: Option<Failure>)
  {
    |h| > |g| ==>
      && g != [] && g[|g| - 1].Some? && h[|g|].Some?
      && (IsReady(h[|g|].value.status.conditions) <==>
            failure.None? && EnoughReady(c, k, fate, g[|g| - 1].value, h[|g|].value.spec.replicas.min))
  }

  lemma ReportedTruly(s: State, id: PassId, g: seq<Option<Hub>>, h: seq<Option<Hub>>, failure: Option<Failure>,
                      fate: Fate)
    requires ReportAppended(g, h, failure, DeploymentRead(s, id, fate))
    ensures ReadyTruly(s.cluster, id.key, fate, g, h, failure)
  {
    if |h| > |g| {
      ReadyAsRead(s.cluster, id.key, g[|g| - 1].value, h[|g|].value, failure, fate);
    }
  }

  /** In every run: the new version says Ready if and only if no sub-reconciler failed and
      enough replicas were ready as far as the read could tell. */
  lemma {:induction false} ReadyMeansRunning(
      limit: nat, plan: Plan, children: map<Key, Obj>, ls: seq<Label>, id: PassId,
      readFate: Fate, t1: nat, mid: seq<Label>, writeFate: Fate, t2: nat)
    requires forall l :: l in mid ==> !(l.Call? && l.id == id)
    ensures var s := Run(Initial(limit, plan, children), ls);
            Runnable(s, id) && s.passes[id].pc.ReadingReplicas? ==>
              var u := AfterRead(s, id, readFate, t1, mid);
              ReadyTruly(s.cluster, id.key, readFate, History(u.cluster, id.key),
                         History(Exec(u, Call(id, writeFate, t2)).cluster, id.key), s.passes[id].pc.failure)
  {
    StoredAsRead(limit, plan, children, ls, id, readFate, t1, mid, writeFate, t2);
    var s := Run(Initial(limit, plan, children), ls);
    if Runnable(s, id) && s.passes[id].pc.ReadingReplicas? {
      var u := AfterRead(s, id, readFate, t1, mid);
      var g, h := History(u.cluster, id.key), History(Exec(u, Call(id, writeFate, t2)).cluster, id.key);
      ReportedTruly(s, id, g, h, s.passes[id].pc.failure, readFate);
    }
  }

  /* ---------- failures ---------- */

  predicate HasFailed(p: Pass) {
    (p.pc.ReadingReplicas? || p.pc.WritingStatus?) && p.pc.failure.Some?
  }

  /** An apply that ends with a conflict has tried limit + 1 times, all in vain, and slept
      100 ms, 200 ms, 400 ms, ... in between: for the deployed limit four times and 700 ms. */
  ghost predicate TriedInVain(p: Pass, limit: nat) {
    && |p.trail| == limit + 1 && (forall j :: 0 <= j < |p.trail| ==> ReasonOf(p.trail[j]) == Conflict)
    && p.slept == 100 * (Pow2(limit) - 1)
    && (limit == MAX_APPLY_RETRIES ==> |p.trail| == 4 && p.slept == 700)
  }

  lemma ExhaustedInVain(p: Pass)
    requires Retrying(p) && HasFailed(p)
    requires Planned(p, p.pc.failure.value.step).Some? && ReasonOf(p.pc.failure.value.error) == Conflict
    ensures TriedInVain(p, p.limit)
  {
    WaitedClosed(p.limit);
    assert Pow2(0) == 1 && Pow2(1) == 2 && Pow2(2) == 4 && Pow2(3) == 8;
    forall j | 0 <= j < |p.trail| ensures ReasonOf(p.trail[j]) == Conflict {
      assert IsConflict(p.trail[j]);
    }
  }

  /** In every run: a pass reports a conflict about a child it wants only after all its
      attempts conflicted. */
  lemma {:induction false} ConflictsAreExhausted(
      limit: nat, plan: Plan, children: map<Key, Obj>, ls: seq<Label>, id: PassId)
    ensures var s := Run(Initial(limit, plan, children), ls);
            id in s.passes && HasFailed(s.passes[id]) ==>
              var p := s.passes[id];
              var f := p.pc.failure.value;
              plan(id.key, f.step, p.app.spec, p.app.meta.uid).Some? && ReasonOf(f.error) == Conflict ==>
                TriedInVain(p, limit)
  {
    RunSafe(limit, plan, children, ls);
    RunKeepsPlan(Initial(limit, plan, children), ls);
    var s := Run(Initial(limit, plan, children), ls);
    assert PassFits(s, id);
    if id in s.passes && HasFailed(s.passes[id]) {
      var p := s.passes[id];
      var f := p.pc.failure.value;
      if plan(id.key, f.step, p.app.spec, p.app.meta.uid).Some? && ReasonOf(f.error) == Conflict {
        ExhaustedInVain(p);
      }
    }
  }

  /** What an error with this reason is called. */
  predicate IsCalled(class_: string, reason: Reason) {
    match reason
    case Conflict => class_ == "conflict"
    case NotFound => class_ == "permanent"
    case Forbidden => class_ == "permanent"
    case Invalid => class_ == "permanent"
    case BadRequest => class_ == "permanent"
    case _ => class_ == "transient"
  }

  function TextOf(name: string, class_: string, kind: string, resource: string, rest: string): string {
    "reconciling " + name + ": " + class_ + " error on " + kind + " " + resource + ": " + rest
  }

  /** The message names the sub-reconciler that failed, the class of the error, and the object
      that was to be applied; the application where there was nothing to apply or the backoff
      was cancelled. */
  ghost predicate TellsWhere(message: string, p: Pass, f: Failure) {
    var name := ["Deployment", "Service", "HPA", "HTTPRoute", "NetworkPolicy", "PodDisruptionBudget",
                 "ServiceMonitor"][f.step];
    var kind := ["Deployment", "Service", "HorizontalPodAutoscaler", "HTTPRoute", "NetworkPolicy",
                 "PodDisruptionBudget", "ServiceMonitor"][f.step];
    var resource := p.key.name + ["", "", "", "", "-netpol", "-pdb", "-monitor"][f.step];
    exists class_, rest :: IsCalled(class_, ReasonOf(f.error)) &&
      if p.plan(p.key, f.step, p.app.spec, p.app.meta.uid).None? then
        message == TextOf(name, class_, name, p.key.name, rest)
      else
        || message == TextOf(name, class_, kind, resource, rest)
        || (rest == "context canceled" && message == TextOf(name, class_, name, p.key.name, rest))
  }

  lemma TextAsMade(name: string, class_: string, kind: string, resource: string, rest: string)
    ensures ("reconciling " + name) + ": " + (class_ + " error on " + kind + " " + resource + ": " + rest)
            == TextOf(name, class_, kind, resource, rest)
  {
  }

  lemma MessageIs(f: Failure)
    requires KnownClass(f.error) && f.error.Wrapped? && f.error.context == ToReconcile(f.step)
    requires f.error.inner.Reconcile?
    ensures var r := f.error.inner;
            MessageOf(f.error) == TextOf(StepName(f.step), ClassText(ClassOfReason(ReasonOf(f.error))),
                                         SubjectText(r.kind), r.resource, MessageOf(r.inner))
  {
    var r := f.error.inner;
    assert AsReconcile(f.error) == AsReconcile(r) == r;
    assert MessageOf(f.error) == ("reconciling " + StepName(f.step)) + ": " + MessageOf(r);
    TextAsMade(StepName(f.step), ClassText(r.errorClass), SubjectText(r.kind), r.resource, MessageOf(r.inner));
  }

  lemma ClassCalled(reason: Reason)
    ensures IsCalled(ClassText(ClassOfReason(reason)), reason)
  {
  }

  /** The names of the sub-reconcilers, and of the objects they apply. */
  lemma NamesAre(i: Step, key: AppKey)
    ensures StepName(i) == SubjectText(SubReconciler(i)) ==
              ["Deployment", "Service", "HPA", "HTTPRoute", "NetworkPolicy", "PodDisruptionBudget",
               "ServiceMonitor"][i]
    ensures SubjectText(ObjectOf(i)) == ["Deployment", "Service", "HorizontalPodAutoscaler", "HTTPRoute",
                                         "NetworkPolicy", "PodDisruptionBudget", "ServiceMonitor"][i]
    ensures KeyOf(i, key).name == key.name + ["", "", "", "", "-netpol", "-pdb", "-monitor"][i]
  {
  }

  lemma MessageTells(p: Pass, f: Failure)
    requires KnownClass(f.error) && NamesStep(p, f)
    ensures TellsWhere(MessageOf(f.error), p, f)
  {
    MessageIs(f);
    NamesAre(f.step, p.key);
    ClassCalled(ReasonOf(f.error));
  }

  /** In every run: the message of a failure names what failed, in the operator's words. */
  lemma {:induction false} FailuresNameTheirStep(
      limit: nat, plan: Plan, children: map<Key, Obj>, ls: seq<Label>, id: PassId)
    ensures var s := Run(Initial(limit, plan, children), ls);
            id in s.passes && HasFailed(s.passes[id]) ==>
              TellsWhere(MessageOf(s.passes[id].pc.failure.value.error), s.passes[id], s.passes[id].pc.failure.value)
  {
    RunSafe(limit, plan, children, ls);
    var s := Run(Initial(limit, plan, children), ls);
    assert PassFits(s, id);
    if id in s.passes && HasFailed(s.passes[id]) {
      MessageTells(s.passes[id], s.passes[id].pc.failure.value);
    }
  }
}
