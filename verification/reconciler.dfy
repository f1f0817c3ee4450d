/** The controller as it is written: loops, early returns and in-place updates. Every method
    is tied to the machine of module Passes: running the machine to its end from the state
    the method was called in is the same as running it from the state it returns in. */
module Reconcilers {
  import opened Meta
  import opened V1Alpha1
  import opened Text
  import opened Generators
  import opened Children
  import opened Errors
  import opened Conditions
  import opened Conversion
  import opened Passes

  /** The desired child of one sub-reconciler. */
  method BuildDesired(i: Step, app: App) returns (child: Child)
    ensures child == Desired(i, app)
  {
    match KindAt(i)
    case DeploymentKind =>
      var d := BuildDesiredDeployment(app);
      child := ADeployment(d);
    case HTTPRouteKind =>
      var r := BuildDesiredHTTPRoute(app);
      child := AnHTTPRoute(r);
    case _ =>
      child := Desired(i, app);
  }

  /** Set the conditions for the outcome of a pass. */
  method SetConditions(status: StatusObject, failure: Option<Failure>, min: int32, now: nat)
    modifies status`conditions
    ensures status.conditions == Settled(old(status.conditions), OutcomeOf(failure, status.readyReplicas, min), now)
  {
    var ready := status.readyReplicas;
    ghost var cs := status.conditions;
    if failure.Some? {
      var message := MessageOf(failure.value.error);
      status.SetCondition(Progressing, False, "ReconcileError", message, now);
      status.SetCondition(Degraded, True, "ReconcileError", message, now);
      status.SetCondition(Ready, False, "ReconcileError", "Reconciliation failed", now);
      assert status.conditions == Settled(cs, Errored(message), now);
    } else if ready >= min {
      status.SetCondition(Progressing, False, "Deployed", "All resources reconciled successfully", now);
      status.SetCondition(Degraded, False, "Healthy", "Application is healthy", now);
      status.SetCondition(Ready, True, "Available", "Application is available", now);
      assert status.conditions == Settled(cs, Available, now);
    } else {
      var progress := "Waiting for " + Itoa(ready) + "/" + Itoa(min) + " replicas";
      var shortfall := "Only " + Itoa(ready) + "/" + Itoa(min) + " replicas ready";
      status.SetCondition(Progressing, True, "Deploying", progress, now);
      status.SetCondition(Degraded, False, "Deploying", "Deployment is rolling out", now);
      status.SetCondition(Ready, False, "InsufficientReplicas", shortfall, now);
      assert status.conditions == Settled(cs, Deploying(progress, shortfall), now);
    }
  }

  /** The status to report, built up in place. */
  method Summarise(app: Spoke, failure: Option<Failure>, ready: int32, now: nat) returns (s: Status)
    ensures s == Summary(app, failure, ready, now)
  {
    var status := new StatusObject(app.status);
    status.observedGeneration := app.meta.generation;
    status.deployedVersion := app.spec.image.tag;
    status.readyReplicas := ready;
    SetConditions(status, failure, app.spec.replicas.min, now);
    if app.spec.gateway.enabled && app.spec.gateway.host != "" {
      status.url := "https://" + app.spec.gateway.host;
    }
    s := status.Value();
  }

  /** An apply retries conflicts only, at most `limit` times, and has slept through exactly
      the backoffs of the retries it started. */
  ghost predicate RetriedWithin(limit: nat, trail: seq<Error>, slept: nat, succeeded: bool) {
    && |trail| <= (if succeeded then limit else limit + 1)
    && (forall j :: 0 <= j < |trail| - 1 ==> IsConflict(trail[j]))
    && (succeeded ==> slept == Waited(|trail|) && (trail != [] ==> IsConflict(trail[|trail| - 1])))
    && (!succeeded ==> trail != [] && slept == Waited(|trail| - 1))
  }

  /** The retry loop at its head: nothing but conflicts so far, and the backoffs between them. */
  ghost predicate Underway(limit: nat, attempt: nat, trail: seq<Error>, slept: nat, last: Option<RawError>) {
    && attempt <= limit + 1 && |trail| == attempt && (forall j :: 0 <= j < attempt ==> IsConflict(trail[j]))
    && (attempt > 0 ==> last.Some? && trail[attempt - 1] == last.value)
    && slept == if attempt == 0 then 0 else Waited(attempt - 1)
  }

  /** A cancelled pause and an attempt that succeeds stay within the retry budget, ... */
  lemma TurnEnds(limit: nat, attempt: nat, trail: seq<Error>, slept: nat, last: Option<RawError>)
    requires Underway(limit, attempt, trail, slept, last) && attempt <= limit
    ensures attempt > 0 ==> RetriedWithin(limit, trail, slept, false)
    ensures RetriedWithin(limit, trail, slept + Backoff(attempt), true)
  {
  }

  /** ... and so does an attempt that fails. */
  lemma TurnFails(limit: nat, attempt: nat, trail: seq<Error>, slept: nat, last: Option<RawError>, e: RawError)
    requires Underway(limit, attempt, trail, slept, last) && attempt <= limit
    ensures RetriedWithin(limit, trail + [e], slept + Backoff(attempt), false)
    ensures IsConflict(e) ==> Underway(limit, attempt + 1, trail + [e], slept + Backoff(attempt), Some(e))
  {
  }

  /** An apply that gave up was refused at least once, and reports a conflict exactly when
      every one of its attempts was a conflict. */
  ghost predicate GaveUp(limit: nat, trail: seq<Error>, err: Error) {
    && trail != []
    && (Classify(err) == ConflictClass <==>
        |trail| == limit + 1 && forall j :: 0 <= j < |trail| ==> IsConflict(trail[j]))
    && Classify(err) == ClassOfReason(ReasonOf(trail[|trail| - 1]))
  }

  lemma GivingUp(limit: nat, trail: seq<Error>, last: RawError, name: string, kind: Subject)
    requires 0 < |trail| <= limit + 1 && trail[|trail| - 1] == last
    requires forall j :: 0 <= j < |trail| - 1 ==> IsConflict(trail[j])
    requires |trail| < limit + 1 ==> !IsConflict(last)
    ensures GaveUp(limit, trail, ClassifyOrWrap(last, name, kind))
  {
    ClassifyOrWrapStable(last, [], name, kind, name, kind);
  }

  /** A pass inside sub-reconciler i. */
  ghost function Inside(p: Pass, i: Step, attempt: nat, phase: Phase, trail: seq<Error>, slept: nat): Pass {
    p.(pc := Working(i, attempt, phase), trail := trail, slept := slept)
  }

  /** Nothing but the child under key k may differ. */
  ghost predicate OnlyChild(c: Cluster, d: Cluster, k: Key) {
    c.history == d.history && c.children - {k} == d.children - {k}
  }

  /** Reads change nothing; a child's write only that child; the application's only its history. */
  ghost predicate OnlyTouches(c: Cluster, d: Cluster, key: AppKey, req: Request) {
    match req
    case UpdateApp(_) => c.children == d.children
    case UpdateStatus(_) => c.children == d.children
    case CreateChild(k, _) => OnlyChild(c, d, k)
    case PatchChild(k, _) => OnlyChild(c, d, k)
    case DeleteChild(k) => OnlyChild(c, d, k)
    case _ => c == d
  }

  lemma ServeTouches(c: Cluster, key: AppKey, req: Request, fate: Fate)
    ensures OnlyTouches(c, Serve(c, key, req, fate).0, key, req)
  {
  }

  /** Where the machine goes after one attempt of an apply. */
  ghost function AttemptEnds(p: Pass, i: Step, err: Option<Error>): Pass
    requires p.pc.Working?
  {
    if err.None? then StepDone(p, i) else AttemptFailed(p, i, p.pc.attempt, err.value)
  }

  /** Where the machine goes when a sub-reconciler returns. */
  ghost function StepEnds(p: Pass, i: Step, err: Option<Error>): Pass {
    if err.None? then StepDone(p, i) else StepFailed(p, i, err.value)
  }

  /** An apply gives up with the classified last error. */
  ghost function GivesUp(p: Pass, i: Step, e: Error): Pass {
    StepFailed(p, i, Refused(p, i, e))
  }

  ghost function LoopEnds(p: Pass, i: Step, cancelled: bool, last: Option<Error>): Pass {
    if cancelled then StepFailed(p, i, CANCELLED) else if last.None? then StepDone(p, i) else GivesUp(p, i, last.value)
  }

  /** The machine at the head of the retry loop. */
  ghost function LoopAt(p: Pass, i: Step, attempt: nat, trail: seq<Error>, slept: nat): Pass {
    Inside(p, i, attempt, if attempt == 0 then Getting else Waiting, trail, slept)
  }

  lemma LoopStays(m: Metrics, p: Pass, i: Step, attempt: nat, trail: seq<Error>, slept: nat)
    ensures SubCounted(m, i, LoopAt(p, i, attempt, trail, slept)) == m
  {
  }

  /** The second call of an attempt ends the attempt. */
  lemma WriteEnds(p: Pass, i: Step, create: bool, resp: Response)
    requires p.pc.Working? && p.pc.step == i && p.pc.phase == (if create then Creating else Patching)
    requires Fits(RequestOf(p), resp)
    ensures NextWorking(p, i, p.pc.attempt, p.pc.phase, resp) ==
            AttemptEnds(p, i, if resp.Failed? then Some(Wrapped(if create then ToCreate else ToApply, resp.error))
                else None)
  {
  }

  lemma PhaseIrrelevant(p: Pass, i: Step, phase: Phase)
    requires p.pc.Working?
    ensures forall err :: AttemptEnds(p.(pc := p.pc.(phase := phase)), i, err) == AttemptEnds(p, i, err)
  {
  }

  lemma NeverFinishes(p: Pass, resp: Response)
    requires p.pc.Working? && Fits(RequestOf(p), resp)
    ensures !NextWorking(p, p.pc.step, p.pc.attempt, p.pc.phase, resp).pc.Finished?
  {
  }

  /** What the machine does with the answer about the Deployment. */
  /** Where the machine is once the replicas are known. */
  ghost function Known(p: Pass, failure: Option<Failure>, ready: int32, now: nat): Pass {
    p.(pc := WritingStatus(failure), app := p.app.(status := Summary(p.app, failure, ready, now)))
  }

  /** The ready replicas to report after the read of the Deployment. */
  ghost function ReadyAfter(app: Spoke, resp: Response): int32 {
    if resp.GotChild? then ReadyReplicasOf(resp.child) else app.status.readyReplicas
  }

  lemma ReadAnswered(p: Pass, failure: Option<Failure>, resp: Response, now: nat, w: World, c: Cluster)
    requires p.pc == ReadingReplicas(failure) && Fits(RequestOf(p), resp)
    ensures Next(p, resp, now) == Known(p, failure, ReadyAfter(p.app, resp), now)
    ensures Answered(w, c, p, resp, Next(p, resp, now)) == World(c, w.calls + 1, w.metrics)
  {
  }

  /** Marks the states whose end is to be unfolded. */
  ghost predicate Examine(w: World, p: Pass) {
    true
  }

  class Reconciler {
    const ticks: Ticks
    const limit: nat
    var cluster: Cluster
    var calls: nat
    var metrics: Metrics

    constructor (ticks: Ticks, limit: nat, cluster: Cluster)
      ensures this.ticks == ticks && this.limit == limit
      ensures W() == World(cluster, 0, NO_METRICS) && Valid()
    {
      end := (w, p) => Finish(ticks, w, p);
      this.ticks, this.limit, this.cluster := ticks, limit, cluster;
      calls, metrics := 0, NO_METRICS;
    }

    function W(): World
      reads this
    {
      World(cluster, calls, metrics)
    }

    /** Where the machine ends up from each world and pass: `Finish`, held as a value so that
        proofs unfold it only where a call is made. */
    ghost const end: (World, Pass) -> (World, Pass)

    ghost predicate Valid() {
      forall w: World, p: Pass {:trigger Examine(w, p)} :: end(w, p) == Finish(ticks, w, p)
    }

    /** One call to the API server, the next one of pass p: it takes the machine one step. */
    method Call(key: AppKey, req: Request, ghost p: Pass) returns (resp: Response, now: nat)
      requires !p.pc.Finished? && p.key == key && RequestOf(p) == req
      requires Valid()
      modifies this`cluster, this`calls
      ensures Fits(req, resp)
      ensures end(old(W()), p) == end(Answered(old(W()), cluster, p, resp, Next(p, resp, now)), Next(p, resp, now))
      ensures calls == old(calls) + 1
      ensures OnlyTouches(old(cluster), cluster, key, req)
      ensures req.Sleep? && resp.Failed? ==> resp.error == CANCELLED
    {
      var t := ticks(calls);
      var (c, r) := Serve(cluster, key, req, t.fate);
      ServeTouches(cluster, key, req, t.fate);
      Unfold(ticks, W(), p, c, r, t.now);
      ghost var q := Next(p, r, t.now);
      assert Examine(W(), p) && Examine(Answered(W(), c, p, r, q), q);
      cluster, resp, now, calls := c, r, t.now, calls + 1;
    }

    /** The world as it will be counted once sub-reconciler i has moved on to q. */
    function Then(i: Step, q: Pass): World
      reads this
    {
      World(cluster, calls, SubCounted(metrics, i, q))
    }

    /** A call made inside sub-reconciler i. */
    method CallIn(key: AppKey, i: Step, req: Request, ghost p: Pass) returns (resp: Response)
      requires p.pc.Working? && p.pc.step == i && p.key == key && RequestOf(p) == req
      requires Valid()
      modifies this`cluster, this`calls
      ensures Fits(req, resp)
      ensures var q := NextWorking(p, i, p.pc.attempt, p.pc.phase, resp); end(old(W()), p) == end(Then(i, q), q)
      ensures OnlyTouches(old(cluster), cluster, key, req)
      ensures req.Sleep? && resp.Failed? ==> resp.error == CANCELLED
    {
      var r, now := Call(key, req, p);
      resp := r;
      ghost var q := NextWorking(p, i, p.pc.attempt, p.pc.phase, resp);
      NeverFinishes(p, resp);
    }

    /** Create or patch, the second call of an attempt. */
    method Write(key: AppKey, i: Step, desired: Obj, create: bool, ghost p: Pass) returns (err: Option<RawError>)
      requires p.key == key && desired == Sent(p, i)
      requires p.pc.Working? && p.pc.step == i && p.pc.phase == (if create then Creating else Patching)
      requires Valid()
      modifies this`cluster, this`calls
      ensures var q := AttemptEnds(p, i, err); end(old(W()), p) == end(Then(i, q), q)
      ensures OnlyChild(old(cluster), cluster, KeyOf(i, key))
    {
      var k := KeyOf(i, key);
      var resp := CallIn(key, i, if create then CreateChild(k, desired) else PatchChild(k, desired), p);
      WriteEnds(p, i, create, resp);
      err := if resp.Failed? then Some(Wrapped(if create then ToCreate else ToApply, resp.error)) else None;
    }

    /** One attempt: get, then create, patch or leave alone. */
    method ApplyOnce(key: AppKey, i: Step, app: Spoke, desired: Obj, ghost p: Pass) returns (err: Option<RawError>)
      requires p.key == key && p.app == app && desired == Sent(p, i)
      requires p.pc.Working? && p.pc.step == i && p.pc.phase == Getting
      requires Valid()
      modifies this`cluster, this`calls
      ensures var q := AttemptEnds(p, i, err); end(old(W()), p) == end(Then(i, q), q)
      ensures OnlyChild(old(cluster), cluster, KeyOf(i, key))
    {
      var resp := CallIn(key, i, GetChild(KeyOf(i, key)), p);
      if resp.Failed? && IsNotFound(resp.error) {
        PhaseIrrelevant(p, i, Creating);
        err := Write(key, i, desired, true, p.(pc := p.pc.(phase := Creating)));
      } else if resp.Failed? {
        err := Some(Wrapped(ToGet, resp.error));
      } else if resp.child == desired {
        err := None;
      } else {
        PhaseIrrelevant(p, i, Patching);
        err := Write(key, i, desired, false, p.(pc := p.pc.(phase := Patching)));
      }
    }

    /** The backoff before a retry, unless the context is cancelled. */
    method Pause(key: AppKey, i: Step, attempt: nat, ghost p: Pass) returns (cancelled: bool)
      requires p.key == key && p.pc == Working(i, attempt, Waiting)
      requires Valid()
      modifies this`cluster, this`calls
      ensures cancelled ==> var q := StepFailed(p, i, CANCELLED); end(old(W()), p) == end(Then(i, q), q)
      ensures !cancelled ==>
                var q := Inside(p, i, attempt, Getting, p.trail, p.slept + Backoff(attempt));
                end(old(W()), p) == end(W(), q)
      ensures cluster == old(cluster)
    {
      var resp := CallIn(key, i, Sleep(Backoff(attempt)), p);
      cancelled := resp.Failed?;
    }

    /** One retry of an apply: the pause, unless it is the first attempt, then the attempt. */
    method Attempt(key: AppKey, i: Step, app: Spoke, desired: Obj, attempt: nat, ghost p: Pass)
      returns (cancelled: bool, err: Option<RawError>)
      requires p.key == key && p.app == app && desired == Sent(p, i)
      requires p.pc == Working(i, attempt, if attempt == 0 then Getting else Waiting)
      requires Valid()
      modifies this`cluster, this`calls
      ensures cancelled ==> attempt > 0
      ensures cancelled ==> var q := StepFailed(p, i, CANCELLED); end(old(W()), p) == end(Then(i, q), q)
      ensures !cancelled ==>
                var q := AttemptEnds(p.(slept := p.slept + Backoff(attempt)), i, err);
                    end(old(W()), p) == end(Then(i, q), q)
      ensures OnlyChild(old(cluster), cluster, KeyOf(i, key))
    {
      cancelled, err := false, None;
      ghost var q := p;
      if attempt > 0 {
        cancelled := Pause(key, i, attempt, p);
        q := Inside(p, i, attempt, Getting, p.trail, p.slept + Backoff(attempt));
        PhaseIrrelevant(p.(slept := p.slept + Backoff(attempt)), i, Getting);
      }
      if !cancelled {
        err := ApplyOnce(key, i, app, desired, q);
      }
    }

    /** One turn of the retry loop: where the machine stands at its start and end. */
    method Turn(key: AppKey, i: Step, app: Spoke, desired: Obj, attempt: nat, ghost p: Pass, ghost trail: seq<Error>,
                ghost slept: nat) returns (cancelled: bool, last: Option<RawError>)
      requires p.key == key && p.app == app && desired == Sent(p, i) && p.limit == limit
      requires Valid()
      modifies this`cluster, this`calls
      ensures cancelled ==> attempt > 0 && Ends(old(W()), p, i, attempt, trail, slept, true, last, trail, slept)
      ensures !cancelled && last.None? ==>
                Ends(old(W()), p, i, attempt, trail, slept, false, last, trail, slept + Backoff(attempt))
      ensures !cancelled && last.Some? && Again(attempt, last.value) ==>
                end(old(W()), LoopAt(p, i, attempt, trail, slept))
                == end(W(), LoopAt(p, i, attempt + 1, trail + [last.value], slept + Backoff(attempt)))
      ensures !cancelled && last.Some? && !Again(attempt, last.value) ==>
                Ends(old(W()), p, i, attempt, trail, slept, false, last, trail + [last.value], slept + Backoff(attempt))
      ensures OnlyChild(old(cluster), cluster, KeyOf(i, key))
    {
      ghost var q := LoopAt(p, i, attempt, trail, slept);
      cancelled, last := Attempt(key, i, app, desired, attempt, q);
      if last.Some? {
        LoopStays(metrics, p, i, attempt + 1, trail + [last.value], slept + Backoff(attempt));
      }
    }

    ghost predicate Again(attempt: nat, e: Error) {
      IsConflict(e) && attempt < limit
    }

    /** From the head of the loop in world w, the machine ends the loop as here. */
    ghost predicate Ends(w: World, p: Pass, i: Step, attempt: nat, trail: seq<Error>, slept: nat, cancelled: bool,
                         last: Option<Error>, trail': seq<Error>, slept': nat)
      reads this
    {
      var q := LoopEnds(p.(trail := trail', slept := slept'), i, cancelled, last);
      end(w, LoopAt(p, i, attempt, trail, slept)) == end(Then(i, q), q)
    }

    /** The retry loop that began in world w is at its head again, with only conflicts so far. */
    ghost predicate Reached(w: World, p: Pass, i: Step, attempt: nat, trail: seq<Error>, slept: nat,
                            last: Option<RawError>)
      reads this
    {
      && Underway(limit, attempt, trail, slept, last)
      && end(w, LoopAt(p, i, 0, [], 0)) == end(W(), LoopAt(p, i, attempt, trail, slept))
    }

    /** The retry loop that began in world w has ended, within its budget. */
    ghost predicate Over(w: World, p: Pass, i: Step, cancelled: bool, last: Option<RawError>, trail: seq<Error>,
                         slept: nat)
      reads this
    {
      && Ends(w, p, i, 0, [], 0, cancelled, last, trail, slept)
      && RetriedWithin(limit, trail, slept, !cancelled && last.None?)
      && (!cancelled && last.Some? ==>
            && trail != [] && trail[|trail| - 1] == last.value
            && (IsConflict(last.value) ==> |trail| == limit + 1))
    }

    /** One turn brings the loop back to its head, or to its end. */
    method NextTurn(key: AppKey, i: Step, app: Spoke, desired: Obj, attempt: nat, ghost p: Pass, ghost w: World,
                    ghost trail: seq<Error>, ghost slept: nat, ghost before: Option<RawError>)
      returns (cancelled: bool, last: Option<RawError>)
      requires p.key == key && p.app == app && desired == Sent(p, i) && p.limit == limit
      requires Valid() && attempt <= limit && Reached(w, p, i, attempt, trail, slept, before)
      modifies this`cluster, this`calls
      ensures cancelled ==> Over(w, p, i, true, last, trail, slept)
      ensures !cancelled && last.None? ==> Over(w, p, i, false, last, trail, slept + Backoff(attempt))
      ensures !cancelled && last.Some? ==>
                var t, d := trail + [last.value], slept + Backoff(attempt);
                if Again(attempt, last.value) then Reached(w, p, i, attempt + 1, t, d, last)
                else Over(w, p, i, false, last, t, d)
      ensures OnlyChild(old(cluster), cluster, KeyOf(i, key))
    {
      TurnEnds(limit, attempt, trail, slept, before);
      cancelled, last := Turn(key, i, app, desired, attempt, p, trail, slept);
      if last.Some? {
        TurnFails(limit, attempt, trail, slept, before, last.value);
      }
    }

    /** The retry loop of an apply, up to the error that ended it. */
    method Retry(key: AppKey, i: Step, app: Spoke, desired: Obj, ghost p: Pass)
      returns (cancelled: bool, last: Option<RawError>, trail: seq<Error>, slept: nat)
      requires p.key == key && p.app == app && desired == Sent(p, i) && p.limit == limit
      requires p.pc == Working(i, 0, Getting) && p.trail == [] && p.slept == 0
      requires Valid()
      modifies this`cluster, this`calls
      ensures Over(old(W()), p, i, cancelled, last, trail, slept)
      ensures OnlyChild(old(cluster), cluster, KeyOf(i, key))
    {
      trail, slept, cancelled, last := [], 0, false, None;
      var attempt := 0;
      while attempt <= limit
        invariant !cancelled
        invariant attempt <= limit ==> Reached(old(W()), p, i, attempt, trail, slept, last)
        invariant attempt > limit ==> Over(old(W()), p, i, false, last, trail, slept)
        invariant OnlyChild(old(cluster), cluster, KeyOf(i, key))
      {
        cancelled, last := NextTurn(key, i, app, desired, attempt, p, old(W()), trail, slept, last);
        if cancelled {
          return;
        }
        slept := slept + Backoff(attempt);
        if last.None? {
          return;
        }
        trail := trail + [last.value];
        attempt := attempt + 1;
        if !IsConflict(last.value) {
          break;
        }
      }
    }

    /** Create or update one child, retrying conflicts with exponential backoff. The failed
        attempts and the time slept are returned beside the error. */
    method Apply(key: AppKey, i: Step, app: Spoke, desired: Obj, ghost p: Pass)
      returns (err: Option<Error>, trail: seq<Error>, slept: nat)
      requires p.key == key && p.app == app && desired == Sent(p, i) && p.limit == limit
      requires p.pc == Working(i, 0, Getting) && p.trail == [] && p.slept == 0
      requires Valid()
      modifies this`cluster, this`calls
      ensures var q := StepEnds(p.(trail := trail, slept := slept), i, err); end(old(W()), p) == end(Then(i, q), q)
      ensures RetriedWithin(limit, trail, slept, err.None?)
      ensures err.Some? ==> err.value == CANCELLED || GaveUp(limit, trail, err.value)
      ensures OnlyChild(old(cluster), cluster, KeyOf(i, key))
    {
      var cancelled, last;
      assert LoopAt(p, i, 0, [], 0) == p;
      cancelled, last, trail, slept := Retry(key, i, app, desired, p);
      if cancelled {
        err := Some(CANCELLED);
      } else if last.None? {
        err := None;
      } else {
        GivingUp(limit, trail, last.value, KeyOf(i, key).name, ObjectOf(i));
        err := Some(ClassifyOrWrap(last.value, KeyOf(i, key).name, ObjectOf(i)));
      }
    }

    /** Delete one child; a missing one is as good as deleted. */
    method DeleteIfExists(key: AppKey, i: Step, ghost p: Pass) returns (err: Option<Error>)
      requires p.key == key && p.pc == Working(i, 0, Deleting)
      requires Valid()
      modifies this`cluster, this`calls
      ensures var q := StepEnds(p, i, err); end(old(W()), p) == end(Then(i, q), q)
      ensures OnlyChild(old(cluster), cluster, KeyOf(i, key))
    {
      var resp := CallIn(key, i, DeleteChild(KeyOf(i, key)), p);
      if resp.Failed? && !IsNotFound(resp.error) {
        return Some(Wrapped(ToDelete, resp.error));
      }
      return None;
    }

    /** One sub-reconciler: apply what is wanted, delete what is not. */
    method ReconcileChild(key: AppKey, i: Step, app: Spoke, ghost p: Pass) returns (err: Option<Error>, ghost q: Pass)
      requires p.key == key && p.app == app && p.limit == limit && p.plan == OperatorPlan() && p == Enter(p, i)
      requires Valid()
      modifies this`cluster, this`calls
      ensures q == StepEnds(p.(trail := q.trail, slept := q.slept), i, err)
      ensures end(old(W()), p) == end(Then(i, q), q)
      ensures OnlyChild(old(cluster), cluster, KeyOf(i, key))
    {
      if Wanted(i, app.spec) {
        var child := BuildDesired(i, AppOf(key, app.spec));
        var desired := Fields(child)[OwnerRef(app.meta.uid) := VPresent];
        assert desired == Sent(p, i);
        var trail, slept;
        err, trail, slept := Apply(key, i, app, desired, p);
        q := StepEnds(p.(trail := trail, slept := slept), i, err);
      } else {
        err := DeleteIfExists(key, i, p);
        q := StepEnds(p, i, err);
      }
    }

    /** The seven sub-reconcilers in sequence, up to the first failure. */
    method ReconcileResources(key: AppKey, app: Spoke, ghost p: Pass) returns (failure: Option<Failure>, ghost q: Pass)
      requires p.key == key && p.app == app && p.limit == limit && p.plan == OperatorPlan() && p == Enter(p, 0)
      requires Valid()
      modifies this`cluster, this`calls, this`metrics
      ensures end(old(W()), p) == end(W(), q)
      ensures q == p.(pc := ReadingReplicas(failure), trail := q.trail, slept := q.slept)
      ensures cluster.history == old(cluster.history)
    {
      q := p;
      for i := 0 to 7
        invariant end(old(W()), p) == end(W(), q)
        invariant q == if i < 7 then Enter(p, i) else p.(pc := ReadingReplicas(None), trail := [], slept := 0)
        invariant cluster.history == old(cluster.history)
      {
        var err;
        err, q := ReconcileChild(key, i, app, q);
        if err.Some? {
          metrics := metrics.(subErr := Bump(metrics.subErr, i));
          failure := Some(Failure(i, Wrapped(ToReconcile(i), ClassifyOrWrap(err.value, key.name, SubReconciler(i)))));
          return;
        }
        metrics := metrics.(subOk := Bump(metrics.subOk, i));
      }
      failure := None;
    }

    /** The world once the pass is over and its worker has been released. */
    function Released(): World
      reads this
    {
      W().(metrics := metrics.(active := metrics.active - 1))
    }

    /** A pass that the last response finished. */
    ghost predicate EndsAs(w: World, p: Pass, res: Result)
      reads this
    {
      end(w, p).0 == Released() && end(w, p).1.pc == Finished(res)
    }

    /** Remove the finalizer from a deleting application. */
    method HandleDeletion(key: AppKey, app: Spoke, ghost p: Pass) returns (res: Result)
      requires p.key == key && p.pc == RemovingFinalizer && p.app == WithoutFinalizer(app)
      requires Valid()
      modifies this`cluster, this`calls
      ensures EndsAs(old(W()), p, res)
    {
      var resp, now := Call(key, UpdateApp(WithoutFinalizer(app)), p);
      if resp.Failed? {
        if IsConflict(resp.error) {
          res := Result(None, CONFLICT_REQUEUE_DELAY, false);
        } else {
          res := Result(Some(Wrapped(ToRemoveFinalizer, resp.error)), 0, false);
        }
      } else {
        res := Result(None, 0, true);
      }
      assert Examine(Answered(old(W()), cluster, p, resp, Next(p, resp, now)), Next(p, resp, now));
    }

    /** Add the finalizer; the update's event brings the next pass. */
    method AddFinalizer(key: AppKey, app: Spoke, ghost p: Pass) returns (res: Result)
      requires p.key == key && p.pc == AddingFinalizer && p.app == WithFinalizer(app)
      requires Valid()
      modifies this`cluster, this`calls
      ensures EndsAs(old(W()), p, res)
    {
      var resp, now := Call(key, UpdateApp(WithFinalizer(app)), p);
      res := if resp.Failed? then Result(Some(Wrapped(ToAddFinalizer, resp.error)), 0, false)
          else Result(None, 0, true);
      assert Examine(Answered(old(W()), cluster, p, resp, Next(p, resp, now)), Next(p, resp, now));
    }

    /** Classify a failed reconciliation into its requeue behaviour, counting it. */
    method HandleErrorResult(e: Error) returns (res: Result)
      modifies this`metrics
      ensures res == HandleError(e)
      ensures metrics == old(metrics).(reconcileErr := old(metrics).reconcileErr + ErrorCount(e))
    {
      var rec := AsReconcile(e);
      if rec.Reconcile? {
        metrics := metrics.(reconcileErr := metrics.reconcileErr + 1);
        match rec.errorClass
        case ConflictClass => return Result(None, CONFLICT_REQUEUE_DELAY, false);
        case Permanent => return Result(None, PERMANENT_REQUEUE_DELAY, false);
        case Transient => return Result(Some(e), REQUEUE_DELAY, false);
        case UnknownClass =>
      }
      metrics := metrics.(reconcileErr := metrics.reconcileErr + 1);
      return Result(Some(e), REQUEUE_DELAY, false);
    }

    /** The read of the Deployment, which takes the machine to its status write. */
    method ReadDeployment(key: AppKey, failure: Option<Failure>, ghost p: Pass) returns (resp: Response, now: nat)
      requires p.key == key && p.pc == ReadingReplicas(failure)
      requires Valid()
      modifies this`cluster, this`calls
      ensures end(old(W()), p) == end(W(), Known(p, failure, ReadyAfter(p.app, resp), now))
    {
      resp, now := Call(key, GetChild(KeyOf(0, key)), p);
      ReadAnswered(p, failure, resp, now, old(W()), cluster);
    }

    /** The ready replicas of the Deployment; they stay as they were if it cannot be read. */
    method UpdateDeploymentStatus(key: AppKey, app: Spoke, failure: Option<Failure>, ghost p: Pass)
      returns (ready: int32, now: nat)
      requires p.key == key && p.app == app && p.pc == ReadingReplicas(failure)
      requires Valid()
      modifies this`cluster, this`calls
      ensures end(old(W()), p) == end(W(), Known(p, failure, ready, now))
    {
      var resp;
      resp, now := ReadDeployment(key, failure, p);
      ready := app.status.readyReplicas;
      if resp.GotChild? {
        ready := ReadyReplicasOf(resp.child);
      }
    }

    /** The status to report, once the replicas have been read. */
    method ReadReplicas(key: AppKey, app: Spoke, failure: Option<Failure>, ghost p: Pass)
      returns (status: Status, ghost q: Pass)
      requires p.key == key && p.app == app && p.pc == ReadingReplicas(failure)
      requires Valid()
      modifies this`cluster, this`calls
      ensures q == p.(pc := WritingStatus(failure), app := app.(status := status))
      ensures end(old(W()), p) == end(W(), q)
    {
      var ready, now := UpdateDeploymentStatus(key, app, failure, p);
      status := Summarise(app, failure, ready, now);
      q := p.(pc := WritingStatus(failure), app := app.(status := status));
    }

    /** Write the status and decide how the pass ends. */
    method WriteStatus(key: AppKey, app: Spoke, failure: Option<Failure>, ghost p: Pass) returns (res: Result)
      requires p.key == key && p.app == app && p.pc == WritingStatus(failure)
      requires Valid()
      modifies this`cluster, this`calls, this`metrics
      ensures EndsAs(old(W()), p, res)
    {
      var resp, now := Call(key, UpdateStatus(app), p);
      ghost var q := Next(p, resp, now);
      assert Examine(Answered(old(W()), cluster, p, resp, q), q);
      if resp.Failed? {
        metrics := metrics.(statusErr := metrics.statusErr + 1);
        if IsConflict(resp.error) {
          metrics := metrics.(statusConflict := metrics.statusConflict + 1);
          return Result(None, CONFLICT_REQUEUE_DELAY, false);
        }
        return Result(Some(resp.error), 0, false);
      }
      metrics := metrics.(statusOk := metrics.statusOk + 1);
      if failure.Some? {
        res := HandleErrorResult(failure.value.error);
        return;
      }
      metrics := metrics.(reconcileOk := metrics.reconcileOk + 1);
      if app.status.readyReplicas < app.spec.replicas.min {
        return Result(None, PROGRESS_CHECK_DELAY, false);
      }
      return Result(None, 0, false);
    }

    /** A pass over an application that holds the finalizer and is not being deleted. */
    method Work(key: AppKey, read: Spoke, now: nat, ghost p: Pass) returns (res: Result)
      requires p.key == key && p.limit == limit && p.plan == OperatorPlan()
      requires p == Enter(p, 0) && p.app
              == read.(status := read.status.(conditions := Begun(read.status.conditions, now)))
      requires Valid()
      modifies this`cluster, this`calls, this`metrics
      ensures EndsAs(old(W()), p, res)
    {
      var status := new StatusObject(read.status);
      status.SetCondition(Progressing, True, "Reconciling", "Reconciliation in progress", now);
      status.SetCondition(ConfigurationValid, True, "Valid", "Configuration is valid", now);
      var app := read.(status := status.Value());
      var failure, q := ReconcileResources(key, app, p);
      var s;
      s, q := ReadReplicas(key, app, failure, q);
      res := WriteStatus(key, app.(status := s), failure, q);
    }

    /** The world in which a pass starts. */
    ghost function Entered(w: World): World {
      w.(metrics := Passes.Started(w.metrics))
    }

    /** The machine's end is that of a whole run of it. */
    lemma Ended(w: World, key: AppKey, v: World, res: Result)
      requires Valid()
      requires var last := end(Entered(w), Begin(key, limit, OperatorPlan())); last.0 == v && last.1.pc == Finished(res)
      ensures var last := Finish(ticks, Entered(w), Begin(key, limit, OperatorPlan()));
              last.0 == v && last.1.pc == Finished(res)
    {
      assert Examine(Entered(w), Begin(key, limit, OperatorPlan()));
    }

    /** One pass, as the work queue calls it. */
    method Reconcile(key: AppKey) returns (res: Result)
      requires Valid()
      modifies this`cluster, this`calls, this`metrics
      ensures var last := Finish(ticks, Entered(old(W())), Begin(key, limit, OperatorPlan()));
              last.0 == W() && last.1.pc == Finished(res)
    {
      metrics := metrics.(active := metrics.active + 1);
      assert W() == Entered(old(W()));
      res := Dispatch(key, Begin(key, limit, OperatorPlan()));
      metrics := metrics.(active := metrics.active - 1);
      Ended(old(W()), key, W(), res);
    }

    /** Fetch the application and go where its deletion mark and finalizer lead. */
    method Dispatch(key: AppKey, ghost p: Pass) returns (res: Result)
      requires p == Begin(key, limit, OperatorPlan())
      requires Valid()
      modifies this`cluster, this`calls, this`metrics
      ensures EndsAs(old(W()), p, res)
    {
      var resp, now := Call(key, GetApp, p);
      ghost var q := Next(p, resp, now);
      assert q.pc.Finished? ==> Examine(Answered(old(W()), cluster, p, resp, q), q);
      if resp.Failed? {
        return Result(if IsNotFound(resp.error) then None else Some(resp.error), 0, false);
      }
      if resp.app.meta.deleting {
        if !HasFinalizer(resp.app.meta) {
          return Result(None, 0, false);
        }
        res := HandleDeletion(key, resp.app, q);
      } else if !HasFinalizer(resp.app.meta) {
        res := AddFinalizer(key, resp.app, q);
      } else {
        res := Work(key, resp.app, now, q);
      }
    }
  }
}
