/** Ready without a Deployment: the one way in which the Ready condition can say more than the
    cluster shows, as a run. */
module Readiness {
  import opened Meta
  import opened Text
  import opened Children
  import Conditions
  import opened Conversion
  import opened Passes
  import opened Protocol
  import opened Safety
  import opened Outcomes
  import opened Convergence
  import Fixpoint
  import Writes
  import opened Wakeups
  import opened Rests

  function DeploymentOf(k: AppKey): Key {
    Key(DeploymentKind, k.namespace, k.name)
  }

  /** Ready is stored for k, and there is no Deployment. */
  predicate ReadyAlone(c: Cluster, k: AppKey) {
    && Stored(c, DeploymentOf(k)) == None
    && Current(c, k).Some? && Conditions.IsReady(Current(c, k).value.status.conditions)
  }

  /** Nothing has failed, the application was reported to have enough replicas ready and has not
      changed since, and there is no Deployment (any more). */
  ghost predicate Overtaken(s: State, id: PassId) {
    && Safe(s) && Runnable(s, id) && s.passes[id].pc == ReadingReplicas(None)
    && Stored(s.cluster, DeploymentOf(id.key)) == None
    && s.passes[id].app.status.readyReplicas >= s.passes[id].app.spec.replicas.min
    && Current(s.cluster, id.key).Some?
    && Current(s.cluster, id.key).value.meta.resourceVersion == s.passes[id].app.meta.resourceVersion
  }

  /** The read finds nothing, so the old count stays. */
  lemma ReadFindsNothing(s: State, id: PassId, fate: Fate, t: nat)
    requires Overtaken(s, id) && fate.Served?
    ensures var u := CallStep(s, id, fate, t);
            && Safe(u) && u.cluster == s.cluster && Runnable(u, id)
            && u.passes[id].pc == WritingStatus(None) && u.passes[id].key == id.key
            && u.passes[id].app.meta.resourceVersion == s.passes[id].app.meta.resourceVersion
            && Conditions.IsReady(u.passes[id].app.status.conditions)
  {
    ReadCallDraws(s, id, fate, t);
    CallSafe(s, id, fate, t);
    var p, q := s.passes[id], CallStep(s, id, fate, t).passes[id];
    ReadyAsTold(q.app.status.conditions, None, q.app.status.readyReplicas, p.app.spec.replicas.min);
  }

  /** A status write over the version that was read is taken. */
  lemma StatusTaken(c: Cluster, p: Pass, fate: Fate)
    requires p.pc.WritingStatus? && HistoryOk(History(c, p.key)) && Sourced(History(c, p.key), p) && fate.Served?
    requires Current(c, p.key).Some? && Current(c, p.key).value.meta.resourceVersion == p.app.meta.resourceVersion
    ensures var d := Serve(c, p.key, UpdateStatus(p.app), fate).0;
            && d.children == c.children && Current(d, p.key).Some?
            && Current(d, p.key).value.status.conditions == p.app.status.conditions
  {
    StatusStored(c, p, fate);
  }

  lemma ReportTaken(s: State, id: PassId, fate: Fate, t: nat)
    requires Safe(s) && Runnable(s, id) && s.passes[id].pc.WritingStatus? && s.passes[id].key == id.key && fate.Served?
    requires Current(s.cluster, id.key).Some?
    requires Current(s.cluster, id.key).value.meta.resourceVersion == s.passes[id].app.meta.resourceVersion
    ensures var c := CallStep(s, id, fate, t).cluster;
            && c.children == s.cluster.children && Current(c, id.key).Some?
            && Current(c, id.key).value.status.conditions == s.passes[id].app.status.conditions
  {
    assert PassFits(s, id);
    assert HistoryOk(History(s.cluster, id.key));
    StatusTaken(s.cluster, s.passes[id], fate);
  }

  /** So a read and a write later Ready is stored, with no Deployment there. */
  lemma ReadyWithoutDeployment(s: State, id: PassId, fate: Fate, t: nat)
    requires Overtaken(s, id) && fate.Served?
    ensures var u := CallStep(s, id, fate, t);
            && Runnable(u, id)
            && ReadyAlone(CallStep(u, id, fate, t).cluster, id.key)
  {
    ReadFindsNothing(s, id, fate, t);
    ReportTaken(CallStep(s, id, fate, t), id, fate, t);
  }

  /* ---------- a run that gets there ---------- */

  /** An undisturbed pass before its read of the Deployment. */
  predicate Ahead(p: Pass) {
    p.pc.Fetching? || p.pc.Working? || p.pc.ReadingReplicas?
  }

  lemma NextAhead(p: Pass, resp: Response, t: nat)
    requires (p.pc.Fetching? || p.pc.Working?) && Fits(RequestOf(p), resp)
    requires p.pc.Fetching? ==> resp.GotApp? && !resp.app.meta.deleting && HasFinalizer(resp.app.meta)
    ensures Ahead(Next(p, resp, t))
  {
    if p.pc.Working? {
      WorkKeepsApp(p, resp);
    }
  }

  lemma FetchServed(c: Cluster, k: AppKey, h: Hub, r: int32)
    requires Current(c, k) == Some(h)
    ensures Serve(c, k, GetApp, Reporter(r)).1 == GotApp(ToSpoke(h))
  {
  }

  lemma StaysAhead(g: Goal, h: Hub, c: Cluster, p: Pass, t: nat, r: int32)
    requires Exactly(g, h, c, p, t, r) && Ahead(p) && !p.pc.ReadingReplicas?
    requires !h.meta.deleting && HasFinalizer(h.meta)
    ensures Ahead(Next(p, Serve(c, g.key, RequestOf(p), Reporter(r)).1, t))
  {
    if p.pc.Fetching? {
      FetchServed(c, g.key, h, r);
    }
    NextAhead(p, Serve(c, g.key, RequestOf(p), Reporter(r)).1, t);
  }

  /** An undisturbed pass gets to its read of the Deployment. */
  lemma PassReads(sys: System, id: PassId, g: Goal, c0: Cluster, h: Hub, t: nat, r: int32) returns (es: seq<Event>)
    requires Undisturbed(sys, id, g, c0, h, t, r) && Ahead(sys.state.passes[id])
    ensures var next := Evolve(sys, es);
            Undisturbed(next, id, g, c0, h, t, r) && next.state.passes[id].pc.ReadingReplicas?
  {
    var cur := sys;
    es := [];
    while !cur.state.passes[id].pc.ReadingReplicas?
      invariant cur == Evolve(sys, es)
      invariant Undisturbed(cur, id, g, c0, h, t, r) && Ahead(cur.state.passes[id])
      decreases StageRank(cur.state.passes[id]), AttemptRank(cur.state.passes[id]), PhaseRank(cur.state.passes[id])
    {
      OneTurn(cur, id, g, c0, h, t, r);
      StaysAhead(g, h, cur.state.cluster, cur.state.passes[id], t, r);
      TurnAdvances(cur, id, t, r);
      EvolveMore(sys, es, Turn(id, t, r));
      es := es + [Turn(id, t, r)];
      cur := Advance(cur, Turn(id, t, r));
    }
  }

  /** What is known of the pass that is about to read. */
  ghost predicate AboutToRead(s: State, id: PassId, h: Hub) {
    && Safe(s) && id in s.passes && s.passes[id].pc == ReadingReplicas(None) && Current(s.cluster, id.key) == Some(h)
    && s.passes[id].app.meta.resourceVersion == h.meta.resourceVersion
    && s.passes[id].app.status.readyReplicas == h.status.readyReplicas
    && s.passes[id].app.spec.replicas.min == h.spec.replicas.min
  }

  lemma ReadAs(g: Goal, h: Hub, c: Cluster, p: Pass, t: nat, r: int32)
    requires Exactly(g, h, c, p, t, r) && p.pc.ReadingReplicas?
    ensures p.pc == ReadingReplicas(None) && Current(c, g.key) == Some(h)
    ensures p.app.meta == h.meta && p.app.spec.replicas.min == h.spec.replicas.min
    ensures p.app.status.readyReplicas == h.status.readyReplicas
  {
  }

  lemma UndisturbedReads(sys: System, id: PassId, g: Goal, c0: Cluster, h: Hub, t: nat, r: int32)
    requires Undisturbed(sys, id, g, c0, h, t, r) && sys.state.passes[id].pc.ReadingReplicas?
    ensures AboutToRead(sys.state, id, h)
  {
    ReadAs(g, h, sys.state.cluster, sys.state.passes[id], t, r);
  }

  lemma DeletedIsOvertaken(s: State, id: PassId, h: Hub)
    requires AboutToRead(s, id, h) && h.status.readyReplicas >= h.spec.replicas.min
    ensures Overtaken(Exec(s, Drift(DeploymentOf(id.key), None)), id)
  {
    ExecSafe(s, Drift(DeploymentOf(id.key), None));
  }

  /** Two more calls that are served. */
  lemma TwoCalls(sys: System, id: PassId, w: Obj, t: nat)
    requires Overtaken(sys.state, id)
    ensures ReadyAlone(Advance(Advance(sys, Calls(id, Served(w), t)), Calls(id, Served(w), t)).state.cluster, id.key)
  {
    ReadyWithoutDeployment(sys.state, id, Served(w), t);
    CallAdvances(sys, id, Served(w), t);
    CallAdvances(Advance(sys, Calls(id, Served(w), t)), id, Served(w), t);
  }

  /** What the first pass over a new application leaves: a report of enough ready replicas. */
  lemma FirstReport(g: Goal, c: Cluster, h: Hub, t: nat, r: int32)
    requires Fixpoint.StoresStatus(g, c, h, Fixpoint.Reported(ToSpoke(h), t, r, t)) && r >= h.spec.replicas.min
    ensures var cur := Current(c, g.key);
            cur.Some? && cur.value.status.readyReplicas == r >= cur.value.spec.replicas.min
  {
  }

  /** A second pass, up to its read. */
  lemma SecondReads(sys: System, id: PassId, h: Hub, t: nat, r: int32) returns (es: seq<Event>)
    requires Idle(sys, id.key, h) && id !in sys.state.passes && SendsNoReadiness(sys.state.plan)
    requires r >= h.spec.replicas.min
    ensures AboutToRead(Evolve(sys, es).state, id, h)
  {
    BegunUndisturbed(sys, id, h, t, r);
    BegunFacts(sys, id);
    var g := GoalOf(id.key, sys.state.plan, h);
    var rest := PassReads(Begun(sys, id), id, g, sys.state.cluster, h, t, r);
    UndisturbedReads(Evolve(Begun(sys, id), rest), id, g, sys.state.cluster, h, t, r);
    es := [Shows(id.key, |History(sys.state.cluster, id.key)|)] + ([Starts(id)] + rest);
    EvolveBegun(sys, id, rest);
  }

  /** Somebody deletes the Deployment just before it is read; the pass reads and writes. */
  function Overtaking(id: PassId, t: nat): seq<Event> {
    [Happens(Drift(DeploymentOf(id.key), None)), Calls(id, Served(map[]), t), Calls(id, Served(map[]), t)]
  }

  lemma OvertakingEnds(sys: System, id: PassId, h: Hub, t: nat)
    requires AboutToRead(sys.state, id, h) && h.status.readyReplicas >= h.spec.replicas.min
    ensures ReadyAlone(Evolve(sys, Overtaking(id, t)).state.cluster, id.key)
  {
    var es := Overtaking(id, t);
    var gone := Advance(sys, es[0]);
    DeletedIsOvertaken(sys.state, id, h);
    TwoCalls(gone, id, map[], t);
    assert es == [es[0]] + [es[1]] + [es[2]];
    EvolveOne(sys, es[0]);
    EvolveMore(sys, [es[0]], es[1]);
    EvolveMore(sys, [es[0]] + [es[1]], es[2]);
  }

  /** For every spec a run of the operator's own plan ends with Ready stored and no Deployment:
      a pass settles the new application, and while the next one works somebody deletes the
      Deployment that it has just applied and is about to read. */
  lemma ReadyDespiteDeletion(limit: nat, children: map<Key, Obj>, k: AppKey, spec: B.Spec) returns (es: seq<Event>)
    requires Writes.Versioned(Cluster(map[], children))
    ensures ReadyAlone(Evolve(Empty(limit, OperatorPlan(), children), es).state.cluster, k)
  {
    var a, b, r, h := PassId(k, 0), PassId(k, 1), spec.replicas.min, Created(k, 0, spec, [FINALIZER]);
    var create := Happens(UserCreate(k, spec, [FINALIZER]));
    var empty := Empty(limit, OperatorPlan(), children);
    CreatedIsIdle(limit, children, k, spec);
    OperatorSendsNoReadiness();
    var first := OnePass(Advance(empty, create), a, h, 0, r);
    var s1 := Evolve(Advance(empty, create), first);
    var h1 := Current(s1.state.cluster, k).value;
    FirstReport(GoalOf(k, OperatorPlan(), h), s1.state.cluster, h, 0, r);
    var second := SecondReads(s1, b, h1, 0, r);
    OvertakingEnds(Evolve(s1, second), b, h1, 0);
    es := [create] + (first + (second + Overtaking(b, 0)));
    EvolveSplits(empty, [create], first + (second + Overtaking(b, 0)));
    EvolveOne(empty, create);
    EvolveSplits(Advance(empty, create), first, second + Overtaking(b, 0));
    EvolveSplits(s1, second, Overtaking(b, 0));
  }
}
