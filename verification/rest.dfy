/** Applications come to rest: two passes that nobody disturbs, within one reading of the
    clock, leave nothing queued, pending or under way. */
module Rests {
  import opened Meta
  import opened V1Alpha1
  import opened Text
  import opened Children
  import opened Conditions
  import opened Conversion
  import opened Passes
  import opened Protocol
  import opened Safety
  import opened Convergence
  import opened Fixpoint
  import opened Writes
  import opened Wakeups

  /** A Deployment controller that reports r ready replicas on everything it is given. */
  function Reporter(r: int32): Fate {
    Served(map[Server(ReadyReplicas) := VInt(r)])
  }

  ghost predicate SendsNoReadiness(plan: Plan) {
    forall k, i, spec, uid :: plan(k, i, spec, uid).Some? ==> Server(ReadyReplicas) !in plan(k, i, spec, uid).value
  }

  lemma OperatorSendsNoReadiness()
    ensures SendsNoReadiness(OperatorPlan())
  {
    forall k, i, spec, uid | OperatorPlan()(k, i, spec, uid).Some?
      ensures Server(ReadyReplicas) !in OperatorPlan()(k, i, spec, uid).value
    {
      ManifestFields(i, AppOf(k, spec), uid);
    }
  }

  predicate ShowsReady(g: Goal, c: Cluster, r: int32) {
    var o := Stored(c, KeyOf(0, g.key));
    o.Some? && ReadyReplicasOf(o.value) == r
  }

  /** An undisturbed pass over version h at time t, with r replicas ready. */
  ghost predicate Exactly(g: Goal, h: Hub, c: Cluster, p: Pass, t: nat, r: int32) {
    match p.pc
    case Fetching => Current(c, g.key) == Some(h)
    case Working(i, _, phase) =>
      Current(c, g.key) == Some(h) && Read(ToSpoke(h), p, t) && (i > 0 ==> ShowsReady(g, c, r)) && phase != Waiting
    case ReadingReplicas(f) => f.None? && Current(c, g.key) == Some(h) && Read(ToSpoke(h), p, t) && ShowsReady(g, c, r)
    case WritingStatus(f) =>
      && f.None? && Current(c, g.key) == Some(h) && p.app.meta == h.meta && p.app.spec == g.spec
      && Reports(ToSpoke(h), p.app.status, t, r, t)
    case Finished(res) => StoresStatus(g, c, h, Reported(ToSpoke(h), t, r, t)) && res == Result(None, 0, false)
    case _ => false
  }

  /* ---------- one call ---------- */

  lemma WriteShowsReady(g: Goal, c: Cluster, planned: Obj, create: bool, r: int32)
    requires Server(ReadyReplicas) !in planned
    ensures var k := KeyOf(0, g.key);
            var req := if create then CreateChild(k, planned) else PatchChild(k, planned);
            var (d, resp) := Serve(c, g.key, req, Reporter(r));
            resp.Ok? ==> ShowsReady(g, d, r)
  {
  }

  /** The Deployment is never found unchanged, so leaving its sub-reconciler means having
      written it. */
  lemma FirstChildExactly(g: Goal, c: Cluster, p: Pass, r: int32)
    requires p.pc.Working? && p.pc.step == 0 && p.pc.phase != Waiting && p.key == g.key && p.plan == g.plan
    requires SameApp(g, p) && Retrying(p)
    requires Owning(g.plan) && SendsNoReadiness(g.plan) && Versioned(c)
    ensures var (d, resp) := Serve(c, g.key, RequestOf(p), Reporter(r));
            var q := NextWorking(p, 0, p.pc.attempt, p.pc.phase, resp);
            q.pc.Working? && q.pc.step > 0 ==> ShowsReady(g, d, r)
  {
    var (d, resp) := Serve(c, g.key, RequestOf(p), Reporter(r));
    assert Planned(p, 0) == g.plan(g.key, 0, g.spec, g.uid) && Planned(p, 0).Some?;
    if p.pc.phase == Getting {
      ServeVersions(c, g.key, RequestOf(p), Reporter(r));
      GettingGoes(p, 0, resp);
    } else {
      WriteShowsReady(g, c, Sent(p, 0), p.pc.phase == Creating, r);
      WritingGoes(p, 0, resp);
    }
  }

  lemma WorkExactly(g: Goal, h: Hub, c: Cluster, p: Pass, t: nat, r: int32)
    requires p.pc.Working? && p.key == g.key && p.plan == g.plan && SameApp(g, p) && Retrying(p)
    requires p.pc.phase == Creating ==> KeyOf(p.pc.step, p.key) !in c.children
    requires Owning(g.plan) && SendsNoReadiness(g.plan) && Versioned(c) && Exactly(g, h, c, p, t, r)
    ensures var (d, resp) := Serve(c, g.key, RequestOf(p), Reporter(r));
            Exactly(g, h, d, NextWorking(p, p.pc.step, p.pc.attempt, p.pc.phase, resp), t, r)
  {
    var (d, resp) := Serve(c, g.key, RequestOf(p), Reporter(r));
    WorkTracks(g, h, c, p, t, Reporter(r));
    ServedIsFine(c, p, Reporter(r));
    NeverPauses(p, resp);
    if p.pc.step == 0 {
      FirstChildExactly(g, c, p, r);
    } else {
      LaterChildExactly(g, c, p, r);
    }
  }

  lemma NeverPauses(p: Pass, resp: Response)
    requires p.pc.Working? && p.pc.phase != Waiting && Fits(RequestOf(p), resp) && Fine(p, resp)
    ensures var q := NextWorking(p, p.pc.step, p.pc.attempt, p.pc.phase, resp);
            q.pc.Working? ==> q.pc.phase != Waiting && q.pc.step <= p.pc.step + 1
  {
  }

  /** The Deployment stays as it is while other children are worked on. */
  lemma LaterChildExactly(g: Goal, c: Cluster, p: Pass, r: int32)
    requires p.pc.Working? && p.pc.step > 0 && p.key == g.key && p.plan == g.plan && SameApp(g, p) && Retrying(p)
    requires Owning(g.plan) && ShowsReady(g, c, r)
    ensures ShowsReady(g, Serve(c, g.key, RequestOf(p), Reporter(r)).0, r)
  {
    WorksRight(g, c, p, p.pc.step, Reporter(r));
    KeysDisjoint(0, g.key, p.pc.step, g.key);
  }

  lemma ReadExactly(g: Goal, h: Hub, c: Cluster, p: Pass, t: nat, r: int32)
    requires p.pc.ReadingReplicas? && p.key == g.key && SameApp(g, p) && Exactly(g, h, c, p, t, r)
    ensures var (d, resp) := Serve(c, g.key, RequestOf(p), Reporter(r)); Exactly(g, h, d, Next(p, resp, t), t, r)
  {
    var resp := Serve(c, g.key, RequestOf(p), Reporter(r)).1;
    ReadReports(ToSpoke(h), p, resp, t, t);
  }

  lemma StatusExactly(g: Goal, h: Hub, c: Cluster, p: Pass, t: nat, r: int32)
    requires p.pc.WritingStatus? && p.key == g.key && Exactly(g, h, c, p, t, r) && r >= g.spec.replicas.min
    ensures var (d, resp) := Serve(c, g.key, RequestOf(p), Reporter(r)); Exactly(g, h, d, Next(p, resp, t), t, r)
  {
    StatusServed(g, h, c, p.app, Reporter(r));
  }

  lemma FetchExactly(g: Goal, h: Hub, c: Cluster, p: Pass, t: nat, r: int32)
    requires p.pc.Fetching? && p.key == g.key && Exactly(g, h, c, p, t, r) && !h.meta.deleting && HasFinalizer(h.meta)
    ensures var (d, resp) := Serve(c, g.key, GetApp, Reporter(r)); Exactly(g, h, d, Next(p, resp, t), t, r)
  {
    var resp := Serve(c, g.key, GetApp, Reporter(r)).1;
    assert Read(ToSpoke(h), Next(p, resp, t), t);
  }

  /** One call of an undisturbed pass. */
  lemma OneCallExactly(g: Goal, c0: Cluster, h: Hub, c: Cluster, p: Pass, t: nat, r: int32)
    requires Inv(g, c0, c, p, true) && Exactly(g, h, c, p, t, r) && !p.pc.Finished? && Retrying(p)
    requires Owning(g.plan) && SendsNoReadiness(g.plan) && Versioned(c) && r >= g.spec.replicas.min
    requires p.pc.Fetching? ==> !h.meta.deleting && HasFinalizer(h.meta)
    ensures var (d, resp) := Serve(c, g.key, RequestOf(p), Reporter(r));
            Inv(g, c0, d, Next(p, resp, t), true) && Exactly(g, h, d, Next(p, resp, t), t, r)
  {
    OneCall(g, c0, c, p, true, Reporter(r), t);
    match p.pc
    case Fetching => FetchExactly(g, h, c, p, t, r);
    case Working(_, _, _) => WorkExactly(g, h, c, p, t, r);
    case ReadingReplicas(_) => ReadExactly(g, h, c, p, t, r);
    case WritingStatus(_) => StatusExactly(g, h, c, p, t, r);
  }

  /* ---------- one pass of the system ---------- */

  lemma EvolveMore(sys: System, es: seq<Event>, e: Event)
    ensures Evolve(sys, es + [e]) == Advance(Evolve(sys, es), e)
  {
    assert (es + [e])[..|es|] == es;
  }

  lemma {:induction false} EvolveSplits(sys: System, es: seq<Event>, more: seq<Event>)
    ensures Evolve(sys, es + more) == Evolve(Evolve(sys, es), more)
  {
    if more == [] {
      assert es + more == es;
    } else {
      var init, e := more[..|more| - 1], more[|more| - 1];
      LastOfBoth(es, more);
      EvolveSplits(sys, es, init);
      EvolveMore(sys, es + init, e);
      EvolveMore(Evolve(sys, es), init, e);
    }
  }

  lemma EvolveOne(sys: System, e: Event)
    ensures Evolve(sys, [e]) == Advance(sys, e)
  {
    assert [e][..0] == [];
  }

  /** The system in the middle of an undisturbed pass id. */
  ghost predicate Undisturbed(sys: System, id: PassId, g: Goal, c0: Cluster, h: Hub, t: nat, r: int32) {
    && Sound(sys) && id.key == g.key && id in sys.state.passes && sys.state.plan == g.plan
    && Inv(g, c0, sys.state.cluster, sys.state.passes[id], true)
    && Exactly(g, h, sys.state.cluster, sys.state.passes[id], t, r)
    && SendsNoReadiness(g.plan) && r >= g.spec.replicas.min
    && !h.meta.deleting && HasFinalizer(h.meta)
    && (sys.state.passes[id].pc.Fetching? ==> !Behind(sys, g.key))
  }

  /** Nothing but pass id, the cluster and the counters differ. */
  ghost predicate Beside(sys: System, next: System, id: PassId) {
    && next.shown == sys.shown && next.unseen == sys.unseen && next.state.plan == sys.state.plan
    && (id.key !in sys.queue ==> id.key !in next.queue)
    && (forall other :: other != id ==> (other in next.state.passes <==> other in sys.state.passes))
    && (forall other :: other != id && other in sys.state.passes ==>
          next.state.passes[other] == sys.state.passes[other])
  }

  function Turn(id: PassId, t: nat, r: int32): Event {
    Calls(id, Reporter(r), t)
  }

  /** A cache that is not behind answers a fetch like the server. */
  lemma FetchIsCurrent(sys: System, id: PassId, r: int32)
    requires Runnable(sys.state, id) && sys.state.passes[id].key == id.key
    requires sys.state.passes[id].pc.Fetching? ==> !Behind(sys, id.key)
    ensures var p := sys.state.passes[id];
            Serve(sys.state.cluster, id.key, RequestOf(p), FateOf(sys, id, Reporter(r)))
            == Serve(sys.state.cluster, id.key, RequestOf(p), Reporter(r))
  {
  }

  lemma TurnAdvances(sys: System, id: PassId, t: nat, r: int32)
    requires Runnable(sys.state, id) && sys.state.passes[id].key == id.key
    requires sys.state.passes[id].pc.Fetching? ==> !Behind(sys, id.key)
    ensures var p, next := sys.state.passes[id], Advance(sys, Turn(id, t, r));
            var (d, resp) := Serve(sys.state.cluster, id.key, RequestOf(p), Reporter(r));
            && next.state.cluster == d && id in next.state.passes && next.state.passes[id] == Next(p, resp, t)
            && (!Requeues(Next(p, resp, t)) ==> Beside(sys, next, id))
  {
    FetchIsCurrent(sys, id, r);
  }

  lemma OneTurn(sys: System, id: PassId, g: Goal, c0: Cluster, h: Hub, t: nat, r: int32)
    requires Undisturbed(sys, id, g, c0, h, t, r) && Runnable(sys.state, id)
    ensures var next := Advance(sys, Turn(id, t, r));
            && Undisturbed(next, id, g, c0, h, t, r) && Beside(sys, next, id)
            && Closer(sys.state.passes[id], next.state.passes[id])
  {
    var p := sys.state.passes[id];
    assert PassFits(sys.state, id);
    OneCallExactly(g, c0, h, sys.state.cluster, p, t, r);
    TurnAdvances(sys, id, t, r);
    AdvanceSound(sys, Turn(id, t, r));
    NextDecreases(p, Serve(sys.state.cluster, g.key, RequestOf(p), Reporter(r)).1, t);
  }

  lemma BesideTrans(a: System, b: System, c: System, id: PassId)
    requires Beside(a, b, id) && Beside(b, c, id)
    ensures Beside(a, c, id)
  {
    forall other | other != id && other in a.state.passes ensures c.state.passes[other] == a.state.passes[other] {
      assert other in b.state.passes;
    }
  }

  /** No user, no drift, and no call that fails. */
  ghost predicate Undriven(es: seq<Event>) {
    forall e :: e in es ==> e.Shows? || e.Starts? || (e.Calls? && e.fate.Served?)
  }

  /** An undisturbed pass comes to its end. */
  lemma PassEnds(sys: System, id: PassId, g: Goal, c0: Cluster, h: Hub, t: nat, r: int32) returns (es: seq<Event>)
    requires Undisturbed(sys, id, g, c0, h, t, r)
    ensures Undriven(es)
    ensures var next := Evolve(sys, es);
            Undisturbed(next, id, g, c0, h, t, r) && Beside(sys, next, id) && next.state.passes[id].pc.Finished?
  {
    var cur := sys;
    es := [];
    while !cur.state.passes[id].pc.Finished?
      invariant cur == Evolve(sys, es) && Undriven(es)
      invariant Undisturbed(cur, id, g, c0, h, t, r) && Beside(sys, cur, id)
      decreases StageRank(cur.state.passes[id]), AttemptRank(cur.state.passes[id]), PhaseRank(cur.state.passes[id])
    {
      OneTurn(cur, id, g, c0, h, t, r);
      BesideTrans(sys, cur, Advance(cur, Turn(id, t, r)), id);
      EvolveMore(sys, es, Turn(id, t, r));
      es := es + [Turn(id, t, r)];
      cur := Advance(cur, Turn(id, t, r));
    }
  }

  /* ---------- two passes ---------- */

  /** Nobody works on k; it is adopted and living, with n versions so far. */
  ghost predicate Idle(sys: System, k: AppKey, h: Hub) {
    && Sound(sys) && Current(sys.state.cluster, k) == Some(h) && !h.meta.deleting && HasFinalizer(h.meta)
    && k !in sys.unseen && forall id: PassId :: id.key == k ==> !Runnable(sys.state, id)
  }

  /** The cache shows everything, and a pass has started. */
  function Begun(sys: System, id: PassId): System {
    Advance(Advance(sys, Shows(id.key, |History(sys.state.cluster, id.key)|)), Starts(id))
  }

  lemma BegunSound(sys: System, id: PassId)
    requires Sound(sys)
    ensures Sound(Begun(sys, id))
  {
    var show := Shows(id.key, |History(sys.state.cluster, id.key)|);
    AdvanceSound(sys, show);
    AdvanceSound(Advance(sys, show), Starts(id));
  }

  lemma BegunFacts(sys: System, id: PassId)
    requires Sound(sys) && id !in sys.state.passes
    ensures var s := Begun(sys, id);
            && s.state.cluster == sys.state.cluster && s.state.plan == sys.state.plan && s.unseen == sys.unseen
            && s.state.passes == sys.state.passes[id := Begin(id.key, sys.state.limit, sys.state.plan)]
            && ShownOf(s, id.key) == |History(sys.state.cluster, id.key)| && id.key !in s.queue
  {
    assert ShownOf(sys, id.key) <= |History(sys.state.cluster, id.key)|;
  }

  lemma BegunUndisturbed(sys: System, id: PassId, h: Hub, t: nat, r: int32)
    requires Idle(sys, id.key, h) && id !in sys.state.passes && SendsNoReadiness(sys.state.plan)
    requires r >= h.spec.replicas.min
    ensures Undisturbed(Begun(sys, id), id, GoalOf(id.key, sys.state.plan, h), sys.state.cluster, h, t, r)
  {
    BegunSound(sys, id);
    BegunFacts(sys, id);
  }

  /** What an undisturbed pass leaves behind. */
  ghost predicate Left(sys: System, next: System, id: PassId, h: Hub, t: nat, r: int32) {
    var cur := Current(next.state.cluster, id.key);
    && next.state.plan == sys.state.plan && cur.Some? && Idle(next, id.key, cur.value) && id.key !in next.queue
    && ShownOf(next, id.key) == |History(sys.state.cluster, id.key)|
    && StoresStatus(GoalOf(id.key, sys.state.plan, h), next.state.cluster, h, Reported(ToSpoke(h), t, r, t))
    && (forall other :: other != id ==> (other in next.state.passes <==> other in sys.state.passes))
  }

  lemma NobodyElse(sys: System, next: System, id: PassId)
    requires forall other: PassId :: other.key == id.key ==> !Runnable(sys.state, other)
    requires Beside(Begun(sys, id), next, id) && Sound(sys) && id !in sys.state.passes
    requires id in next.state.passes && next.state.passes[id].pc.Finished?
    ensures forall other: PassId :: other.key == id.key ==> !Runnable(next.state, other)
    ensures forall other :: other != id ==> (other in next.state.passes <==> other in sys.state.passes)
  {
    BegunFacts(sys, id);
    forall other: PassId | other.key == id.key ensures !Runnable(next.state, other) {
      assert !Runnable(sys.state, other);
      assert other != id && other in sys.state.passes ==> other in Begun(sys, id).state.passes;
    }
  }

  lemma StoredIsAdopted(g: Goal, c: Cluster, h: Hub, s: Status)
    requires StoresStatus(g, c, h, s) && !h.meta.deleting && HasFinalizer(h.meta)
    ensures var cur := Current(c, g.key);
            cur.Some? && !cur.value.meta.deleting && HasFinalizer(cur.value.meta) && cur.value.meta.uid == h.meta.uid
            && cur.value.spec.replicas == h.spec.replicas
  {
  }

  lemma EndLeaves(sys: System, next: System, id: PassId, h: Hub, t: nat, r: int32)
    requires Idle(sys, id.key, h) && id !in sys.state.passes
    requires Undisturbed(next, id, GoalOf(id.key, sys.state.plan, h), sys.state.cluster, h, t, r)
    requires Beside(Begun(sys, id), next, id) && next.state.passes[id].pc.Finished?
    ensures Left(sys, next, id, h, t, r)
  {
    var g := GoalOf(id.key, sys.state.plan, h);
    NobodyElse(sys, next, id);
    NothingBeside(sys, next, id);
    EndReports(g, h, next.state.cluster, next.state.passes[id], t, r);
    StoredIsAdopted(g, next.state.cluster, h, Reported(ToSpoke(h), t, r, t));
  }

  lemma NothingBeside(sys: System, next: System, id: PassId)
    requires Sound(sys) && id !in sys.state.passes && Beside(Begun(sys, id), next, id)
    ensures next.unseen == sys.unseen && next.state.plan == sys.state.plan && id.key !in next.queue
    ensures ShownOf(next, id.key) == |History(sys.state.cluster, id.key)|
  {
    BegunFacts(sys, id);
  }

  lemma EndReports(g: Goal, h: Hub, c: Cluster, p: Pass, t: nat, r: int32)
    requires Exactly(g, h, c, p, t, r) && p.pc.Finished?
    ensures StoresStatus(g, c, h, Reported(ToSpoke(h), t, r, t))
  {
  }

  lemma EvolveBegun(sys: System, id: PassId, rest: seq<Event>)
    ensures Evolve(sys, [Shows(id.key, |History(sys.state.cluster, id.key)|)] + ([Starts(id)] + rest))
            == Evolve(Begun(sys, id), rest)
  {
    var show, start := Shows(id.key, |History(sys.state.cluster, id.key)|), Starts(id);
    EvolveSplits(sys, [show], [start] + rest);
    EvolveOne(sys, show);
    EvolveSplits(Advance(sys, show), [start], rest);
    EvolveOne(Advance(sys, show), start);
  }

  /** The cache catches up and a pass runs undisturbed. */
  lemma OnePass(sys: System, id: PassId, h: Hub, t: nat, r: int32) returns (es: seq<Event>)
    requires Idle(sys, id.key, h) && id !in sys.state.passes && SendsNoReadiness(sys.state.plan)
    requires r >= h.spec.replicas.min
    ensures Left(sys, Evolve(sys, es), id, h, t, r) && Undriven(es)
  {
    BegunUndisturbed(sys, id, h, t, r);
    var rest := PassEnds(Begun(sys, id), id, GoalOf(id.key, sys.state.plan, h), sys.state.cluster, h, t, r);
    EndLeaves(sys, Evolve(Begun(sys, id), rest), id, h, t, r);
    es := [Shows(id.key, |History(sys.state.cluster, id.key)|)] + ([Starts(id)] + rest);
    EvolveBegun(sys, id, rest);
    StartIsUndriven(id, |History(sys.state.cluster, id.key)|, rest);
  }

  lemma StartIsUndriven(id: PassId, n: nat, rest: seq<Event>)
    requires Undriven(rest)
    ensures Undriven([Shows(id.key, n)] + ([Starts(id)] + rest))
  {
  }

  /** A second report like the first, at the same time, is the same. */
  lemma SameReport(a: Spoke, t: nat, r: int32)
    requires a.status.conditions == [] || FourInOrder(a.status.conditions)
    ensures var first := Reported(a, t, r, t); Reported(a.(status := first), t, r, t) == first
  {
    var first := Reported(a, t, r, t);
    ReportTwice(a, r, t, t, t, t);
    SameLists(first, Reported(a.(status := first), t, r, t));
  }

  lemma SameLists(first: Status, second: Status)
    requires second == first.(conditions := second.conditions) && |second.conditions| == |first.conditions| == 4
    requires second.conditions[1..] == first.conditions[1..]
    requires Timeless(second.conditions) == Timeless(first.conditions)
    requires second.conditions[0].lastTransitionTime == first.conditions[0].lastTransitionTime
    ensures second == first
  {
    SameTimesSameList(first.conditions, second.conditions);
  }

  /** A status that says what is stored already makes no new version. */
  lemma SameStatus(g: Goal, c: Cluster, d: Cluster, h: Hub, h1: Hub, s: Status)
    requires Current(c, g.key) == Some(h1) && StoresStatus(g, c, h, s) && StoresStatus(g, d, h1, s)
    ensures Current(d, g.key) == Some(h1)
  {
    HubRoundTrip(h);
    assert SameButVersion(Current(d, g.key).value, h1);
  }

  /** So the second of two reports leaves the application as it is. */
  lemma SecondReport(g: Goal, c: Cluster, d: Cluster, h: Hub, h1: Hub, t: nat, r: int32)
    requires h.status.conditions == [] || FourInOrder(h.status.conditions)
    requires Current(c, g.key) == Some(h1) && StoresStatus(g, c, h, Reported(ToSpoke(h), t, r, t))
    requires StoresStatus(g, d, h1, Reported(ToSpoke(h1), t, r, t))
    ensures Current(d, g.key) == Some(h1)
  {
    var first := Reported(ToSpoke(h), t, r, t);
    SameReport(ToSpoke(h), t, r);
    ReportIgnoresVersion(ToSpoke(h1), ToSpoke(h).(status := first), t, r, t);
    SameStatus(g, c, d, h, h1, first);
  }

  /** With nothing new to show, k is quiet. */
  lemma NothingNew(s1: System, s2: System, id: PassId, h1: Hub)
    requires Idle(s1, id.key, h1) && Idle(s2, id.key, h1) && id.key !in s2.queue
    requires ShownOf(s2, id.key) == |History(s1.state.cluster, id.key)|
    ensures Quiet(s2, id.key)
  {
    var h, g := History(s1.state.cluster, id.key), History(s2.state.cluster, id.key);
    assert HistoryOk(h) && HistoryOk(g);
    assert VersionOk(h1, |h| - 1) && VersionOk(h1, |g| - 1);
  }

  /** Within one reading of the clock, two undisturbed passes bring k to rest: the second
      writes nothing new, so that nothing queues k again. */
  lemma ComesToRest(sys: System, a: PassId, b: PassId, h: Hub, t: nat, r: int32) returns (es: seq<Event>)
    requires Idle(sys, a.key, h) && a.key == b.key && a != b && a !in sys.state.passes && b !in sys.state.passes
    requires SendsNoReadiness(sys.state.plan) && r >= h.spec.replicas.min
    ensures Undriven(es) && Quiet(Evolve(sys, es), a.key)
    ensures var cur := Current(Evolve(sys, es).state.cluster, a.key);
            cur.Some? && !cur.value.meta.deleting && HasFinalizer(cur.value.meta) && cur.value.meta.uid == h.meta.uid
  {
    var first := OnePass(sys, a, h, t, r);
    var s1 := Evolve(sys, first);
    var h1 := Current(s1.state.cluster, a.key).value;
    StoredIsAdopted(GoalOf(a.key, sys.state.plan, h), s1.state.cluster, h, Reported(ToSpoke(h), t, r, t));
    var second := OnePass(s1, b, h1, t, r);
    var s2 := Evolve(s1, second);
    IdleIsFresh(sys, a.key, h);
    SecondReport(GoalOf(a.key, sys.state.plan, h), s1.state.cluster, s2.state.cluster, h, h1, t, r);
    NothingNew(s1, s2, b, h1);
    es := first + second;
    EvolveSplits(sys, first, second);
  }

  lemma IdleIsFresh(sys: System, k: AppKey, h: Hub)
    requires Idle(sys, k, h)
    ensures h.status.conditions == [] || FourInOrder(h.status.conditions)
  {
    var g := History(sys.state.cluster, k);
    assert HistoryOk(g);
    assert VersionOk(h, |g| - 1);
  }

  /** The application exists and has been adopted. */
  predicate Adopted(c: Cluster, k: AppKey) {
    var cur := Current(c, k);
    cur.Some? && !cur.value.meta.deleting && HasFinalizer(cur.value.meta)
  }

  lemma CreatedIsIdle(limit: nat, children: map<Key, Obj>, k: AppKey, spec: B.Spec)
    requires Versioned(Cluster(map[], children))
    ensures var sys := Advance(Empty(limit, OperatorPlan(), children), Happens(UserCreate(k, spec, [FINALIZER])));
            && Idle(sys, k, Created(k, 0, spec, [FINALIZER]))
            && sys.state.passes == map[] && sys.state.plan == OperatorPlan()
  {
    var e := Happens(UserCreate(k, spec, [FINALIZER]));
    OperatorOwns();
    EmptySound(limit, OperatorPlan(), children);
    AdvanceSound(Empty(limit, OperatorPlan(), children), e);
  }

  lemma UndrivenIsSteady(l: Label, rest: seq<Event>, k: AppKey)
    requires ByUser(l) && Undriven(rest)
    ensures var es := [Happens(l)] + rest;
            forall n :: 0 <= n < |es| ==> Genuine(es[n]) && forall i: Step :: Steady(es[n], k, i)
  {
    var es := [Happens(l)] + rest;
    forall n | 0 <= n < |es| ensures Genuine(es[n]) && forall i: Step :: Steady(es[n], k, i) {
      if n > 0 {
        assert es[n] == rest[n - 1] && rest[n - 1] in rest;
      }
    }
  }

  /** From a new application on. */
  lemma CreatedComesToRest(limit: nat, children: map<Key, Obj>, k: AppKey, spec: B.Spec) returns (rest: seq<Event>)
    requires Versioned(Cluster(map[], children))
    ensures var es := [Happens(UserCreate(k, spec, [FINALIZER]))] + rest;
            var sys := Evolve(Empty(limit, OperatorPlan(), children), es);
            Undriven(rest) && Quiet(sys, k) && Adopted(sys.state.cluster, k)
  {
    var sys, e := Empty(limit, OperatorPlan(), children), Happens(UserCreate(k, spec, [FINALIZER]));
    CreatedIsIdle(limit, children, k, spec);
    OperatorSendsNoReadiness();
    rest := ComesToRest(Advance(sys, e), PassId(k, 0), PassId(k, 1), Created(k, 0, spec, [FINALIZER]), 0,
                        spec.replicas.min);
    EvolveSplits(sys, [e], rest);
    EvolveOne(sys, e);
  }

  /** The operator's own applications come to rest: for every spec there is a run at whose end
      the application is adopted, quiet, and settled. */
  lemma RestIsReached(limit: nat, children: map<Key, Obj>, k: AppKey, spec: B.Spec) returns (es: seq<Event>)
    requires Versioned(Cluster(map[], children))
    ensures var sys := Evolve(Empty(limit, OperatorPlan(), children), es);
            Quiet(sys, k) && Adopted(sys.state.cluster, k) && SettledApp(sys.state.cluster, OperatorPlan(), k)
  {
    var rest := CreatedComesToRest(limit, children, k, spec);
    es := [Happens(UserCreate(k, spec, [FINALIZER]))] + rest;
    UndrivenIsSteady(UserCreate(k, spec, [FINALIZER]), rest, k);
    QuietIsSettled(limit, children, es, k);
  }
}
