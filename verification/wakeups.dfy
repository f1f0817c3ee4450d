/** No wakeup is lost: while an application is not settled, something is bound to queue it
    again, however far the controller's caches lag and however its passes overlap. */
module Wakeups {
  import opened Text
  import opened Children
  import opened Errors
  import opened Conversion
  import opened Passes
  import opened Protocol
  import opened Safety
  import opened Convergence
  import opened Interference
  import opened Writes
  import Conditions
  import Guarantees
  import Outcomes

  /* ---------- the queue and the caches that feed it ---------- */

  /** The system with the controller's work queue: how many versions of each application its
      cache shows, the applications whose Deployment has drifted unnoticed, and the queue. */
  datatype System = System(state: State, shown: map<AppKey, nat>, unseen: set<AppKey>, queue: set<AppKey>)

  /** A user step or drift; the cache shows more versions of an application; drift of a
      Deployment is noticed; a pass starts; a pass makes a call. */
  datatype Event =
    | Happens(what: Label)
    | Shows(key: AppKey, upTo: nat)
    | Notices(key: AppKey)
    | Starts(id: PassId)
    | Calls(id: PassId, fate: Fate, now: nat)

  function ShownOf(sys: System, k: AppKey): nat {
    if k in sys.shown then sys.shown[k] else 0
  }

  /** Fetches of applications are served from the cache. */
  function FateOf(sys: System, id: PassId, fate: Fate): Fate {
    if Runnable(sys.state, id) && sys.state.passes[id].pc.Fetching? && !fate.Faulted?
    then StaleApp(ShownOf(sys, id.key))
    else if fate.StaleApp? then Served(map[])
    else fate
  }

  /** The object carries application k's owner reference. */
  predicate NamesOwner(c: Cluster, k: AppKey, o: Option<Obj>) {
    Current(c, k).Some? && o.Some? && OwnerRef(Current(c, k).value.meta.uid) in o.value
  }

  /** Whom drift is reported to: the owner that the object named before or names afterwards.
      Only Deployments are watched. */
  function Watched(c: Cluster, l: Label): set<AppKey> {
    if l.Drift? && l.child.kind.DeploymentKind? then
      var k := AppKey(l.child.namespace, l.child.name);
      if NamesOwner(c, k, Stored(c, l.child)) || NamesOwner(c, k, l.obj) then {k} else {}
    else {}
  }

  predicate Requeues(q: Pass) {
    q.pc.Finished? && (q.pc.result.error.Some? || q.pc.result.requeueAfter > 0)
  }

  /** One event. An application is queued when its cache advances, when drift of its
      Deployment is noticed, and when a pass over it ends with an error or a requeue; it
      leaves the queue when a pass over it starts. */
  function Advance(sys: System, e: Event): System {
    match e
    case Happens(l) =>
      if l.Start? || l.Call? then sys
      else sys.(state := Exec(sys.state, l), unseen := sys.unseen + Watched(sys.state.cluster, l))
    case Shows(k, n) =>
      if ShownOf(sys, k) < n <= |History(sys.state.cluster, k)|
      then sys.(shown := sys.shown[k := n], queue := sys.queue + {k}) else sys
    case Notices(k) =>
      if k in sys.unseen then sys.(unseen := sys.unseen - {k}, queue := sys.queue + {k}) else sys
    case Starts(id) =>
      if id in sys.state.passes then sys
      else sys.(state := Exec(sys.state, Start(id)), queue := sys.queue - {id.key})
    case Calls(id, fate, now) =>
      if !Runnable(sys.state, id) then sys
      else
        var t := CallStep(sys.state, id, FateOf(sys, id, fate), now);
        sys.(state := t, queue := if Requeues(t.passes[id]) then sys.queue + {id.key} else sys.queue)
  }

  function Evolve(sys: System, es: seq<Event>): System {
    if es == [] then sys else Advance(Evolve(sys, es[..|es| - 1]), es[|es| - 1])
  }

  function Empty(limit: nat, plan: Plan, children: map<Key, Obj>): System {
    System(Initial(limit, plan, children), map[], {}, {})
  }

  /** A call that fails does not claim NotFound. */
  predicate Genuine(e: Event) {
    e.Calls? && e.fate.Faulted? ==> !IsNotFound(e.fate.error)
  }

  /** Child i of k does not drift, unless it is the one that is watched. */
  predicate Steady(e: Event, k: AppKey, i: Step) {
    e.Happens? && e.what.Drift? && e.what.child == KeyOf(i, k) ==> i == 0
  }

  predicate Behind(sys: System, k: AppKey) {
    ShownOf(sys, k) < |History(sys.state.cluster, k)|
  }

  /** k is queued or bound to be. */
  predicate Pending(sys: System, k: AppKey) {
    k in sys.queue || k in sys.unseen || Behind(sys, k)
  }

  /* ---------- the invariant ---------- */

  /** Nothing is left to do for a version: there is none, or it is being deleted without the
      finalizer. */
  predicate Gone(v: Option<Hub>) {
    v.Some? ==> v.value.meta.deleting && !HasFinalizer(v.value.meta)
  }

  function GoalOf(k: AppKey, plan: Plan, x: Hub): Goal {
    Goal(k, plan, SpecToSpoke(x.spec), x.meta.uid)
  }

  /** As far as child i is concerned, application k is settled. */
  predicate SettledAt(c: Cluster, plan: Plan, k: AppKey, i: Step) {
    var cur := Current(c, k);
    Gone(cur) || (!cur.value.meta.deleting && HasFinalizer(cur.value.meta) && RightAt(GoalOf(k, plan, cur.value), c, i))
  }

  /** The version p has read is no longer the current one. */
  predicate Outdated(c: Cluster, p: Pass) {
    var cur := Current(c, p.key);
    cur.None? || cur.value.meta.resourceVersion != p.app.meta.resourceVersion
  }

  /** p has child i still ahead of it, or is bound to end with an error, a requeue or a new version. */
  predicate Owes(c: Cluster, p: Pass, i: Step) {
    match p.pc
    case Working(j, _, _) => j <= i || Outdated(c, p)
    case ReadingReplicas(f) => f.Some? || Outdated(c, p)
    case WritingStatus(f) => f.Some? || Outdated(c, p)
    case Finished(_) => false
    case _ => true
  }

  predicate OwedBy(s: State, id: PassId, i: Step) {
    Runnable(s, id) && Owes(s.cluster, s.passes[id], i)
  }

  ghost predicate Covered(s: State, k: AppKey, i: Step) {
    SettledAt(s.cluster, s.plan, k, i) || exists id: PassId :: id.key == k && OwedBy(s, id, i)
  }

  /** The plan always wants the watched child, and what it sends names its owner and carries
      no resourceVersion. */
  ghost predicate Owning(plan: Plan) {
    && SendsNoVersion(plan)
    && forall k, i, spec, uid ::
         if plan(k, i, spec, uid).Some? then OwnerRef(uid) in plan(k, i, spec, uid).value else i != 0
  }

  lemma OperatorOwns()
    ensures Owning(OperatorPlan())
  {
    OperatorSendsNoVersion();
    forall k, i, spec, uid
      ensures if OperatorPlan()(k, i, spec, uid).Some? then OwnerRef(uid) in OperatorPlan()(k, i, spec, uid).value
              else i != 0
    {
      ManifestFields(i, AppOf(k, spec), uid);
    }
  }

  /** What holds of every reachable system. */
  ghost predicate Sound(sys: System) {
    && Safe(sys.state) && Versioned(sys.state.cluster) && Owning(sys.state.plan)
    && forall k :: ShownOf(sys, k) <= |History(sys.state.cluster, k)|
  }

  lemma EmptySound(limit: nat, plan: Plan, children: map<Key, Obj>)
    requires Owning(plan) && Versioned(Cluster(map[], children))
    ensures Sound(Empty(limit, plan, children))
  {
    InitialSafe(limit, plan, children);
  }

  lemma ExecSound(sys: System, l: Label)
    requires Sound(sys)
    ensures Sound(sys.(state := Exec(sys.state, l)))
  {
    ExecSafe(sys.state, l);
    ExecVersions(sys.state, l);
    Guarantees.ExecGrows(sys.state, l);
    var t := Exec(sys.state, l);
    forall k ensures ShownOf(sys, k) <= |History(t.cluster, k)| {
      assert Extends(History(sys.state.cluster, k), History(t.cluster, k));
    }
  }

  lemma AdvanceSound(sys: System, e: Event)
    requires Sound(sys)
    ensures Sound(Advance(sys, e))
  {
    match e
    case Happens(l) => ExecSound(sys, l);
    case Starts(id) => ExecSound(sys, Start(id));
    case Calls(id, fate, now) => ExecSound(sys, Call(id, FateOf(sys, id, fate), now));
    case _ =>
  }

  /* ---------- steps that do not matter to k ---------- */

  lemma SameViewCovered(s: State, t: State, k: AppKey, i: Step)
    requires SameView(s, t, k) && Keyed(s) && Keyed(t) && Covered(s, k, i)
    ensures Covered(t, k, i)
  {
    SameViewSameChildren(s, t, k, i);
    if !SettledAt(s.cluster, s.plan, k, i) {
      var id: PassId :| id.key == k && OwedBy(s, id, i);
      SamePass(s, t, k, id);
      assert OwedBy(t, id, i);
    }
  }

  lemma ForeignCovered(s: State, l: Label, k: AppKey, i: Step)
    requires Safe(s) && !Concerns(l, k) && Covered(s, k, i)
    ensures Covered(Exec(s, l), k, i)
  {
    SafeIsKeyed(s);
    StaysKeyed(s, l);
    ForeignStep(s, l, k);
    SameViewCovered(s, Exec(s, l), k, i);
  }

  /** A user step that changes nothing of k's history changes nothing. */
  lemma UserIdle(s: State, l: Label)
    requires ByUser(l) && History(Exec(s, l).cluster, l.key) == History(s.cluster, l.key)
    ensures Exec(s, l) == s
  {
  }

  /* ---------- one call of a pass over k ---------- */

  /** Outdated passes stay outdated: versions only grow. */
  lemma OutdatedStays(c: Cluster, d: Cluster, p: Pass)
    requires HistoryOk(History(d, p.key)) && Extends(History(c, p.key), History(d, p.key))
            && Sourced(History(c, p.key), p)
    requires p.pc.Working? || p.pc.ReadingReplicas? || p.pc.WritingStatus?
    requires HistoryOk(History(c, p.key)) && Outdated(c, p)
    ensures Outdated(d, p)
  {
    var g, h := History(c, p.key), History(d, p.key);
    if h[|h| - 1].Some? {
      assert VersionOk(h[|h| - 1].value, |h| - 1);
      if |g| == |h| {
        assert h[|h| - 1] == g[|g| - 1];
      }
    }
  }

  lemma OwesStays(c: Cluster, d: Cluster, p: Pass, i: Step)
    requires HistoryOk(History(c, p.key)) && HistoryOk(History(d, p.key)) && Sourced(History(c, p.key), p)
    requires Extends(History(c, p.key), History(d, p.key)) && Owes(c, p, i)
    ensures Owes(d, p, i)
  {
    if (p.pc.Working? || p.pc.ReadingReplicas? || p.pc.WritingStatus?) && Outdated(c, p) {
      OutdatedStays(c, d, p);
    }
  }

  /** A pass that has not moved still owes what it owed, once its application's history has
      only grown. */
  lemma StillOwedBy(s: State, t: State, id: PassId, i: Step)
    requires PassFits(s, id) && OwedBy(s, id, i) && id in t.passes && t.passes[id] == s.passes[id]
    requires HistoriesOk(s) && HistoriesOk(t) && Grows(s.cluster, t.cluster)
    ensures OwedBy(t, id, i)
  {
    assert HistoryOk(History(s.cluster, id.key)) && HistoryOk(History(t.cluster, id.key));
    assert Extends(History(s.cluster, id.key), History(t.cluster, id.key));
    OwesStays(s.cluster, t.cluster, s.passes[id], i);
  }

  /** What another pass owes it still owes after a call of pass id. */
  lemma OthersStillOwe(s: State, id: PassId, fate: Fate, now: nat, other: PassId, i: Step)
    requires Safe(s) && Runnable(s, id) && other != id && OwedBy(s, other, i)
    ensures OwedBy(CallStep(s, id, fate, now), other, i)
  {
    CallGrows(s, id, fate, now);
    assert PassFits(s, other);
    StillOwedBy(s, CallStep(s, id, fate, now), other, i);
  }

  /** A pass that is not outdated works on the current version. */
  lemma Aligned(c: Cluster, p: Pass)
    requires HistoryOk(History(c, p.key)) && Sourced(History(c, p.key), p) && !Outdated(c, p)
    requires p.pc.Working? || p.pc.ReadingReplicas? || p.pc.WritingStatus?
    ensures var cur := Current(c, p.key);
            cur.Some? && WorksOn(p, cur.value)
  {
    var h, cur := History(c, p.key), Current(c, p.key);
    assert VersionOk(cur.value, |h| - 1);
  }

  /** Inside sub-reconciler j on the current version: nothing but child j changes, and the
      pass stays, fails, or leaves the child right, however old the child it was shown. */
  lemma WorksRight(g: Goal, c: Cluster, p: Pass, j: Step, fate: Fate)
    requires p.pc.Working? && p.pc.step == j && FateFits(g.plan, fate)
    requires p.key == g.key && p.plan == g.plan && SameApp(g, p)
    requires p.pc.phase == Deleting <==> Planned(p, j).None?
    ensures var (d, resp) := Serve(c, p.key, RequestOf(p), fate);
            var q := NextWorking(p, j, p.pc.attempt, p.pc.phase, resp);
            && c.history == d.history && (forall x :: x != KeyOf(j, g.key) ==> Stored(c, x) == Stored(d, x))
            && Moved(p, q)
            && ((q.pc.Working? && q.pc.step == j) || FailedAt(q, j) || (q == StepDone(p, j) && RightAt(g, d, j)))
  {
    var (d, resp) := Serve(c, p.key, RequestOf(p), fate);
    match p.pc.phase
    case Getting =>
      GetServed(c, p.key, KeyOf(j, p.key), fate);
      GettingGoes(p, j, resp);
    case Waiting =>
      WaitingGoes(p, j, resp);
    case Deleting =>
      DeleteServed(g, c, j, fate);
      DeletingGoes(p, j, resp);
    case _ =>
      ApplyServed(g, c, j, Sent(p, j), p.pc.phase == Creating, fate);
      WritingGoes(p, j, resp);
  }

  /** Another child is as settled as before. */
  lemma SettledElsewhere(c: Cluster, d: Cluster, plan: Plan, k: AppKey, j: Step, i: Step)
    requires c.history == d.history && (forall x :: x != KeyOf(j, k) ==> Stored(c, x) == Stored(d, x)) && i != j
    ensures SettledAt(d, plan, k, i) == SettledAt(c, plan, k, i)
  {
    KeysDisjoint(i, k, j, k);
  }

  lemma WorkCovered(c: Cluster, p: Pass, fate: Fate, i: Step)
    requires HistoryOk(History(c, p.key)) && PassOk(History(c, p.key), p)
    requires p.pc.Working? && FateFits(p.plan, fate) && (SettledAt(c, p.plan, p.key, i) || Owes(c, p, i))
    ensures var (d, resp) := Serve(c, p.key, RequestOf(p), fate);
            var q := NextWorking(p, p.pc.step, p.pc.attempt, p.pc.phase, resp);
            SettledAt(d, p.plan, p.key, i) || (!q.pc.Finished? && Owes(d, q, i))
  {
    if Outdated(c, p) {
      OutdatedWorkOwes(c, p, fate, i);
    } else {
      AlignedWorkCovered(c, p, fate, i);
    }
  }

  lemma OutdatedWorkOwes(c: Cluster, p: Pass, fate: Fate, i: Step)
    requires p.pc.Working? && Outdated(c, p)
    ensures var (d, resp) := Serve(c, p.key, RequestOf(p), fate);
            var q := NextWorking(p, p.pc.step, p.pc.attempt, p.pc.phase, resp); !q.pc.Finished? && Owes(d, q, i)
  {
    ServeChild(c, p.key, RequestOf(p), fate);
    WorkKeepsApp(p, Serve(c, p.key, RequestOf(p), fate).1);
  }

  lemma AlignedWorkCovered(c: Cluster, p: Pass, fate: Fate, i: Step)
    requires HistoryOk(History(c, p.key)) && PassOk(History(c, p.key), p) && !Outdated(c, p)
    requires p.pc.Working? && FateFits(p.plan, fate) && (SettledAt(c, p.plan, p.key, i) || Owes(c, p, i))
    ensures var (d, resp) := Serve(c, p.key, RequestOf(p), fate);
            var q := NextWorking(p, p.pc.step, p.pc.attempt, p.pc.phase, resp);
            SettledAt(d, p.plan, p.key, i) || (!q.pc.Finished? && Owes(d, q, i))
  {
    var (d, resp) := Serve(c, p.key, RequestOf(p), fate);
    WorkKeepsApp(p, resp);
    Aligned(c, p);
    var j, g := p.pc.step, GoalOf(p.key, p.plan, Current(c, p.key).value);
    WorksRight(g, c, p, j, fate);
    if i != j {
      SettledElsewhere(c, d, p.plan, p.key, j, i);
    }
  }

  /** A fetch from a cache that is not behind. */
  lemma FetchCovered(c: Cluster, p: Pass, fate: Fate, now: nat, i: Step)
    requires p.pc.Fetching?
    requires if fate.Faulted? then !IsNotFound(fate.error) else fate.StaleApp? && fate.shown >= |History(c, p.key)|
    ensures var (d, resp) := Serve(c, p.key, GetApp, fate);
            var q := Next(p, resp, now);
            d == c && (Requeues(q) || SettledAt(d, p.plan, p.key, i) || (!q.pc.Finished? && Owes(d, q, i)))
  {
  }

  /** A status write that makes no new version ends a pass that owed nothing, or queues again. */
  lemma StatusCovered(c: Cluster, p: Pass, fate: Fate, now: nat, i: Step)
    requires p.pc.WritingStatus? && (SettledAt(c, p.plan, p.key, i) || Owes(c, p, i))
    ensures var (d, resp) := Serve(c, p.key, UpdateStatus(p.app), fate);
            var q := Next(p, resp, now);
            && q.pc.Finished?
            && (Requeues(q) || |History(d, p.key)| > |History(c, p.key)| || SettledAt(d, p.plan, p.key, i))
  {
  }

  /** A finalizer write that is taken up makes a new version; any other ending queues again. */
  lemma UpdateCovered(c: Cluster, p: Pass, fate: Fate, now: nat)
    requires (p.pc.RemovingFinalizer? || p.pc.AddingFinalizer?)
    requires HistoryOk(History(c, p.key)) && Sourced(History(c, p.key), p)
    ensures var (d, resp) := Serve(c, p.key, UpdateApp(p.app), fate);
            var q := Next(p, resp, now);
            q.pc.Finished? && (Requeues(q) || |History(d, p.key)| > |History(c, p.key)|)
  {
    var h, cur := History(c, p.key), Current(c, p.key);
    if cur.Some? && cur.value.meta.resourceVersion == p.app.meta.resourceVersion {
      FinalizersDiffer(h, cur.value, p);
    }
  }

  lemma FinalizersDiffer(h: seq<Option<Hub>>, cur: Hub, p: Pass)
    requires HistoryOk(h) && h != [] && h[|h| - 1] == Some(cur) && Sourced(h, p)
    requires p.pc.RemovingFinalizer? || p.pc.AddingFinalizer?
    requires p.app.meta.resourceVersion == cur.meta.resourceVersion
    ensures p.app.meta.finalizers != cur.meta.finalizers
  {
    assert VersionOk(cur, |h| - 1);
    OthersFacts(cur.meta.finalizers);
  }

  /** One call of the pass itself: it queues the application, makes a new version of it, or
      keeps child i settled or owed. */
  lemma OneCallCovered(c: Cluster, p: Pass, fate: Fate, now: nat, i: Step)
    requires HistoryOk(History(c, p.key)) && PassOk(History(c, p.key), p) && !p.pc.Finished?
    requires SendsNoVersion(p.plan)
    requires fate.Faulted? ==> !IsNotFound(fate.error)
    requires if p.pc.Fetching? && !fate.Faulted? then fate.StaleApp? && fate.shown >= |History(c, p.key)|
             else !fate.StaleApp?
    requires SettledAt(c, p.plan, p.key, i) || Owes(c, p, i)
    ensures var (d, resp) := Serve(c, p.key, RequestOf(p), fate);
            var q := Next(p, resp, now);
            || Requeues(q) || |History(d, p.key)| > |History(c, p.key)|
            || SettledAt(d, p.plan, p.key, i) || (!q.pc.Finished? && Owes(d, q, i))
  {
    match p.pc
    case Fetching => FetchCovered(c, p, fate, now, i);
    case Working(_, _, _) => WorkCovered(c, p, fate, i);
    case ReadingReplicas(_) => ServeTouchesNothing(c, p, fate);
    case WritingStatus(_) => StatusCovered(c, p, fate, now, i);
    case _ => UpdateCovered(c, p, fate, now);
  }

  lemma ServeTouchesNothing(c: Cluster, p: Pass, fate: Fate)
    requires p.pc.ReadingReplicas?
    ensures Serve(c, p.key, RequestOf(p), fate).0 == c
  {
  }

  /** The pass that makes the call, if it is the one that owes child i or nothing is owed. */
  lemma OwnCallCovered(s: State, id: PassId, fate: Fate, now: nat, i: Step)
    requires Safe(s) && SendsNoVersion(s.plan) && Runnable(s, id)
    requires fate.Faulted? ==> !IsNotFound(fate.error)
    requires if s.passes[id].pc.Fetching? && !fate.Faulted?
             then fate.StaleApp? && fate.shown >= |History(s.cluster, id.key)| else !fate.StaleApp?
    requires SettledAt(s.cluster, s.plan, id.key, i) || Owes(s.cluster, s.passes[id], i)
    ensures var t := CallStep(s, id, fate, now);
            || Requeues(t.passes[id]) || |History(t.cluster, id.key)| > |History(s.cluster, id.key)|
            || SettledAt(t.cluster, s.plan, id.key, i) || OwedBy(t, id, i)
  {
    assert PassFits(s, id);
    assert HistoryOk(History(s.cluster, id.key));
    OneCallCovered(s.cluster, s.passes[id], fate, now, i);
  }

  /** What a call of a pass does to the system. */
  lemma CallAdvances(sys: System, id: PassId, fate: Fate, now: nat)
    requires Runnable(sys.state, id)
    ensures var t, next := CallStep(sys.state, id, FateOf(sys, id, fate), now), Advance(sys, Calls(id, fate, now));
            && next.state == t && next.shown == sys.shown && t.plan == sys.state.plan
            && (Requeues(t.passes[id]) ==> id.key in next.queue)
  {
  }

  /** A call of a pass over k that leaves nothing pending keeps every child settled or owed. */
  lemma CallCovered(sys: System, id: PassId, fate: Fate, now: nat, i: Step)
    requires Sound(sys) && Runnable(sys.state, id) && Covered(sys.state, id.key, i)
    requires Genuine(Calls(id, fate, now))
    requires !Pending(sys, id.key) && !Pending(Advance(sys, Calls(id, fate, now)), id.key)
    ensures Covered(Advance(sys, Calls(id, fate, now)).state, id.key, i)
  {
    var s, f := sys.state, FateOf(sys, id, fate);
    CallAdvances(sys, id, fate, now);
    if SettledAt(s.cluster, s.plan, id.key, i) || Owes(s.cluster, s.passes[id], i) {
      OwnCallCovered(s, id, f, now, i);
    } else {
      var other: PassId :| other.key == id.key && OwedBy(s, other, i);
      OthersStillOwe(s, id, f, now, other, i);
    }
  }

  /* ---------- one event ---------- */

  /** What passes owe does not depend on the children. */
  lemma OwesByHistory(c: Cluster, d: Cluster, p: Pass, i: Step)
    requires c.history == d.history
    ensures Owes(c, p, i) == Owes(d, p, i)
  {
  }

  lemma DriftSettled(c: Cluster, x: Key, o: Option<Obj>, plan: Plan, k: AppKey, i: Step)
    requires SettledAt(c, plan, k, i) && (x == KeyOf(i, k) ==> Gone(Current(c, k)))
    ensures SettledAt(Drifted(c, x, o), plan, k, i)
  {
    if x != KeyOf(i, k) {
      assert Stored(Drifted(c, x, o), KeyOf(i, k)) == Stored(c, KeyOf(i, k));
    }
  }

  /** Drift takes nothing from what passes owe, and unsettles nothing but the child it touches. */
  lemma DriftCovered(s: State, x: Key, o: Option<Obj>, k: AppKey, i: Step)
    requires Covered(s, k, i)
    requires x == KeyOf(i, k) && SettledAt(s.cluster, s.plan, k, i) ==> Gone(Current(s.cluster, k))
    ensures Covered(Exec(s, Drift(x, o)), k, i)
  {
    var t := Exec(s, Drift(x, o));
    if SettledAt(s.cluster, s.plan, k, i) {
      DriftSettled(s.cluster, x, o, s.plan, k, i);
    } else {
      var id: PassId :| id.key == k && OwedBy(s, id, i);
      OwesByHistory(s.cluster, t.cluster, s.passes[id], i);
      assert OwedBy(t, id, i);
    }
  }

  /** Drift of a Deployment that is right is reported to its application. */
  lemma SettledIsWatched(c: Cluster, plan: Plan, k: AppKey, o: Option<Obj>)
    requires Owning(plan) && SettledAt(c, plan, k, 0) && !Gone(Current(c, k))
    ensures k in Watched(c, Drift(KeyOf(0, k), o))
  {
    var cur := Current(c, k).value;
    assert plan(k, 0, SpecToSpoke(cur.spec), cur.meta.uid).Some?;
    assert k.name + "" == k.name;
  }

  /** A user step on k leaves its cache behind, or changes nothing. */
  lemma UserCovered(sys: System, l: Label, i: Step)
    requires Sound(sys) && ByUser(l) && Covered(sys.state, l.key, i)
    ensures Behind(Advance(sys, Happens(l)), l.key) || Covered(Advance(sys, Happens(l)).state, l.key, i)
  {
    var t := Exec(sys.state, l);
    assert HistoryOk(History(sys.state.cluster, l.key));
    UserStepOk(sys.state.cluster, l, l.key);
    if |History(t.cluster, l.key)| == |History(sys.state.cluster, l.key)| {
      UserIdle(sys.state, l);
    }
  }

  lemma HappensCovered(sys: System, l: Label, k: AppKey, i: Step)
    requires Sound(sys) && (ByUser(l) || l.Drift?) && Steady(Happens(l), k, i) && Covered(sys.state, k, i)
    requires !Pending(Advance(sys, Happens(l)), k)
    ensures Covered(Advance(sys, Happens(l)).state, k, i)
  {
    if l.Drift? {
      var s := sys.state;
      if l.child == KeyOf(i, k) && SettledAt(s.cluster, s.plan, k, i) && !Gone(Current(s.cluster, k)) {
        SettledIsWatched(s.cluster, s.plan, k, l.obj);
      }
      DriftCovered(sys.state, l.child, l.obj, k, i);
    } else if l.key == k {
      UserCovered(sys, l, i);
    } else {
      ForeignCovered(sys.state, l, k, i);
    }
  }

  /** What is not pending after an event was not pending before, unless a pass has started. */
  lemma PendingStays(sys: System, e: Event, k: AppKey)
    requires Sound(sys) && Pending(sys, k) && !(e.Starts? && e.id.key == k)
    ensures Pending(Advance(sys, e), k)
  {
    AdvanceGrows(sys, e, k);
  }

  lemma AdvanceGrows(sys: System, e: Event, k: AppKey)
    requires Sound(sys)
    ensures |History(sys.state.cluster, k)| <= |History(Advance(sys, e).state.cluster, k)|
  {
    match e
    case Happens(l) => LabelGrows(sys.state, l, k);
    case Starts(id) => LabelGrows(sys.state, Start(id), k);
    case Calls(id, fate, now) => LabelGrows(sys.state, Call(id, FateOf(sys, id, fate), now), k);
    case _ =>
  }

  lemma LabelGrows(s: State, l: Label, k: AppKey)
    requires Safe(s)
    ensures |History(s.cluster, k)| <= |History(Exec(s, l).cluster, k)|
  {
    Guarantees.ExecGrows(s, l);
    assert Extends(History(s.cluster, k), History(Exec(s, l).cluster, k));
  }

  lemma EventCovered(sys: System, e: Event, k: AppKey, i: Step)
    requires Sound(sys) && Genuine(e) && Steady(e, k, i)
    requires Pending(sys, k) || Covered(sys.state, k, i)
    ensures Pending(Advance(sys, e), k) || Covered(Advance(sys, e).state, k, i)
  {
    var next := Advance(sys, e);
    if e.Starts? && e.id.key == k {
      if e.id !in sys.state.passes {
        assert OwedBy(next.state, e.id, i);
      }
    } else if Pending(sys, k) {
      PendingStays(sys, e, k);
    } else if !Pending(next, k) {
      match e
      case Happens(l) =>
        if !l.Start? && !l.Call? { HappensCovered(sys, l, k, i); }
      case Starts(id) => ForeignCovered(sys.state, Start(id), k, i);
      case Calls(id, fate, now) =>
        if id.key != k {
          ForeignCovered(sys.state, Call(id, FateOf(sys, id, fate), now), k, i);
        } else if Runnable(sys.state, id) {
          CallCovered(sys, id, fate, now, i);
        }
      case _ =>
    }
  }

  /* ---------- whole runs ---------- */

  ghost predicate Kept(sys: System, k: AppKey, i: Step) {
    Sound(sys) && (Pending(sys, k) || Covered(sys.state, k, i))
  }

  lemma {:induction false} EvolveKept(sys: System, es: seq<Event>, k: AppKey, i: Step)
    requires Kept(sys, k, i) && forall n :: 0 <= n < |es| ==> Genuine(es[n]) && Steady(es[n], k, i)
    ensures Kept(Evolve(sys, es), k, i)
  {
    if es == [] {
    } else {
      var init, e := es[..|es| - 1], es[|es| - 1];
      EvolveKept(sys, init, k, i);
      AdvanceSound(Evolve(sys, init), e);
      EventCovered(Evolve(sys, init), e, k, i);
    }
  }

  /** Nothing is queued, bound to be queued or under way for k. */
  ghost predicate Quiet(sys: System, k: AppKey) {
    !Pending(sys, k) && forall id: PassId :: id.key == k ==> !Runnable(sys.state, id)
  }

  /** What no run loses: once nothing is pending or under way for k, its child i is settled. */
  lemma {:induction false} RestIsSettled(limit: nat, plan: Plan, children: map<Key, Obj>, es: seq<Event>,
                                         k: AppKey, i: Step)
    requires Owning(plan) && Versioned(Cluster(map[], children))
    requires forall n :: 0 <= n < |es| ==> Genuine(es[n]) && Steady(es[n], k, i)
    ensures var sys := Evolve(Empty(limit, plan, children), es);
            Quiet(sys, k) ==> SettledAt(sys.state.cluster, sys.state.plan, k, i)
  {
    EmptySound(limit, plan, children);
    assert SettledAt(Empty(limit, plan, children).state.cluster, plan, k, i);
    EvolveKept(Empty(limit, plan, children), es, k, i);
    var sys := Evolve(Empty(limit, plan, children), es);
    if Quiet(sys, k) {
      assert forall id: PassId :: id.key == k ==> !OwedBy(sys.state, id, i);
    }
  }

  lemma {:induction false} EvolveKeepsPlan(sys: System, es: seq<Event>)
    ensures Evolve(sys, es).state.plan == sys.state.plan
  {
    if es == [] {
    } else {
      EvolveKeepsPlan(sys, es[..|es| - 1]);
    }
  }

  /** No lost wakeup: however far the caches lag, whatever children the passes are shown,
      whatever calls fail and however the passes overlap: once the caches have caught up and
      k is neither queued nor worked on, child i has nothing left to be done for it, if it
      is watched or has not drifted. */
  lemma {:induction false} NoLostWakeup(limit: nat, children: map<Key, Obj>, es: seq<Event>, k: AppKey, i: Step)
    requires Versioned(Cluster(map[], children))
    requires forall n :: 0 <= n < |es| ==> Genuine(es[n]) && Steady(es[n], k, i)
    ensures var sys := Evolve(Empty(limit, OperatorPlan(), children), es);
            Quiet(sys, k) ==> SettledAt(sys.state.cluster, OperatorPlan(), k, i)
  {
    OperatorOwns();
    RestIsSettled(limit, OperatorPlan(), children, es, k, i);
    EvolveKeepsPlan(Empty(limit, OperatorPlan(), children), es);
  }

  /** Application k has nothing left to be done: it is gone, or adopted with all seven
      children right for its current spec. */
  ghost predicate SettledApp(c: Cluster, plan: Plan, k: AppKey) {
    var cur := Current(c, k);
    Gone(cur) || (!cur.value.meta.deleting && HasFinalizer(cur.value.meta) && AllRight(GoalOf(k, plan, cur.value), c))
  }

  lemma AllSettled(c: Cluster, plan: Plan, k: AppKey)
    requires forall i: Step :: SettledAt(c, plan, k, i)
    ensures SettledApp(c, plan, k)
  {
    var first: Step := 0;
    assert SettledAt(c, plan, k, first);
    if !Gone(Current(c, k)) {
      var g := GoalOf(k, plan, Current(c, k).value);
      forall i: Step ensures RightAt(g, c, i) {
        assert SettledAt(c, plan, k, i);
      }
    }
  }

  /** The whole application, when none of its unwatched children drifts. */
  lemma {:induction false} QuietIsSettled(limit: nat, children: map<Key, Obj>, es: seq<Event>, k: AppKey)
    requires Versioned(Cluster(map[], children))
    requires forall n :: 0 <= n < |es| ==> Genuine(es[n]) && forall i: Step :: Steady(es[n], k, i)
    requires Quiet(Evolve(Empty(limit, OperatorPlan(), children), es), k)
    ensures SettledApp(Evolve(Empty(limit, OperatorPlan(), children), es).state.cluster, OperatorPlan(), k)
  {
    var c := Evolve(Empty(limit, OperatorPlan(), children), es).state.cluster;
    forall i: Step ensures SettledAt(c, OperatorPlan(), k, i) {
      NoLostWakeup(limit, children, es, k, i);
    }
    AllSettled(c, OperatorPlan(), k);
  }

  /** An unwatched child that drifts is not looked after: deleted behind the back of a quiet
      application that wants it, it stays missing, and the application stays quiet. */
  lemma UnwatchedDriftIsMissed(sys: System, k: AppKey, i: Step)
    requires Quiet(sys, k) && i != 0
    requires var cur := Current(sys.state.cluster, k);
             && cur.Some? && !cur.value.meta.deleting
             && sys.state.plan(k, i, SpecToSpoke(cur.value.spec), cur.value.meta.uid).Some?
    ensures var next := Advance(sys, Happens(Drift(KeyOf(i, k), None)));
            && Quiet(next, k) && !SettledAt(next.state.cluster, next.state.plan, k, i)
            && forall j: Step :: j != i ==>
                 SettledAt(next.state.cluster, next.state.plan, k, j)
                 == SettledAt(sys.state.cluster, sys.state.plan, k, j)
  {
    var next := Advance(sys, Happens(Drift(KeyOf(i, k), None)));
    KindsDistinct(i, 0);
    assert next.unseen == sys.unseen;
    forall j: Step | j != i
      ensures SettledAt(next.state.cluster, next.state.plan, k, j) == SettledAt(sys.state.cluster, sys.state.plan, k, j)
    {
      SettledElsewhere(sys.state.cluster, next.state.cluster, next.state.plan, k, i, j);
    }
  }

  /** Exactly the drift of the Deployment is noticed: whatever becomes of child i of a quiet and
      living application, the application is bound to be queued if and only if i is the
      Deployment; otherwise it stays quiet. */
  lemma DriftIsNoticedExactly(sys: System, k: AppKey, i: Step, o: Option<Obj>)
    requires Sound(sys) && Quiet(sys, k) && !Gone(Current(sys.state.cluster, k))
    requires SettledAt(sys.state.cluster, sys.state.plan, k, i)
    ensures var next := Advance(sys, Happens(Drift(KeyOf(i, k), o)));
            (Pending(next, k) <==> KindAt(i).DeploymentKind?) && (Quiet(next, k) <==> !KindAt(i).DeploymentKind?)
  {
    KindsDistinct(i, 0);
    if i == 0 {
      SettledIsWatched(sys.state.cluster, sys.state.plan, k, o);
    }
    assert i != 0 ==> Watched(sys.state.cluster, Drift(KeyOf(i, k), o)) == {};
  }

  /* ---------- what is reported of a quiet application ---------- */

  /** The stored status speaks of the stored version, and says that enough replicas are ready. */
  predicate ReportsReady(x: Hub) {
    && x.status.observedGeneration == x.meta.generation && x.status.deployedVersion == x.spec.image.tag
    && x.status.readyReplicas >= x.spec.replicas.min
    && Conditions.IsReady(x.status.conditions) && Conditions.FourInOrder(x.status.conditions)
    && Conditions.OneVerdict(x.status.conditions)
    && (x.spec.gateway.enabled && x.spec.gateway.host != "" ==> x.status.url == "https://" + x.spec.gateway.host)
  }

  predicate ReportedReady(c: Cluster, k: AppKey) {
    var cur := Current(c, k);
    Gone(cur) || (!cur.value.meta.deleting && HasFinalizer(cur.value.meta) && ReportsReady(cur.value))
  }

  ghost predicate Worked(s: State, k: AppKey) {
    exists id: PassId :: id.key == k && Runnable(s, id)
  }

  /** Nothing is to be said of k that is not said, or somebody is at it. */
  ghost predicate Told(s: State, k: AppKey) {
    ReportedReady(s.cluster, k) || Worked(s, k)
  }

  lemma SameHistoryReported(c: Cluster, d: Cluster, k: AppKey)
    requires History(c, k) == History(d, k)
    ensures ReportedReady(c, k) == ReportedReady(d, k)
  {
  }

  /** A pass that neither asks for another pass nor makes a new version has found its report
      stored already, with enough replicas ready. */
  lemma UnchangedIsReady(h: seq<Option<Hub>>, cur: Hub, p: Pass)
    requires HistoryOk(h) && h != [] && h[|h| - 1] == Some(cur) && PassOk(h, p) && p.pc == WritingStatus(None)
    requires p.app.meta.resourceVersion == cur.meta.resourceVersion && cur.status == StatusToHub(p.app.status)
    requires cur.status.readyReplicas >= cur.spec.replicas.min
    ensures !cur.meta.deleting && HasFinalizer(cur.meta) && ReportsReady(cur)
  {
    var x :| IsVersion(h, p.app.meta.resourceVersion, x) && WorksOn(p, x);
    Guarantees.CurrentIsRead(h, cur, x);
  }

  lemma StatusTold(c: Cluster, p: Pass, fate: Fate, now: nat)
    requires p.pc.WritingStatus? && HistoryOk(History(c, p.key)) && PassOk(History(c, p.key), p)
    ensures var (d, resp) := Serve(c, p.key, UpdateStatus(p.app), fate);
            var q := Next(p, resp, now);
            Requeues(q) || History(d, p.key) != History(c, p.key) || ReportedReady(d, p.key)
  {
    var (d, resp) := Serve(c, p.key, UpdateStatus(p.app), fate);
    Outcomes.StatusCallDecides(c, p, fate, now);
    if resp.Ok? {
      Outcomes.StatusStored(c, p, fate);
      if p.pc.failure.None? && History(d, p.key) == History(c, p.key) {
        FoundStored(c, p, fate);
      }
    } else {
      RefusedRequeues(Next(p, resp, now).pc.result, resp);
    }
  }

  /** A status write that finds its report stored. */
  lemma FoundStored(c: Cluster, p: Pass, fate: Fate)
    requires p.pc == WritingStatus(None) && HistoryOk(History(c, p.key)) && PassOk(History(c, p.key), p)
    requires var (d, resp) := Serve(c, p.key, UpdateStatus(p.app), fate);
             resp.Ok? && History(d, p.key) == History(c, p.key) && Outcomes.Holds(Current(d, p.key), p)
    ensures var cur := Current(c, p.key);
            cur.Some? && (cur.value.status.readyReplicas >= cur.value.spec.replicas.min ==> ReportedReady(c, p.key))
  {
    var cur := Current(c, p.key).value;
    if cur.status.readyReplicas >= cur.spec.replicas.min {
      UnchangedIsReady(History(c, p.key), cur, p);
    }
  }

  lemma RefusedRequeues(res: Result, resp: Response)
    requires resp.Failed? && Outcomes.EndsAfterStatus(res, resp, None, None)
    ensures res.error.Some? || res.requeueAfter > 0
  {
  }

  /** A fetch from a cache that is not behind ends a pass for good only where nothing is left. */
  lemma FetchTold(c: Cluster, p: Pass, fate: Fate, now: nat)
    requires p.pc.Fetching?
    requires if fate.Faulted? then !IsNotFound(fate.error) else fate.StaleApp? && fate.shown >= |History(c, p.key)|
    ensures var (d, resp) := Serve(c, p.key, GetApp, fate);
            var q := Next(p, resp, now); Requeues(q) || !q.pc.Finished? || ReportedReady(d, p.key)
  {
  }

  lemma OneCallTold(c: Cluster, p: Pass, fate: Fate, now: nat)
    requires HistoryOk(History(c, p.key)) && PassOk(History(c, p.key), p) && !p.pc.Finished?
    requires fate.Faulted? ==> !IsNotFound(fate.error)
    requires p.pc.Fetching? && !fate.Faulted? ==> fate.StaleApp? && fate.shown >= |History(c, p.key)|
    ensures var (d, resp) := Serve(c, p.key, RequestOf(p), fate);
            var q := Next(p, resp, now);
            Requeues(q) || History(d, p.key) != History(c, p.key) || !q.pc.Finished? || ReportedReady(d, p.key)
  {
    match p.pc
    case Fetching => FetchTold(c, p, fate, now);
    case Working(_, _, _) => WorkKeepsApp(p, Serve(c, p.key, RequestOf(p), fate).1);
    case ReadingReplicas(_) =>
    case WritingStatus(_) => StatusTold(c, p, fate, now);
    case RemovingFinalizer => UpdateCovered(c, p, fate, now);
    case AddingFinalizer => UpdateCovered(c, p, fate, now);
  }

  /** A call of a pass over k that makes no new version and ends no pass with a requeue. */
  lemma CallStepTold(s: State, id: PassId, fate: Fate, now: nat)
    requires Safe(s) && Runnable(s, id) && (fate.Faulted? ==> !IsNotFound(fate.error))
    requires s.passes[id].pc.Fetching? && !fate.Faulted? ==>
               fate.StaleApp? && fate.shown >= |History(s.cluster, id.key)|
    requires var t := CallStep(s, id, fate, now);
             !Requeues(t.passes[id]) && History(t.cluster, id.key) == History(s.cluster, id.key)
    ensures Told(CallStep(s, id, fate, now), id.key)
  {
    var t := CallStep(s, id, fate, now);
    assert PassFits(s, id);
    assert HistoryOk(History(s.cluster, id.key));
    OneCallTold(s.cluster, s.passes[id], fate, now);
    if !t.passes[id].pc.Finished? {
      assert Runnable(t, id);
    }
  }

  /** A call of a pass over k that leaves nothing pending. */
  lemma CallTold(sys: System, id: PassId, fate: Fate, now: nat)
    requires Sound(sys) && Runnable(sys.state, id) && Genuine(Calls(id, fate, now))
    requires !Pending(sys, id.key) && !Pending(Advance(sys, Calls(id, fate, now)), id.key)
    ensures Told(Advance(sys, Calls(id, fate, now)).state, id.key)
  {
    var s, f := sys.state, FateOf(sys, id, fate);
    CallAdvances(sys, id, fate, now);
    CallGrows(s, id, f, now);
    assert Extends(History(s.cluster, id.key), History(CallStep(s, id, f, now).cluster, id.key));
    assert History(s.cluster, id.key) == History(CallStep(s, id, f, now).cluster, id.key);
    CallStepTold(s, id, f, now);
  }

  lemma ForeignTold(s: State, l: Label, k: AppKey)
    requires Safe(s) && !Concerns(l, k) && Told(s, k)
    ensures Told(Exec(s, l), k)
  {
    SafeIsKeyed(s);
    ForeignStep(s, l, k);
    SameHistoryReported(s.cluster, Exec(s, l).cluster, k);
    if Worked(s, k) {
      var id: PassId :| id.key == k && Runnable(s, id);
      SamePass(s, Exec(s, l), k, id);
      assert Runnable(Exec(s, l), id);
    }
  }

  lemma SamePassesTold(s: State, c: Cluster, k: AppKey)
    requires Told(s, k) && History(c, k) == History(s.cluster, k)
    ensures Told(s.(cluster := c), k)
  {
    SameHistoryReported(s.cluster, c, k);
    if Worked(s, k) {
      var id: PassId :| id.key == k && Runnable(s, id);
      assert Runnable(s.(cluster := c), id);
    }
  }

  lemma HappensTold(sys: System, l: Label, k: AppKey)
    requires Sound(sys) && (ByUser(l) || l.Drift?) && Told(sys.state, k)
    requires !Pending(Advance(sys, Happens(l)), k)
    ensures Told(Advance(sys, Happens(l)).state, k)
  {
    var s, c := sys.state, Exec(sys.state, l).cluster;
    assert Exec(s, l) == s.(cluster := c);
    if ByUser(l) && l.key == k {
      assert HistoryOk(History(s.cluster, k));
      UserStepOk(s.cluster, l, k);
    } else if ByUser(l) {
      UserStepElsewhere(s.cluster, l, k);
    }
    SamePassesTold(s, c, k);
  }

  lemma EventTold(sys: System, e: Event, k: AppKey)
    requires Sound(sys) && Genuine(e) && (Pending(sys, k) || Told(sys.state, k))
    ensures Pending(Advance(sys, e), k) || Told(Advance(sys, e).state, k)
  {
    var next := Advance(sys, e);
    if e.Starts? && e.id.key == k {
      if e.id !in sys.state.passes {
        assert Runnable(next.state, e.id);
      }
    } else if Pending(sys, k) {
      PendingStays(sys, e, k);
    } else if !Pending(next, k) {
      match e
      case Happens(l) =>
        if !l.Start? && !l.Call? { HappensTold(sys, l, k); }
      case Starts(id) => ForeignTold(sys.state, Start(id), k);
      case Calls(id, fate, now) =>
        if id.key != k {
          ForeignTold(sys.state, Call(id, FateOf(sys, id, fate), now), k);
        } else if Runnable(sys.state, id) {
          CallTold(sys, id, fate, now);
        }
      case _ =>
    }
  }

  ghost predicate KeptTold(sys: System, k: AppKey) {
    Sound(sys) && (Pending(sys, k) || Told(sys.state, k))
  }

  lemma {:induction false} EvolveTold(sys: System, es: seq<Event>, k: AppKey)
    requires KeptTold(sys, k) && forall n :: 0 <= n < |es| ==> Genuine(es[n])
    ensures KeptTold(Evolve(sys, es), k)
  {
    if es == [] {
    } else {
      var init, e := es[..|es| - 1], es[|es| - 1];
      EvolveTold(sys, init, k);
      AdvanceSound(Evolve(sys, init), e);
      EventTold(Evolve(sys, init), e, k);
    }
  }

  /** A quiet application is a ready one: in every run, whatever drifts, fails, lags or overlaps,
      an application that is neither queued nor worked on is gone, done deleting, or adopted with
      a status that speaks of its current version and shows at least the minimum of replicas
      ready. An application that is not ready is never left alone. */
  lemma {:induction false} QuietIsReady(
      limit: nat, plan: Plan, children: map<Key, Obj>, es: seq<Event>, k: AppKey)
    requires Owning(plan) && Versioned(Cluster(map[], children))
    requires forall n :: 0 <= n < |es| ==> Genuine(es[n])
    requires Quiet(Evolve(Empty(limit, plan, children), es), k)
    ensures ReportedReady(Evolve(Empty(limit, plan, children), es).state.cluster, k)
  {
    EmptySound(limit, plan, children);
    assert ReportedReady(Empty(limit, plan, children).state.cluster, k);
    EvolveTold(Empty(limit, plan, children), es, k);
  }
}
