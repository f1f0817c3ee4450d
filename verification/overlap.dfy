/** Overlapping passes: once users and drift leave an application alone, eight passes whose own
    calls succeed settle it, one started after another, whatever other passes do meanwhile. */
module Overlaps {
  import opened Text
  import opened Children
  import opened Errors
  import opened Conversion
  import opened Passes
  import opened Protocol
  import opened Safety
  import opened Convergence
  import opened Interference

  /* ---------- calm ---------- */

  /** A version of the application as the goal has it. */
  predicate Shows(g: Goal, x: Hub) {
    !x.meta.deleting && x.meta.uid == g.uid && SpecToSpoke(x.spec) == g.spec
  }

  /** The pass works for the goal, or has yet to read the application. */
  ghost predicate OnTarget(g: Goal, p: Pass) {
    p.pc.Fetching? || p.pc.Finished? || (SameApp(g, p) && !p.pc.RemovingFinalizer?)
  }

  /** A reachable state in which the application is as the goal has it and no pass under way
      works from an older spec. */
  ghost predicate Calm(g: Goal, s: State) {
    && Safe(s) && s.plan == g.plan && SendsNoVersion(g.plan) && Live(g, s.cluster)
    && forall id: PassId :: id.key == g.key && id in s.passes ==> OnTarget(g, s.passes[id])
  }

  /** Users and drift leave the application alone, and what caches show of it is as the goal
      has it. Calls may fail in any way. */
  ghost predicate CalmStep(g: Goal, s: State, l: Label) {
    match l
    case Drift(x, _) => !Owns(g.key, x)
    case Start(_) => true
    case Call(id, fate, _) =>
      id.key == g.key && Runnable(s, id) && s.passes[id].pc.Fetching? && !fate.Faulted? ==>
        var v := ReadVersion(History(s.cluster, g.key), fate);
        v.Some? && Shows(g, v.value)
    case _ => l.key != g.key
  }

  /** The calls of pass id itself succeed: its fetch shows the current version or one that is
      adopted just as well, and its other calls neither fail nor miss a child in the cache. */
  ghost predicate FairStep(g: Goal, s: State, l: Label, id: PassId) {
    l.Call? && l.id == id && Runnable(s, id) ==>
      if s.passes[id].pc.Fetching? then
        var v := ReadVersion(History(s.cluster, g.key), l.fate);
        && !l.fate.Faulted? && v.Some?
        && (v == Current(s.cluster, g.key) || (Held(g, s.cluster) && HasFinalizer(v.value.meta)))
      else Smooth(l.fate)
  }

  ghost predicate CalmRun(g: Goal, s: State, ls: seq<Label>) {
    ls == [] ||
    (CalmRun(g, s, ls[..|ls| - 1]) && CalmStep(g, Run(s, ls[..|ls| - 1]), ls[|ls| - 1]))
  }

  ghost predicate FairRun(g: Goal, s: State, ls: seq<Label>, id: PassId) {
    ls == [] ||
    (FairRun(g, s, ls[..|ls| - 1], id) && FairStep(g, Run(s, ls[..|ls| - 1]), ls[|ls| - 1], id))
  }

  /** What a calm step does to the application: it stays as the goal has it, and every child
      stays as it is or becomes right. */
  ghost predicate Calmly(g: Goal, c: Cluster, d: Cluster) {
    && Live(g, d) && (Held(g, c) ==> Held(g, d)) && (Current(d, g.key) == Current(c, g.key) || Held(g, d))
    && forall i: Step :: Stored(d, KeyOf(i, g.key)) == Stored(c, KeyOf(i, g.key)) || RightAt(g, d, i)
  }

  lemma CalmlyKeeps(g: Goal, c: Cluster, d: Cluster, n: nat)
    requires Calmly(g, c, d) && RightBelow(g, c, n)
    ensures RightBelow(g, d, n)
  {
    forall i: Step | i < n ensures RightAt(g, d, i) {
      assert RightAt(g, c, i);
    }
  }

  /* ---------- a call of any pass that is on target ---------- */

  /** A call that leaves the history alone and touches child j at most, to make it right. */
  lemma ChildCalmly(g: Goal, c: Cluster, d: Cluster, j: Step)
    requires Live(g, c) && c.history == d.history && (d == c || RightAt(g, d, j))
    requires forall x :: x != KeyOf(j, g.key) ==> Stored(c, x) == Stored(d, x)
    ensures Calmly(g, c, d)
  {
    SameHistory(g, c, d);
    forall i: Step ensures Stored(d, KeyOf(i, g.key)) == Stored(c, KeyOf(i, g.key)) || RightAt(g, d, i) {
      KeysDisjoint(i, g.key, j, g.key);
    }
  }

  lemma DeleteTouches(g: Goal, c: Cluster, i: Step, fate: Fate)
    requires g.plan(g.key, i, g.spec, g.uid).None?
    ensures var k := KeyOf(i, g.key);
            var d := Serve(c, g.key, DeleteChild(k), fate).0;
            && c.history == d.history && (forall x :: x != k ==> Stored(c, x) == Stored(d, x))
            && (d == c || RightAt(g, d, i))
  {
  }

  /** Inside a sub-reconciler, whatever becomes of the call. */
  lemma WorkCalmly(g: Goal, c: Cluster, p: Pass, fate: Fate)
    requires Live(g, c) && p.pc.Working? && p.key == g.key && p.plan == g.plan && SameApp(g, p) && Retrying(p)
    ensures Calmly(g, c, Serve(c, p.key, RequestOf(p), fate).0)
  {
    var j, d := p.pc.step, Serve(c, p.key, RequestOf(p), fate).0;
    match p.pc.phase {
      case Creating => ApplyServed(g, c, j, Sent(p, j), true, fate);
      case Patching => ApplyServed(g, c, j, Sent(p, j), false, fate);
      case Deleting => DeleteTouches(g, c, j, fate);
      case _ => assert d == c;
    }
    ChildCalmly(g, c, d, j);
  }

  /** A history with one more version that the goal has, adopted. */
  lemma VersionCalmly(g: Goal, c: Cluster, d: Cluster, x: Hub)
    requires c.children == d.children && Current(d, g.key) == Some(x) && Shows(g, x) && HasFinalizer(x.meta)
    ensures Calmly(g, c, d)
  {
  }

  lemma AddsCalmly(g: Goal, c: Cluster, p: Pass, fate: Fate)
    requires Live(g, c) && p.pc.AddingFinalizer? && p.key == g.key && SameApp(g, p) && Sourced(History(c, p.key), p)
    ensures Calmly(g, c, Serve(c, p.key, UpdateApp(p.app), fate).0)
  {
    var d := Serve(c, p.key, UpdateApp(p.app), fate).0;
    UpdateAppends(c, p.key, p.app, fate);
    ServeChildless(c, p.key, UpdateApp(p.app), fate);
    if History(d, p.key) != History(c, p.key) {
      var cur := Current(c, p.key).value;
      var x := SpokeRewritten(cur, p.app.spec, p.app.meta.finalizers, |History(c, p.key)|);
      AdoptedShows(g, History(c, p.key), cur, p, x);
      VersionCalmly(g, c, d, x);
    }
  }

  lemma AdoptedShows(g: Goal, h: seq<Option<Hub>>, cur: Hub, p: Pass, x: Hub)
    requires Shows(g, cur) && p.pc.AddingFinalizer? && SameApp(g, p) && Sourced(h, p)
    requires x == SpokeRewritten(cur, p.app.spec, p.app.meta.finalizers, |h|)
    ensures Shows(g, x) && HasFinalizer(x.meta) && Persisted(x) == Some(x)
  {
    var y :| IsVersion(h, p.app.meta.resourceVersion, y) && !y.meta.deleting && !HasFinalizer(y.meta)
             && p.app == WithFinalizer(ToSpoke(y));
    assert p.app.meta.finalizers[|y.meta.finalizers|] == FINALIZER;
    SpokeRoundTrip(p.app);
  }

  lemma StatusCalmly(g: Goal, c: Cluster, p: Pass, fate: Fate)
    requires Live(g, c) && p.pc.WritingStatus? && p.key == g.key
    requires HistoryOk(History(c, p.key)) && Sourced(History(c, p.key), p)
    ensures Calmly(g, c, Serve(c, p.key, UpdateStatus(p.app), fate).0)
  {
    var d := Serve(c, p.key, UpdateStatus(p.app), fate).0;
    StatusAppends(c, p.key, p.app, fate);
    StatusWrite(g, c, p.app, fate);
    if History(d, p.key) != History(c, p.key) {
      ReportsOnAdopted(History(c, p.key), Current(c, p.key).value, p);
      VersionCalmly(g, c, d, Current(d, g.key).value);
    }
  }

  /** A status write that is taken up is one of an adopted application. */
  lemma ReportsOnAdopted(h: seq<Option<Hub>>, cur: Hub, p: Pass)
    requires HistoryOk(h) && h != [] && h[|h| - 1] == Some(cur) && p.pc.WritingStatus? && Sourced(h, p)
    requires p.app.meta.resourceVersion == cur.meta.resourceVersion
    ensures HasFinalizer(cur.meta)
  {
    var x :| IsVersion(h, p.app.meta.resourceVersion, x) && WorksOn(p, x);
    assert VersionOk(cur, |h| - 1);
  }

  /** Reads change nothing. */
  lemma ReadCalmly(g: Goal, c: Cluster, p: Pass, fate: Fate)
    requires Live(g, c) && (p.pc.Fetching? || p.pc.ReadingReplicas?)
    ensures Calmly(g, c, Serve(c, p.key, RequestOf(p), fate).0)
  {
    assert Serve(c, p.key, RequestOf(p), fate).0 == c;
  }

  /** Any call of any pass that is on target. */
  lemma CallCalmly(g: Goal, c: Cluster, p: Pass, fate: Fate)
    requires Live(g, c) && !p.pc.Finished? && p.key == g.key && p.plan == g.plan && OnTarget(g, p)
    requires HistoryOk(History(c, p.key)) && PassOk(History(c, p.key), p)
    ensures Calmly(g, c, Serve(c, p.key, RequestOf(p), fate).0)
  {
    match p.pc
    case Working(_, _, _) => WorkCalmly(g, c, p, fate);
    case AddingFinalizer => AddsCalmly(g, c, p, fate);
    case WritingStatus(_) => StatusCalmly(g, c, p, fate);
    case Fetching => ReadCalmly(g, c, p, fate);
    case ReadingReplicas(_) => ReadCalmly(g, c, p, fate);
  }

  /** A pass that is on target stays so. */
  lemma StaysOnTarget(g: Goal, p: Pass, resp: Response, now: nat)
    requires !p.pc.Finished? && Fits(RequestOf(p), resp) && OnTarget(g, p)
    requires p.pc.Fetching? && resp.GotApp? ==> exists x :: Shows(g, x) && resp.app == ToSpoke(x)
    ensures OnTarget(g, Next(p, resp, now))
  {
    if p.pc.Working? {
      WorkKeepsApp(p, resp);
    }
  }

  /* ---------- one calm step ---------- */

  lemma OwnCallCalm(g: Goal, s: State, id: PassId, fate: Fate, now: nat)
    requires Calm(g, s) && Runnable(s, id) && id.key == g.key && CalmStep(g, s, Call(id, fate, now))
    ensures var t := CallStep(s, id, fate, now); Calmly(g, s.cluster, t.cluster) && OnTarget(g, t.passes[id])
  {
    assert PassFits(s, id);
    assert HistoryOk(History(s.cluster, id.key));
    var p := s.passes[id];
    CallCalmly(g, s.cluster, p, fate);
    var resp := Serve(s.cluster, p.key, RequestOf(p), fate).1;
    if p.pc.Fetching? && resp.GotApp? {
      assert Shows(g, ReadVersion(History(s.cluster, g.key), fate).value);
    }
    StaysOnTarget(g, p, resp, now);
  }

  /** What happens elsewhere. */
  lemma ForeignCalm(g: Goal, s: State, l: Label)
    requires Calm(g, s) && !Concerns(l, g.key)
    ensures Calm(g, Exec(s, l)) && Calmly(g, s.cluster, Exec(s, l).cluster)
  {
    var t := Exec(s, l);
    SafeIsKeyed(s);
    ForeignStep(s, l, g.key);
    ExecSafe(s, l);
    forall i: Step ensures Stored(t.cluster, KeyOf(i, g.key)) == Stored(s.cluster, KeyOf(i, g.key)) {
      SameViewSameChildren(t, s, g.key, i);
    }
    forall id: PassId | id.key == g.key && id in t.passes ensures OnTarget(g, t.passes[id]) {
      SamePass(t, s, g.key, id);
    }
  }

  lemma OneStepCalm(g: Goal, s: State, l: Label)
    requires Calm(g, s) && CalmStep(g, s, l)
    ensures Calm(g, Exec(s, l)) && Calmly(g, s.cluster, Exec(s, l).cluster)
  {
    if !Concerns(l, g.key) {
      ForeignCalm(g, s, l);
    } else {
      ExecSafe(s, l);
      if l.Call? && Runnable(s, l.id) {
        OwnCallCalm(g, s, l.id, l.fate, l.now);
      }
    }
  }

  /* ---------- the pass that is followed ---------- */

  predicate HasRead(p: Pass, v: Option<Hub>) {
    v.Some? && p.app.meta.resourceVersion == v.value.meta.resourceVersion
  }

  /** What a pass owes its goal on the way, which began with the first n children right, and
      with the finalizer if held. */
  ghost predicate Along(g: Goal, c: Cluster, p: Pass, n: Step, held: bool) {
    match p.pc
    case Fetching => true
    case RemovingFinalizer => false
    case AddingFinalizer =>
      !held && (Held(g, c) || HasRead(p, Current(c, g.key)))
    case Working(i, _, phase) => RightBelow(g, c, i) && InTime(g, c, i, phase, n)
    case ReadingReplicas(f) => Gained(g, c, f, n)
    case WritingStatus(f) => Gained(g, c, f, n)
    case Finished(_) => RightBelow(g, c, n + 1) || (!held && Held(g, c))
  }

  /** A child is created only where it is missing, or where another pass has just created it. */
  predicate InTime(g: Goal, c: Cluster, i: Step, phase: Phase, n: Step) {
    match phase
    case Creating => n <= i && (KeyOf(i, g.key) !in c.children || RightAt(g, c, i))
    case Waiting => false
    case _ => true
  }

  /** A pass that failed did so where another had made the child right. */
  ghost predicate Gained(g: Goal, c: Cluster, f: Option<Failure>, n: Step) {
    match f
    case None => AllRight(g, c)
    case Some(failure) => n <= failure.step && RightBelow(g, c, failure.step + 1)
  }

  lemma AlongKeeps(g: Goal, c: Cluster, d: Cluster, p: Pass, n: Step, held: bool)
    requires Live(g, c) && Along(g, c, p, n, held) && Calmly(g, c, d)
    ensures Along(g, d, p, n, held)
  {
    match p.pc
    case Working(i, _, phase) =>
      CalmlyKeeps(g, c, d, i);
      assert Stored(d, KeyOf(i, g.key)) == Stored(c, KeyOf(i, g.key)) || RightAt(g, d, i);
    case ReadingReplicas(f) => GainedKeeps(g, c, d, f, n);
    case WritingStatus(f) => GainedKeeps(g, c, d, f, n);
    case Finished(_) =>
      if RightBelow(g, c, n + 1) {
        CalmlyKeeps(g, c, d, n + 1);
      }
    case _ =>
  }

  lemma GainedKeeps(g: Goal, c: Cluster, d: Cluster, f: Option<Failure>, n: Step)
    requires Gained(g, c, f, n) && Calmly(g, c, d)
    ensures Gained(g, d, f, n)
  {
    CalmlyKeeps(g, c, d, if f.Some? then f.value.step + 1 else 7);
  }

  lemma GainedIsOneMore(g: Goal, c: Cluster, f: Option<Failure>, n: Step)
    requires Gained(g, c, f, n)
    ensures RightBelow(g, c, n + 1)
  {
  }

  /** A pass that the goal's current version, or a like one, sends to work or to adopt. */
  lemma FetchAlong(g: Goal, c: Cluster, p: Pass, x: Hub, now: nat, n: Step, held: bool)
    requires Live(g, c) && (held ==> Held(g, c)) && Shows(g, x)
    requires Some(x) == Current(c, g.key) || (Held(g, c) && HasFinalizer(x.meta))
    ensures Along(g, c, Fetched(p, ToSpoke(x), now), n, held)
  {
  }

  lemma GettingAlong(g: Goal, c: Cluster, p: Pass, fate: Fate, n: Step, held: bool)
    requires p.pc.Working? && p.pc.phase == Getting && p.key == g.key && p.plan == g.plan && SameApp(g, p)
    requires Retrying(p) && FateFits(g.plan, fate) && Smooth(fate) && RightBelow(g, c, n)
    requires Along(g, c, p, n, held)
    ensures var resp := Serve(c, p.key, RequestOf(p), fate).1;
            Along(g, c, NextWorking(p, p.pc.step, p.pc.attempt, Getting, resp), n, held)
  {
    var i, resp := p.pc.step, Serve(c, p.key, RequestOf(p), fate).1;
    GetServed(c, p.key, KeyOf(i, p.key), fate);
    GettingGoes(p, i, resp);
    assert Planned(p, i) == g.plan(g.key, i, g.spec, g.uid);
    assert i < n ==> RightAt(g, c, i);
    if resp.GotChild? && resp.child == Sent(p, i) {
      DoneAlong(g, c, p, n, held);
    }
  }

  /** Leaving a sub-reconciler with its child right. */
  lemma DoneAlong(g: Goal, c: Cluster, p: Pass, n: Step, held: bool)
    requires p.pc.Working? && RightBelow(g, c, p.pc.step) && RightAt(g, c, p.pc.step)
    ensures Along(g, c, StepDone(p, p.pc.step), n, held)
  {
    assert RightBelow(g, c, p.pc.step + 1);
  }

  /** A create or patch that does not fail of itself: only a create where there is a child
      already is refused. */
  lemma WriteServed(g: Goal, c: Cluster, i: Step, planned: Obj, create: bool, fate: Fate)
    requires Live(g, c) && g.plan(g.key, i, g.spec, g.uid) == Some(planned) && Smooth(fate)
    ensures var k := KeyOf(i, g.key);
            var (d, resp) := Serve(c, g.key, if create then CreateChild(k, planned) else PatchChild(k, planned), fate);
            && Calmly(g, c, d)
            && (resp.Ok? ==> RightAt(g, d, i))
            && (resp.Failed? ==> create && k in c.children && d == c && resp.error == Api(AlreadyExists))
  {
    var k := KeyOf(i, g.key);
    ApplyServed(g, c, i, planned, create, fate);
    ChildCalmly(g, c,
        Serve(c, g.key, if create then CreateChild(k, planned) else PatchChild(k, planned), fate).0, i);
  }

  lemma WritingAlong(g: Goal, c: Cluster, p: Pass, fate: Fate, n: Step, held: bool)
    requires p.pc.Working? && (p.pc.phase == Creating || p.pc.phase == Patching)
    requires p.key == g.key && p.plan == g.plan && SameApp(g, p) && Live(g, c)
    requires Retrying(p) && Smooth(fate) && Along(g, c, p, n, held)
    ensures var (d, resp) := Serve(c, p.key, RequestOf(p), fate);
            Along(g, d, NextWorking(p, p.pc.step, p.pc.attempt, p.pc.phase, resp), n, held)
  {
    var i, create := p.pc.step, p.pc.phase == Creating;
    var (d, resp) := Serve(c, p.key, RequestOf(p), fate);
    WriteServed(g, c, i, Sent(p, i), create, fate);
    WrittenAlong(g, c, d, p, resp, n, held);
  }

  lemma WrittenAlong(g: Goal, c: Cluster, d: Cluster, p: Pass, resp: Response, n: Step, held: bool)
    requires p.pc.Working? && (p.pc.phase == Creating || p.pc.phase == Patching) && Fits(RequestOf(p), resp)
    requires Along(g, c, p, n, held) && Calmly(g, c, d) && (resp.Ok? ==> RightAt(g, d, p.pc.step))
    requires resp.Failed? ==>
               && p.pc.phase == Creating && KeyOf(p.pc.step, g.key) in c.children && d == c
               && resp.error == Api(AlreadyExists)
    ensures Along(g, d, NextWorking(p, p.pc.step, p.pc.attempt, p.pc.phase, resp), n, held)
  {
    var i := p.pc.step;
    CalmlyKeeps(g, c, d, i);
    WritingGoes(p, i, resp);
    if resp.Ok? {
      DoneAlong(g, d, p, n, held);
    } else {
      TakenFails(p, i);
    }
  }

  /** A child that exists already is no conflict, and not retried. */
  lemma TakenFails(p: Pass, i: Step)
    requires InPhase(p, i, Creating)
    ensures FailedAt(NextWorking(p, i, p.pc.attempt, Creating, Failed(Api(AlreadyExists))), i)
  {
    assert !IsConflict(Wrapped(ToCreate, Api(AlreadyExists)));
  }

  lemma DeletingAlong(g: Goal, c: Cluster, p: Pass, fate: Fate, n: Step, held: bool)
    requires p.pc.Working? && p.pc.phase == Deleting
    requires p.key == g.key && p.plan == g.plan && SameApp(g, p) && Live(g, c)
    requires Retrying(p) && FateFits(g.plan, fate) && Smooth(fate) && Along(g, c, p, n, held)
    ensures var (d, resp) := Serve(c, p.key, RequestOf(p), fate);
            Along(g, d, NextWorking(p, p.pc.step, p.pc.attempt, Deleting, resp), n, held)
  {
    var i := p.pc.step;
    var (d, resp) := Serve(c, p.key, RequestOf(p), fate);
    DeleteServed(g, c, i, fate);
    ChildCalmly(g, c, d, i);
    CalmlyKeeps(g, c, d, i);
    DeletingGoes(p, i, resp);
    DoneAlong(g, d, p, n, held);
  }

  /** The end of a pass, whatever becomes of its status write. */
  lemma EndAlong(g: Goal, c: Cluster, p: Pass, fate: Fate, now: nat, n: Step, held: bool)
    requires Live(g, c) && p.pc.WritingStatus? && p.key == g.key && Along(g, c, p, n, held)
    ensures var (d, resp) := Serve(c, p.key, RequestOf(p), fate); Along(g, d, Next(p, resp, now), n, held)
  {
    var (d, resp) := Serve(c, p.key, RequestOf(p), fate);
    StatusEnds(p, resp, now);
    StatusWrite(g, c, p.app, fate);
    SameChildren(g, c, d);
    GainedIsOneMore(g, c, p.pc.failure, n);
  }

  /** The finalizer is added, by this pass or by another. */
  lemma AddingAlong(g: Goal, c: Cluster, p: Pass, fate: Fate, now: nat, n: Step, held: bool)
    requires Live(g, c) && p.pc.AddingFinalizer? && p.key == g.key && SameApp(g, p) && Along(g, c, p, n, held)
    requires Sourced(History(c, p.key), p) && Smooth(fate)
    ensures var (d, resp) := Serve(c, p.key, RequestOf(p), fate); Along(g, d, Next(p, resp, now), n, held)
  {
    AddsCalmly(g, c, p, fate);
    if !Held(g, c) {
      AdoptingHolds(g, c, p, fate);
    }
  }

  lemma AdoptingHolds(g: Goal, c: Cluster, p: Pass, fate: Fate)
    requires Live(g, c) && p.pc.AddingFinalizer? && p.key == g.key && SameApp(g, p)
    requires Sourced(History(c, p.key), p) && Smooth(fate)
    requires p.app.meta.resourceVersion == Current(c, g.key).value.meta.resourceVersion
    ensures Held(g, Serve(c, p.key, UpdateApp(p.app), fate).0)
  {
    var y :| IsVersion(History(c, p.key), p.app.meta.resourceVersion, y) && p.app == WithFinalizer(ToSpoke(y));
    assert p.app.meta.finalizers[|y.meta.finalizers|] == FINALIZER;
    AddingServed(g, c, p.app, fate);
  }

  lemma CallAlong(g: Goal, c: Cluster, p: Pass, fate: Fate, now: nat, n: Step, held: bool)
    requires Live(g, c) && !p.pc.Finished? && !p.pc.Fetching? && p.key == g.key && p.plan == g.plan && OnTarget(g, p)
    requires PassOk(History(c, p.key), p) && SendsNoVersion(g.plan) && Smooth(fate)
    requires Along(g, c, p, n, held) && RightBelow(g, c, n)
    ensures var (d, resp) := Serve(c, p.key, RequestOf(p), fate); Along(g, d, Next(p, resp, now), n, held)
  {
    match p.pc
    case AddingFinalizer => AddingAlong(g, c, p, fate, now, n, held);
    case Working(i, _, phase) =>
      match phase {
        case Getting =>
          assert Serve(c, p.key, RequestOf(p), fate).0 == c;
          GettingAlong(g, c, p, fate, n, held);
        case Deleting => DeletingAlong(g, c, p, fate, n, held);
        case _ => WritingAlong(g, c, p, fate, n, held);
      }
    case ReadingReplicas(_) => assert Serve(c, p.key, RequestOf(p), fate).0 == c;
    case WritingStatus(_) => EndAlong(g, c, p, fate, now, n, held);
  }

  /** What holds while pass id is followed. */
  ghost predicate Followed(g: Goal, s: State, id: PassId, n: Step, held: bool) {
    && Calm(g, s) && RightBelow(g, s.cluster, n) && (held ==> Held(g, s.cluster))
    && (id in s.passes ==> Along(g, s.cluster, s.passes[id], n, held))
  }

  lemma OwnCallFollowed(g: Goal, s: State, id: PassId, fate: Fate, now: nat, n: Step, held: bool)
    requires Followed(g, s, id, n, held) && id.key == g.key && Runnable(s, id)
    requires CalmStep(g, s, Call(id, fate, now)) && FairStep(g, s, Call(id, fate, now), id)
    ensures var t := CallStep(s, id, fate, now); Along(g, t.cluster, t.passes[id], n, held)
  {
    assert PassFits(s, id);
    var p := s.passes[id];
    if p.pc.Fetching? {
      var x := ReadVersion(History(s.cluster, g.key), fate).value;
      FetchAlong(g, s.cluster, p, x, now, n, held);
    } else {
      CallAlong(g, s.cluster, p, fate, now, n, held);
    }
  }

  lemma StepFollowed(g: Goal, s: State, l: Label, id: PassId, n: Step, held: bool)
    requires Followed(g, s, id, n, held) && id.key == g.key && CalmStep(g, s, l) && FairStep(g, s, l, id)
    ensures Followed(g, Exec(s, l), id, n, held)
  {
    var t := Exec(s, l);
    OneStepCalm(g, s, l);
    CalmlyKeeps(g, s.cluster, t.cluster, n);
    if id in t.passes {
      if l.Call? && l.id == id && Runnable(s, id) {
        OwnCallFollowed(g, s, id, l.fate, l.now, n, held);
      } else if id in s.passes {
        AlongKeeps(g, s.cluster, t.cluster, s.passes[id], n, held);
      }
    }
  }

  lemma {:induction false} RunFollowed(g: Goal, s: State, ls: seq<Label>, id: PassId, n: Step, held: bool)
    requires Followed(g, s, id, n, held) && id.key == g.key && CalmRun(g, s, ls) && FairRun(g, s, ls, id)
    ensures Followed(g, Run(s, ls), id, n, held)
  {
    if ls == [] {
    } else {
      RunFollowed(g, s, ls[..|ls| - 1], id, n, held);
      StepFollowed(g, Run(s, ls[..|ls| - 1]), ls[|ls| - 1], id, n, held);
    }
  }

  /* ---------- pass after pass ---------- */

  /** A stretch of a run, and the pass in it that is followed. */
  datatype Stretch = Stretch(labels: seq<Label>, id: PassId)

  function RunAll(s: State, rs: seq<Stretch>): State {
    if rs == [] then s else Run(RunAll(s, rs[..|rs| - 1]), rs[|rs| - 1].labels)
  }

  /** From start to end, a pass over the application. */
  ghost predicate Contains(g: Goal, s: State, r: Stretch) {
    var t := Run(s, r.labels);
    && r.id.key == g.key && r.id !in s.passes && r.id in t.passes && t.passes[r.id].pc.Finished?
    && CalmRun(g, s, r.labels) && FairRun(g, s, r.labels, r.id)
  }

  /** Stretch after stretch, each with a pass that starts and ends in it; any other passes run
      beside it and across. */
  ghost predicate Chained(g: Goal, s: State, rs: seq<Stretch>) {
    rs == [] || (Chained(g, s, rs[..|rs| - 1]) && Contains(g, RunAll(s, rs[..|rs| - 1]), rs[|rs| - 1]))
  }

  /** After m passes at least m children are right, or m - 1 and the finalizer has been added. */
  ghost predicate Gains(g: Goal, t: State, m: nat, held: bool, n: nat) {
    && Calm(g, t) && n <= 7 && RightBelow(g, t.cluster, n) && (held ==> Held(g, t.cluster))
    && (n == 7 || m <= n + (if Held(g, t.cluster) && !held then 1 else 0))
  }

  /** A calm run unsettles nothing. */
  lemma {:induction false} RunKeepsRight(g: Goal, s: State, ls: seq<Label>, n: nat)
    requires Calm(g, s) && RightBelow(g, s.cluster, n) && CalmRun(g, s, ls)
    ensures Calm(g, Run(s, ls)) && RightBelow(g, Run(s, ls).cluster, n)
    ensures Held(g, s.cluster) ==> Held(g, Run(s, ls).cluster)
  {
    if ls == [] {
    } else {
      var u, l := Run(s, ls[..|ls| - 1]), ls[|ls| - 1];
      RunKeepsRight(g, s, ls[..|ls| - 1], n);
      OneStepCalm(g, u, l);
      CalmlyKeeps(g, u.cluster, Exec(u, l).cluster, n);
    }
  }

  /** A pass that starts and ends makes one more child right, or adds the finalizer. */
  lemma FollowedGains(g: Goal, s: State, t: State, id: PassId, n: Step, held: bool, m: nat) returns (n': nat)
    requires Followed(g, t, id, n, Held(g, s.cluster)) && id in t.passes && t.passes[id].pc.Finished?
    requires Gains(g, s, m, held, n)
    ensures Gains(g, t, m + 1, held, n')
  {
    n' := if RightBelow(g, t.cluster, n + 1) then n + 1 else n;
  }

  lemma OneMoreGains(g: Goal, s: State, r: Stretch, m: nat, held: bool, n: nat) returns (n': nat)
    requires Gains(g, s, m, held, n) && Contains(g, s, r)
    ensures Gains(g, Run(s, r.labels), m + 1, held, n')
  {
    if n == 7 {
      RunKeepsRight(g, s, r.labels, n);
      n' := n;
    } else {
      RunFollowed(g, s, r.labels, r.id, n, Held(g, s.cluster));
      n' := FollowedGains(g, s, Run(s, r.labels), r.id, n, held, m);
    }
  }

  lemma {:induction false} ChainGains(g: Goal, s: State, rs: seq<Stretch>) returns (n: nat)
    requires Calm(g, s) && Chained(g, s, rs)
    ensures Gains(g, RunAll(s, rs), |rs|, Held(g, s.cluster), n)
  {
    if rs == [] {
      n := 0;
    } else {
      n := ChainGains(g, s, rs[..|rs| - 1]);
      n := OneMoreGains(g, RunAll(s, rs[..|rs| - 1]), rs[|rs| - 1], |rs| - 1, Held(g, s.cluster), n);
    }
  }

  /** Once users and drift leave an application alone and no pass works from an older spec:
      after eight passes whose own calls succeed, one started after another, all seven children
      are right, after seven if the finalizer was held, whatever other passes run beside them,
      at whatever point of theirs, and whichever of their calls fail. */
  lemma {:induction false} EightPassesSettle(g: Goal, s: State, rs: seq<Stretch>)
    requires Calm(g, s) && Chained(g, s, rs)
    ensures |rs| >= 8 ==> AllRight(g, RunAll(s, rs).cluster)
    ensures |rs| >= 7 && Held(g, s.cluster) ==> AllRight(g, RunAll(s, rs).cluster)
  {
    var n := ChainGains(g, s, rs);
  }

  /** What is settled stays settled through every calm run. */
  lemma {:induction false} SettledStays(g: Goal, s: State, ls: seq<Label>)
    requires Calm(g, s) && CalmRun(g, s, ls) && AllRight(g, s.cluster)
    ensures Calm(g, Run(s, ls)) && AllRight(g, Run(s, ls).cluster)
  {
    RunKeepsRight(g, s, ls, 7);
  }
}
