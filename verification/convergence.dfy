/** A pass that nobody interferes with: what it leaves behind, failing or not, and how many
    passes it takes until all seven children are right. */
module Convergence {
  import opened V1Alpha1
  import opened Text
  import opened Children
  import opened Errors
  import opened Conversion
  import opened Passes

  /** Calls are served, or fail with anything but NotFound; children may be read from a cache
      that lags in any way. */
  predicate SoloFate(f: Fate) {
    match f
    case Served(_) => true
    case Faulted(error, _, _) => !IsNotFound(error)
    case StaleApp(_) => false
    case StaleChild(_) => true
  }

  /** A call that does not fail, and does not miss a child in a lagging cache. */
  predicate Smooth(f: Fate) {
    f.Served? || (f.StaleChild? && f.seen.Some?)
  }

  /** Lagging reads of children are told apart from what is sent by their resourceVersion. */
  ghost predicate FateFits(plan: Plan, f: Fate) {
    SoloFate(f) && (f.StaleChild? ==> SendsNoVersion(plan))
  }

  ghost predicate Solo(ticks: Ticks, plan: Plan) {
    forall n :: FateFits(plan, ticks(n).fate)
  }

  /** How many calls of [from, to) fail, or miss a child in a lagging cache. */
  function Faults(ticks: Ticks, from: nat, to: nat): nat
    decreases to - from
  {
    if from >= to then 0 else (if Smooth(ticks(to - 1).fate) then 0 else 1) + Faults(ticks, from, to - 1)
  }

  lemma {:induction false} FaultsSplit(ticks: Ticks, a: nat, b: nat, c: nat)
    requires a <= b <= c
    ensures Faults(ticks, a, c) == Faults(ticks, a, b) + Faults(ticks, b, c)
    decreases c - b
  {
    if b == c {
    } else {
      FaultsSplit(ticks, a, b, c - 1);
    }
  }

  /** The application whose children are to be right: its key, plan, spec and uid. */
  datatype Goal = Goal(key: AppKey, plan: Plan, spec: Spec, uid: nat)

  /** The application exists with this spec and uid and is not being deleted. */
  predicate Live(g: Goal, c: Cluster) {
    var h := Current(c, g.key);
    h.Some? && !h.value.meta.deleting && h.value.meta.uid == g.uid && SpecToSpoke(h.value.spec) == g.spec
  }

  predicate Held(g: Goal, c: Cluster) {
    var h := Current(c, g.key);
    h.Some? && HasFinalizer(h.value.meta)
  }

  predicate RightObj(planned: Option<Obj>, stored: Option<Obj>) {
    match planned
    case None => stored.None?
    case Some(d) => stored.Some? && Covers(stored.value, d)
  }

  /** Child i is absent where it is not wanted, and covers what is wanted where it is. */
  predicate RightAt(g: Goal, c: Cluster, i: Step) {
    RightObj(g.plan(g.key, i, g.spec, g.uid), Stored(c, KeyOf(i, g.key)))
  }

  ghost predicate RightBelow(g: Goal, c: Cluster, n: nat) {
    forall i: Step :: i < n ==> RightAt(g, c, i)
  }

  ghost predicate AllRight(g: Goal, c: Cluster) {
    RightBelow(g, c, 7)
  }

  /** Only children below step n may differ. */
  ghost predicate TouchedBelow(g: Goal, c0: Cluster, c: Cluster, n: nat) {
    forall k :: (forall i: Step :: i < n ==> KeyOf(i, g.key) != k) ==> Stored(c, k) == Stored(c0, k)
  }

  ghost predicate SameApp(g: Goal, p: Pass) {
    p.app.spec == g.spec && p.app.meta.uid == g.uid
  }

  /** Which phase a sub-reconciler can be in. */
  predicate PhaseFits(g: Goal, c: Cluster, i: Step, phase: Phase, clean: bool) {
    var planned := g.plan(g.key, i, g.spec, g.uid);
    match phase
    case Deleting => planned.None?
    case Creating => planned.Some? && (clean ==> KeyOf(i, g.key) !in c.children)
    case _ => planned.Some?
  }

  ghost predicate FailureFits(g: Goal, c0: Cluster, c: Cluster, failure: Option<Failure>, clean: bool) {
    match failure
    case None => AllRight(g, c) && TouchedBelow(g, c0, c, 7)
    case Some(f) => RightBelow(g, c, f.step) && TouchedBelow(g, c0, c, f.step + 1) && !clean
  }

  predicate Wakes(r: Result) {
    r.error.Some? || r.requeueAfter > 0 || r.wroteApp
  }

  ghost predicate AtPc(g: Goal, c0: Cluster, c: Cluster, p: Pass, clean: bool) {
    match p.pc
    case Fetching => c == c0
    case RemovingFinalizer => false
    case AddingFinalizer =>
      && c == c0 && SameApp(g, p) && !Held(g, c0) && FINALIZER in p.app.meta.finalizers
      && Current(c, g.key).Some? && p.app.meta.resourceVersion == Current(c, g.key).value.meta.resourceVersion
    case Working(i, _, phase) =>
      && Held(g, c0) && SameApp(g, p) && RightBelow(g, c, i) && TouchedBelow(g, c0, c, i + 1)
      && PhaseFits(g, c, i, phase, clean)
    case ReadingReplicas(failure) => Held(g, c0) && SameApp(g, p) && FailureFits(g, c0, c, failure, clean)
    case WritingStatus(failure) => Held(g, c0) && SameApp(g, p) && FailureFits(g, c0, c, failure, clean)
    case Finished(r) =>
      && (AllRight(g, c) || Wakes(r))
      && (clean && Held(g, c0) ==> AllRight(g, c))
      && (clean && !Held(g, c0) ==> Held(g, c))
      && TouchedBelow(g, c0, c, 7)
  }

  /** What holds after every call of a pass that began in cluster c0. */
  ghost predicate Inv(g: Goal, c0: Cluster, c: Cluster, p: Pass, clean: bool) {
    && p.key == g.key && p.plan == g.plan
    && Live(g, c0) && Live(g, c)
    && (Held(g, c0) ==> Held(g, c))
    && (AllRight(g, c0) ==> AllRight(g, c))
    && AtPc(g, c0, c, p, clean)
  }

  /* ---------- one call ---------- */

  /** A current fetch of a living application. */
  lemma FetchServed(g: Goal, c: Cluster, fate: Fate)
    requires Live(g, c) && SoloFate(fate)
    ensures var (d, resp) := Serve(c, g.key, GetApp, fate);
            && d == c
            && (resp.GotApp? ==> resp.app == ToSpoke(Current(c, g.key).value))
            && (resp.Failed? ==> !IsNotFound(resp.error) && !Smooth(fate))
  {
  }

  /** Where a pass goes that has read the current version. */
  lemma FetchedInv(g: Goal, c: Cluster, p: Pass, a: Spoke, now: nat, clean: bool)
    requires p.key == g.key && p.plan == g.plan && Live(g, c) && a == ToSpoke(Current(c, g.key).value)
    ensures Inv(g, c, c, Fetched(p, a, now), clean)
  {
  }

  lemma FetchStep(g: Goal, c0: Cluster, c: Cluster, p: Pass, clean: bool, fate: Fate, now: nat)
    requires Inv(g, c0, c, p, clean) && p.pc.Fetching? && FateFits(g.plan, fate)
    ensures var (d, resp) := Serve(c, p.key, GetApp, fate);
            Inv(g, c0, d, Next(p, resp, now), clean && Smooth(fate))
  {
    FetchServed(g, c, fate);
    var resp := Serve(c, p.key, GetApp, fate).1;
    if resp.GotApp? {
      FetchedInv(g, c, p, resp.app, now, clean && Smooth(fate));
    }
  }

  lemma SameChildren(g: Goal, c: Cluster, d: Cluster)
    requires c.children == d.children
    ensures forall n: nat :: RightBelow(g, c, n) <==> RightBelow(g, d, n)
    ensures forall c0, n: nat :: TouchedBelow(g, c0, c, n) <==> TouchedBelow(g, c0, d, n)
  {
    forall i: Step ensures RightAt(g, c, i) == RightAt(g, d, i) {
    }
    forall c0, n: nat ensures TouchedBelow(g, c0, c, n) <==> TouchedBelow(g, c0, d, n) {
      assert forall k :: Stored(c, k) == Stored(d, k);
    }
  }

  /** The update that adds the finalizer. */
  lemma AddingServed(g: Goal, c: Cluster, a: Spoke, fate: Fate)
    requires Live(g, c) && a.spec == g.spec && FINALIZER in a.meta.finalizers && SoloFate(fate)
    requires a.meta.resourceVersion == Current(c, g.key).value.meta.resourceVersion
    ensures var (d, resp) := Serve(c, g.key, UpdateApp(a), fate);
            && Live(g, d) && c.children == d.children && (Held(g, c) ==> Held(g, d))
            && (resp.Ok? ==> Held(g, d)) && (resp.Failed? ==> !Smooth(fate))
  {
    assert a.meta.finalizers != [];
  }

  lemma AddingStep(g: Goal, c0: Cluster, c: Cluster, p: Pass, clean: bool, fate: Fate, now: nat)
    requires Inv(g, c0, c, p, clean) && p.pc.AddingFinalizer? && FateFits(g.plan, fate)
    ensures var (d, resp) := Serve(c, p.key, UpdateApp(p.app), fate);
            Inv(g, c0, d, Next(p, resp, now), clean && Smooth(fate))
  {
    var (d, resp) := Serve(c, p.key, UpdateApp(p.app), fate);
    AddingServed(g, c, p.app, fate);
    SameChildren(g, c, d);
  }

  /** Writing child i leaves the other children as they were, right or wrong. */
  lemma ChildWrite(g: Goal, c0: Cluster, c: Cluster, d: Cluster, i: Step)
    requires c.history == d.history
    requires forall k :: k != KeyOf(i, g.key) ==> Stored(c, k) == Stored(d, k)
    ensures forall j: Step :: j != i ==> RightAt(g, c, j) == RightAt(g, d, j)
    ensures RightBelow(g, c, i) ==> RightBelow(g, d, i)
    ensures RightBelow(g, c, i) && RightAt(g, d, i) ==> RightBelow(g, d, i + 1)
    ensures TouchedBelow(g, c0, c, i + 1) ==> TouchedBelow(g, c0, d, i + 1)
    ensures AllRight(g, c) && RightAt(g, d, i) ==> AllRight(g, d)
  {
    forall j: Step | j != i ensures RightAt(g, c, j) == RightAt(g, d, j) {
      KeysDisjoint(i, g.key, j, g.key);
    }
    if TouchedBelow(g, c0, c, i + 1) {
      forall k | forall j: Step :: j < i + 1 ==> KeyOf(j, g.key) != k ensures Stored(d, k) == Stored(c0, k) {
        assert KeyOf(i, g.key) != k;
      }
    }
  }

  /* ---------- the ways on from inside sub-reconciler i ---------- */

  ghost predicate Moved(p: Pass, q: Pass) {
    q.key == p.key && q.plan == p.plan && q.limit == p.limit && q.app == p.app
  }

  predicate InPhase(q: Pass, i: Step, phase: Phase) {
    q.pc.Working? && q.pc.step == i && q.pc.phase == phase
  }

  predicate FailedAt(q: Pass, i: Step) {
    q.pc.ReadingReplicas? && q.pc.failure.Some? && q.pc.failure.value.step == i
  }

  lemma GettingGoes(p: Pass, i: Step, resp: Response)
    requires InPhase(p, i, Getting) && Fits(RequestOf(p), resp)
    ensures var q := NextWorking(p, i, p.pc.attempt, Getting, resp);
            && Moved(p, q)
            && (resp.GotChild? ==> if resp.child == Sent(p, i) then q == StepDone(p, i) else InPhase(q, i, Patching))
            && (resp.Failed? ==>
                  if IsNotFound(resp.error) then InPhase(q, i, Creating) else InPhase(q, i, Waiting) || FailedAt(q, i))
  {
  }

  lemma WritingGoes(p: Pass, i: Step, resp: Response)
    requires (InPhase(p, i, Creating) || InPhase(p, i, Patching)) && Fits(RequestOf(p), resp)
    ensures var q := NextWorking(p, i, p.pc.attempt, p.pc.phase, resp);
            Moved(p, q) && if resp.Ok? then q == StepDone(p, i) else InPhase(q, i, Waiting) || FailedAt(q, i)
  {
  }

  lemma WaitingGoes(p: Pass, i: Step, resp: Response)
    requires InPhase(p, i, Waiting) && Fits(RequestOf(p), resp)
    ensures var q := NextWorking(p, i, p.pc.attempt, Waiting, resp);
            Moved(p, q) && if resp.Ok? then InPhase(q, i, Getting) else FailedAt(q, i)
  {
  }

  lemma DeletingGoes(p: Pass, i: Step, resp: Response)
    requires InPhase(p, i, Deleting) && Fits(RequestOf(p), resp)
    ensures var q := NextWorking(p, i, p.pc.attempt, Deleting, resp);
            Moved(p, q) && if resp.Ok? || IsNotFound(resp.error) then q == StepDone(p, i) else FailedAt(q, i)
  {
  }

  /** What every way on keeps. */
  ghost predicate Frame(g: Goal, c0: Cluster, c: Cluster, p: Pass, i: Step) {
    && p.key == g.key && p.plan == g.plan && Live(g, c0) && Live(g, c)
    && Held(g, c0) && Held(g, c) && (AllRight(g, c0) ==> AllRight(g, c))
    && SameApp(g, p) && RightBelow(g, c, i) && TouchedBelow(g, c0, c, i + 1)
  }

  /** Writing child i, right if at all, keeps the frame. */
  lemma FrameAfterWrite(g: Goal, c0: Cluster, c: Cluster, d: Cluster, p: Pass, i: Step)
    requires Frame(g, c0, c, p, i) && c.history == d.history && (d == c || RightAt(g, d, i))
    requires forall k :: k != KeyOf(i, g.key) ==> Stored(c, k) == Stored(d, k)
    ensures Frame(g, c0, d, p, i)
  {
    ChildWrite(g, c0, c, d, i);
    SameHistory(g, c, d);
  }

  lemma SameHistory(g: Goal, c: Cluster, d: Cluster)
    requires c.history == d.history
    ensures Live(g, c) == Live(g, d) && Held(g, c) == Held(g, d)
  {
  }

  lemma FrameOf(g: Goal, c0: Cluster, c: Cluster, p: Pass, clean: bool)
    requires Inv(g, c0, c, p, clean) && p.pc.Working?
    ensures Frame(g, c0, c, p, p.pc.step) && PhaseFits(g, c, p.pc.step, p.pc.phase, clean)
  {
  }

  /** Staying inside sub-reconciler i, or leaving it with an error. */
  lemma StaysInv(g: Goal, c0: Cluster, c: Cluster, p: Pass, i: Step, q: Pass, clean: bool)
    requires Frame(g, c0, c, p, i) && Moved(p, q)
    requires (q.pc.Working? && q.pc.step == i && PhaseFits(g, c, i, q.pc.phase, clean)) || (FailedAt(q, i) && !clean)
    ensures Inv(g, c0, c, q, clean)
  {
  }

  /** Leaving sub-reconciler i without an error. */
  lemma StepDoneInv(g: Goal, c0: Cluster, c: Cluster, p: Pass, i: Step, clean: bool)
    requires Frame(g, c0, c, p, i) && RightAt(g, c, i)
    ensures Inv(g, c0, c, StepDone(p, i), clean)
  {
    assert RightBelow(g, c, i + 1);
    if i < 6 {
      assert TouchedBelow(g, c0, c, i + 2);
    }
  }

  /** A child that is read as it is, or seen to be missing. */
  lemma GetServed(c: Cluster, k: AppKey, key: Key, fate: Fate)
    requires SoloFate(fate)
    ensures var (d, resp) := Serve(c, k, GetChild(key), fate);
            && d == c
            && (resp.GotChild? ==> if fate.StaleChild? then Server(ResourceVersion) in resp.child
                                   else Stored(c, key) == Some(resp.child))
            && (resp.Failed? && IsNotFound(resp.error) && Smooth(fate) ==> key !in c.children)
            && (resp.Failed? && !IsNotFound(resp.error) ==> !Smooth(fate))
  {
  }

  lemma GettingStep(g: Goal, c0: Cluster, c: Cluster, p: Pass, clean: bool, fate: Fate)
    requires Inv(g, c0, c, p, clean) && p.pc.Working? && p.pc.phase == Getting && FateFits(g.plan, fate)
    ensures var (d, resp) := Serve(c, p.key, RequestOf(p), fate);
            Inv(g, c0, d, NextWorking(p, p.pc.step, p.pc.attempt, Getting, resp), clean && Smooth(fate))
  {
    var i := p.pc.step;
    GetServed(c, p.key, KeyOf(i, p.key), fate);
    var (d, resp) := Serve(c, p.key, RequestOf(p), fate);
    GettingGoes(p, i, resp);
    if resp.GotChild? && resp.child == Sent(p, i) {
      assert Planned(p, i) == g.plan(g.key, i, g.spec, g.uid);
      StepDoneInv(g, c0, c, p, i, clean && Smooth(fate));
    } else {
      StaysInv(g, c0, c, p, i, NextWorking(p, i, p.pc.attempt, Getting, resp), clean && Smooth(fate));
    }
  }

  /** A write of child i, served or not, touches only child i, and makes it right if it takes. */
  lemma ApplyServed(g: Goal, c: Cluster, i: Step, planned: Obj, create: bool, fate: Fate)
    requires g.plan(g.key, i, g.spec, g.uid) == Some(planned)
    ensures var k := KeyOf(i, g.key);
            var (d, resp) := Serve(c, g.key, if create then CreateChild(k, planned) else PatchChild(k, planned), fate);
            && c.history == d.history
            && (forall x :: x != k ==> Stored(c, x) == Stored(d, x))
            && (d == c || RightAt(g, d, i)) && (resp.Ok? ==> RightAt(g, d, i))
            && (resp.Failed? <==> fate.Faulted? || (create && k in c.children))
  {
    assert Covers(Accepted(fate, planned), planned);
  }

  lemma WritingStep(g: Goal, c0: Cluster, c: Cluster, p: Pass, clean: bool, fate: Fate)
    requires Inv(g, c0, c, p, clean) && p.pc.Working? && (p.pc.phase == Creating || p.pc.phase == Patching)
            && FateFits(g.plan, fate)
    ensures var (d, resp) := Serve(c, p.key, RequestOf(p), fate);
            Inv(g, c0, d, NextWorking(p, p.pc.step, p.pc.attempt, p.pc.phase, resp), clean && Smooth(fate))
  {
    var i := p.pc.step;
    ApplyServed(g, c, i, Sent(p, i), p.pc.phase == Creating, fate);
    var (d, resp) := Serve(c, p.key, RequestOf(p), fate);
    FrameOf(g, c0, c, p, clean);
    FrameAfterWrite(g, c0, c, d, p, i);
    WritingGoes(p, i, resp);
    if resp.Ok? {
      StepDoneInv(g, c0, d, p, i, clean && Smooth(fate));
    } else {
      StaysInv(g, c0, d, p, i, NextWorking(p, i, p.pc.attempt, p.pc.phase, resp), clean && Smooth(fate));
    }
  }

  /** A deletion, served or not, touches only that child, and when it takes the child is gone. */
  lemma DeleteServed(g: Goal, c: Cluster, i: Step, fate: Fate)
    requires g.plan(g.key, i, g.spec, g.uid).None? && FateFits(g.plan, fate)
    ensures var k := KeyOf(i, g.key);
            var (d, resp) := Serve(c, g.key, DeleteChild(k), fate);
            && c.history == d.history
            && (forall x :: x != k ==> Stored(c, x) == Stored(d, x))
            && (d == c || RightAt(g, d, i)) && (resp.Ok? || IsNotFound(resp.error) ==> RightAt(g, d, i))
            && (resp.Failed? && !IsNotFound(resp.error) ==> !Smooth(fate))
  {
  }

  lemma DeletingStep(g: Goal, c0: Cluster, c: Cluster, p: Pass, clean: bool, fate: Fate)
    requires Inv(g, c0, c, p, clean) && p.pc.Working? && p.pc.phase == Deleting && FateFits(g.plan, fate)
    ensures var (d, resp) := Serve(c, p.key, RequestOf(p), fate);
            Inv(g, c0, d, NextWorking(p, p.pc.step, p.pc.attempt, Deleting, resp), clean && Smooth(fate))
  {
    var i := p.pc.step;
    DeleteServed(g, c, i, fate);
    var (d, resp) := Serve(c, p.key, RequestOf(p), fate);
    FrameOf(g, c0, c, p, clean);
    FrameAfterWrite(g, c0, c, d, p, i);
    DeletingGoes(p, i, resp);
    if resp.Ok? || IsNotFound(resp.error) {
      StepDoneInv(g, c0, d, p, i, clean && Smooth(fate));
    } else {
      StaysInv(g, c0, d, p, i, NextWorking(p, i, p.pc.attempt, Deleting, resp), clean && Smooth(fate));
    }
  }

  lemma WaitingStep(g: Goal, c0: Cluster, c: Cluster, p: Pass, clean: bool, fate: Fate)
    requires Inv(g, c0, c, p, clean) && p.pc.Working? && p.pc.phase == Waiting && FateFits(g.plan, fate)
    ensures var (d, resp) := Serve(c, p.key, RequestOf(p), fate);
            Inv(g, c0, d, NextWorking(p, p.pc.step, p.pc.attempt, Waiting, resp), clean && Smooth(fate))
  {
    var i := p.pc.step;
    var (d, resp) := Serve(c, p.key, RequestOf(p), fate);
    WaitingGoes(p, i, resp);
    StaysInv(g, c0, c, p, i, NextWorking(p, i, p.pc.attempt, Waiting, resp), clean && Smooth(fate));
  }

  lemma ReadingStep(g: Goal, c0: Cluster, c: Cluster, p: Pass, clean: bool, fate: Fate, now: nat)
    requires Inv(g, c0, c, p, clean) && p.pc.ReadingReplicas? && FateFits(g.plan, fate)
    ensures var (d, resp) := Serve(c, p.key, RequestOf(p), fate);
            Inv(g, c0, d, Next(p, resp, now), clean && Smooth(fate))
  {
  }

  /** Writing the status changes neither the application's spec and finalizers nor its children. */
  lemma StatusWrite(g: Goal, c: Cluster, a: Spoke, fate: Fate)
    requires Live(g, c)
    ensures var d := Serve(c, g.key, UpdateStatus(a), fate).0;
            Live(g, d) && (Held(g, c) <==> Held(g, d)) && c.children == d.children
  {
  }

  lemma StatusStep(g: Goal, c0: Cluster, c: Cluster, p: Pass, clean: bool, fate: Fate, now: nat)
    requires Inv(g, c0, c, p, clean) && p.pc.WritingStatus? && FateFits(g.plan, fate)
    ensures var (d, resp) := Serve(c, p.key, RequestOf(p), fate);
            Inv(g, c0, d, Next(p, resp, now), clean && Smooth(fate))
  {
    var (d, resp) := Serve(c, p.key, RequestOf(p), fate);
    StatusWrite(g, c, p.app, fate);
    StatusEnds(p, resp, now);
    EndsInv(g, c0, c, d, p, Next(p, resp, now), clean, clean && Smooth(fate));
  }

  lemma StatusEnds(p: Pass, resp: Response, now: nat)
    requires p.pc.WritingStatus? && Fits(RequestOf(p), resp)
    ensures var q := Next(p, resp, now);
            && q.pc.Finished? && q.key == p.key && q.plan == p.plan
            && (p.pc.failure.Some? || resp.Failed? ==> Wakes(q.pc.result))
  {
  }

  /** A pass that ends after its status write, whatever became of that. */
  lemma EndsInv(g: Goal, c0: Cluster, c: Cluster, d: Cluster, p: Pass, q: Pass, clean: bool, still: bool)
    requires Inv(g, c0, c, p, clean) && p.pc.WritingStatus? && (still ==> clean)
    requires Live(g, d) && (Held(g, c) <==> Held(g, d)) && c.children == d.children
    requires q.pc.Finished? && q.key == p.key && q.plan == p.plan && (p.pc.failure.Some? ==> Wakes(q.pc.result))
    ensures Inv(g, c0, d, q, still)
  {
    SameChildren(g, c, d);
    var f := p.pc.failure;
    assert f.Some? ==> RightBelow(g, d, f.value.step) && TouchedBelow(g, c0, d, f.value.step + 1);
    assert TouchedBelow(g, c0, d, 7);
  }

  lemma OneCall(g: Goal, c0: Cluster, c: Cluster, p: Pass, clean: bool, fate: Fate, now: nat)
    requires Inv(g, c0, c, p, clean) && !p.pc.Finished? && FateFits(g.plan, fate)
    ensures var (d, resp) := Serve(c, p.key, RequestOf(p), fate);
            Inv(g, c0, d, Next(p, resp, now), clean && Smooth(fate))
  {
    match p.pc
    case Fetching => FetchStep(g, c0, c, p, clean, fate, now);
    case AddingFinalizer => AddingStep(g, c0, c, p, clean, fate, now);
    case Working(_, _, phase) =>
      match phase {
       case Getting => GettingStep(g, c0, c, p, clean, fate);
       case Waiting => WaitingStep(g, c0, c, p, clean, fate);
       case Deleting => DeletingStep(g, c0, c, p, clean, fate);
       case _ => WritingStep(g, c0, c, p, clean, fate);
      }
    case ReadingReplicas(_) => ReadingStep(g, c0, c, p, clean, fate, now);
    case WritingStatus(_) => StatusStep(g, c0, c, p, clean, fate, now);
  }

  /* ---------- one pass ---------- */

  /** The world and the pass after n more calls (fewer if the pass ends before). */
  function AfterCalls(ticks: Ticks, w: World, p: Pass, n: nat): (World, Pass) {
    if n == 0 then (w, p)
    else
      var (v, q) := AfterCalls(ticks, w, p, n - 1);
      if q.pc.Finished? then (v, q) else Step1(ticks, v, q)
  }

  /** The invariant in terms of the calls that failed so far. */
  ghost predicate Holds(ticks: Ticks, g: Goal, w: World, v: World, q: Pass) {
    w.calls <= v.calls && Inv(g, w.cluster, v.cluster, q, Faults(ticks, w.calls, v.calls) == 0)
  }

  lemma StepKeepsInv(ticks: Ticks, g: Goal, c0: Cluster, v: World, q: Pass, clean: bool)
    requires Inv(g, c0, v.cluster, q, clean) && !q.pc.Finished? && FateFits(g.plan, ticks(v.calls).fate)
    ensures Inv(g, c0, Step1(ticks, v, q).0.cluster, Step1(ticks, v, q).1, clean && Smooth(ticks(v.calls).fate))
  {
    OneCall(g, c0, v.cluster, q, clean, ticks(v.calls).fate, ticks(v.calls).now);
  }

  lemma OneMoreCall(ticks: Ticks, a: nat, b: nat)
    requires a <= b
    ensures Faults(ticks, a, b + 1) == 0 <==> Faults(ticks, a, b) == 0 && Smooth(ticks(b).fate)
  {
  }

  lemma OneCallMore(ticks: Ticks, v: World, q: Pass)
    requires !q.pc.Finished?
    ensures Step1(ticks, v, q).0.calls == v.calls + 1
  {
  }

  /** The invariant in terms of one more counted call. */
  lemma CountedHolds(ticks: Ticks, g: Goal, w: World, v: World, v': World, q': Pass, clean: bool)
    requires Inv(g, w.cluster, v'.cluster, q', clean && Smooth(ticks(v.calls).fate))
    requires v'.calls == v.calls + 1 && w.calls <= v.calls && (clean <==> Faults(ticks, w.calls, v.calls) == 0)
    ensures Holds(ticks, g, w, v', q')
  {
    OneMoreCall(ticks, w.calls, v.calls);
  }

  lemma CallHolds(ticks: Ticks, g: Goal, w: World, v: World, q: Pass)
    requires FateFits(g.plan, ticks(v.calls).fate) && Holds(ticks, g, w, v, q) && !q.pc.Finished?
    ensures Holds(ticks, g, w, Step1(ticks, v, q).0, Step1(ticks, v, q).1)
  {
    var v', q' := Step1(ticks, v, q).0, Step1(ticks, v, q).1;
    var clean := Faults(ticks, w.calls, v.calls) == 0;
    StepKeepsInv(ticks, g, w.cluster, v, q, clean);
    OneCallMore(ticks, v, q);
    CountedHolds(ticks, g, w, v, v', q', clean);
  }

  lemma StartHolds(ticks: Ticks, g: Goal, w: World, p: Pass)
    requires Live(g, w.cluster) && p.pc == Fetching && p.key == g.key && p.plan == g.plan
    ensures Holds(ticks, g, w, w, p)
  {
  }

  /** After every call of the pass, failed or served: the children of the sub-reconcilers
      already passed are right, those of the later ones and all other objects untouched. */
  lemma {:induction false} EveryCall(ticks: Ticks, w: World, p: Pass, g: Goal, n: nat)
    requires Solo(ticks, g.plan) && Live(g, w.cluster) && p.pc == Fetching && p.key == g.key && p.plan == g.plan
    ensures Holds(ticks, g, w, AfterCalls(ticks, w, p, n).0, AfterCalls(ticks, w, p, n).1)
  {
    if n == 0 {
      StartHolds(ticks, g, w, p);
    } else {
      EveryCall(ticks, w, p, g, n - 1);
      var (v, q) := AfterCalls(ticks, w, p, n - 1);
      if !q.pc.Finished? {
        CallHolds(ticks, g, w, v, q);
        assert AfterCalls(ticks, w, p, n) == Step1(ticks, v, q);
      }
    }
  }

  /** Running to the end is making enough calls. */
  lemma {:induction false} FinishIsAfter(ticks: Ticks, w: World, p: Pass, n: nat) returns (m: nat)
    ensures m >= n && Finish(ticks, AfterCalls(ticks, w, p, n).0, AfterCalls(ticks, w, p, n).1)
            == AfterCalls(ticks, w, p, m)
    ensures AfterCalls(ticks, w, p, m).1.pc.Finished?
    decreases StageRank(AfterCalls(ticks, w, p, n).1), AttemptRank(AfterCalls(ticks, w, p, n).1),
              PhaseRank(AfterCalls(ticks, w, p, n).1)
  {
    var (v, q) := AfterCalls(ticks, w, p, n);
    if q.pc.Finished? {
      m := n;
    } else {
      var t := ticks(v.calls);
      NextDecreases(q, Serve(v.cluster, q.key, RequestOf(q), t.fate).1, t.now);
      m := FinishIsAfter(ticks, w, p, n + 1);
    }
  }

  /** One pass from any cluster, for an application that is not being deleted:
      it touches only this application's children; it never breaks a child that was right;
      it ends with all seven right, or asks for another pass; and if no call failed, it ends
      with all seven right, or with the finalizer newly added. */
  lemma {:induction false} OnePassConverges(ticks: Ticks, w: World, g: Goal, limit: nat)
    requires Solo(ticks, g.plan) && Live(g, w.cluster)
    ensures var (v, q) := Finish(ticks, w, Begin(g.key, limit, g.plan));
            && q.pc.Finished? && Holds(ticks, g, w, v, q)
            && TouchedBelow(g, w.cluster, v.cluster, 7)
            && (AllRight(g, w.cluster) ==> AllRight(g, v.cluster))
            && (AllRight(g, v.cluster) || Wakes(q.pc.result))
            && (Faults(ticks, w.calls, v.calls) == 0 ==>
                  if Held(g, w.cluster) then AllRight(g, v.cluster) else Held(g, v.cluster))
  {
    var p := Begin(g.key, limit, g.plan);
    var m := FinishIsAfter(ticks, w, p, 0);
    EveryCall(ticks, w, p, g, m);
  }

  /* ---------- many passes ---------- */

  /** n passes in a row, each counted as it starts. */
  function Repeat(ticks: Ticks, w: World, g: Goal, limit: nat, n: nat): World {
    if n == 0 then w
    else
      var v := Repeat(ticks, w, g, limit, n - 1);
      Finish(ticks, v.(metrics := Passes.Started(v.metrics)), Begin(g.key, limit, g.plan)).0
  }

  /** While the children are not all right, every one of n passes has cost a failed call or
      added the finalizer. */
  ghost predicate Paid(ticks: Ticks, g: Goal, w: World, v: World, n: nat) {
    && Live(g, v.cluster) && w.calls <= v.calls
    && (Held(g, w.cluster) ==> Held(g, v.cluster))
    && (AllRight(g, v.cluster) ||
        n <= Faults(ticks, w.calls, v.calls) + (if Held(g, v.cluster) && !Held(g, w.cluster) then 1 else 0))
  }

  /** A pass leaves all children right, or has had a failed call, or has added the finalizer. */
  ghost predicate Advances(ticks: Ticks, g: Goal, v: World, u: World) {
    && Live(g, u.cluster) && v.calls <= u.calls
    && (Held(g, v.cluster) ==> Held(g, u.cluster))
    && (AllRight(g, v.cluster) ==> AllRight(g, u.cluster))
    && (Faults(ticks, v.calls, u.calls) == 0 ==>
          if Held(g, v.cluster) then AllRight(g, u.cluster) else Held(g, u.cluster))
  }

  lemma PassAdvances(ticks: Ticks, w: World, g: Goal, limit: nat, n: nat)
    requires Solo(ticks, g.plan) && Live(g, Repeat(ticks, w, g, limit, n).cluster)
    ensures Advances(ticks, g, Repeat(ticks, w, g, limit, n), Repeat(ticks, w, g, limit, n + 1))
  {
    var v := Repeat(ticks, w, g, limit, n);
    OnePassConverges(ticks, v.(metrics := Passes.Started(v.metrics)), g, limit);
  }

  lemma PaidOnce(ticks: Ticks, g: Goal, w: World, v: World, u: World, n: nat)
    requires Paid(ticks, g, w, v, n) && Advances(ticks, g, v, u)
    ensures Paid(ticks, g, w, u, n + 1)
  {
    FaultsSplit(ticks, w.calls, v.calls, u.calls);
  }

  lemma Progress(ticks: Ticks, w: World, g: Goal, limit: nat, n: nat)
    requires Solo(ticks, g.plan) && Live(g, w.cluster)
    ensures Paid(ticks, g, w, Repeat(ticks, w, g, limit, n), n)
  {
    var v := w;
    for i := 0 to n
      invariant v == Repeat(ticks, w, g, limit, i) && Paid(ticks, g, w, v, i)
    {
      PassAdvances(ticks, w, g, limit, i);
      PaidOnce(ticks, g, w, v, Repeat(ticks, w, g, limit, i + 1), i);
      v := Repeat(ticks, w, g, limit, i + 1);
    }
  }

  /** For a fixed spec and no other writers, with k failing calls in all, every number of
      passes from k + 2 on leaves all seven children right; k + 1 are enough when the
      application already holds the finalizer. */
  lemma {:induction false} BoundedConvergence(ticks: Ticks, w: World, g: Goal, limit: nat, n: nat, k: nat)
    requires Solo(ticks, g.plan) && Live(g, w.cluster)
    requires Faults(ticks, w.calls, Repeat(ticks, w, g, limit, n).calls) <= k
    ensures n >= k + 2 ==> AllRight(g, Repeat(ticks, w, g, limit, n).cluster)
    ensures n >= k + 1 && Held(g, w.cluster) ==> AllRight(g, Repeat(ticks, w, g, limit, n).cluster)
  {
    Progress(ticks, w, g, limit, n);
  }
}
