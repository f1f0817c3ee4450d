/** Exactly which children a pass writes, and why an apply never finds its child unchanged. */
module Writes {
  import opened V1Alpha1
  import opened Text
  import opened Children
  import opened Conversion
  import opened Conditions
  import opened Passes
  import opened Convergence
  import opened Fixpoint
  import opened Protocol
  import Safety
  import Guarantees

  /** The creates, patches and deletes of children that a pass asks for until its end, in order. */
  function ChildWrites(ticks: Ticks, w: World, p: Pass): seq<Request>
    decreases StageRank(p), AttemptRank(p), PhaseRank(p)
  {
    if p.pc.Finished? then []
    else
      var t := ticks(w.calls);
      NextDecreases(p, Serve(w.cluster, p.key, RequestOf(p), t.fate).1, t.now);
      var (w', q) := Step1(ticks, w, p);
      WriteOf(p) + ChildWrites(ticks, w', q)
  }

  function WriteOf(p: Pass): seq<Request>
    requires !p.pc.Finished?
  {
    if Target(RequestOf(p)).Some? then [RequestOf(p)] else []
  }

  /** What child i calls for in cluster c: delete what is not wanted, create what is missing,
      patch what differs in anything, and leave alone only what is equal as a whole object. */
  function Called(g: Goal, c: Cluster, i: Step): Option<Request> {
    var k := KeyOf(i, g.key);
    match g.plan(g.key, i, g.spec, g.uid)
    case None => Some(DeleteChild(k))
    case Some(d) =>
      if Stored(c, k).None? then Some(CreateChild(k, d))
      else if Stored(c, k).value != d then Some(PatchChild(k, d))
      else None
  }

  /** The same for the children from step n on. */
  function CalledFrom(g: Goal, c: Cluster, n: nat): seq<Request>
    decreases 7 - n, g
  {
    if n >= 7 then []
    else (if Called(g, c, n).Some? then [Called(g, c, n).value] else []) + CalledFrom(g, c, n + 1)
  }

  /* ---------- a fault-free pass ---------- */

  /** A fault-free pass that began in cluster c0: the child at hand and those to come are as
      they were, and the phase fits the child at hand. */
  ghost predicate Ahead(g: Goal, c0: Cluster, c: Cluster, p: Pass) {
    && p.key == g.key && p.plan == g.plan
    && match p.pc
       case Fetching => c == c0 && Live(g, c) && Held(g, c)
       case Working(i, _, phase) =>
         && SameApp(g, p) && SameFrom(g, c0, c, i)
         && var k, planned := KeyOf(i, g.key), g.plan(g.key, i, g.spec, g.uid);
            (match phase
             case Getting => planned.Some?
             case Creating => planned.Some? && Stored(c, k).None?
             case Patching => planned.Some? && Stored(c, k).Some? && Stored(c, k).value != planned.value
             case Deleting => planned.None?
             case Waiting => false)
       case RemovingFinalizer => false
       case AddingFinalizer => false
       case _ => true
  }

  ghost predicate SameFrom(g: Goal, c0: Cluster, c: Cluster, n: nat) {
    forall i: Step :: i >= n ==> Stored(c, KeyOf(i, g.key)) == Stored(c0, KeyOf(i, g.key))
  }

  /** The writes still to come. */
  function ToCome(g: Goal, c0: Cluster, p: Pass): seq<Request> {
    match p.pc
    case Fetching => CalledFrom(g, c0, 0)
    case Working(i, _, _) => CalledFrom(g, c0, i)
    case _ => []
  }

  lemma EnterAhead(g: Goal, c0: Cluster, c: Cluster, p: Pass, i: Step)
    requires p.key == g.key && p.plan == g.plan && SameApp(g, p) && SameFrom(g, c0, c, i)
    ensures Ahead(g, c0, c, Enter(p, i)) && ToCome(g, c0, Enter(p, i)) == CalledFrom(g, c0, i)
  {
  }

  lemma DoneAhead(g: Goal, c0: Cluster, c: Cluster, p: Pass, i: Step)
    requires p.key == g.key && p.plan == g.plan && SameApp(g, p) && SameFrom(g, c0, c, i + 1)
    ensures Ahead(g, c0, c, StepDone(p, i)) && ToCome(g, c0, StepDone(p, i)) == CalledFrom(g, c0, i + 1)
  {
    if i < 6 {
      EnterAhead(g, c0, c, p, i + 1);
    }
  }

  /** Writing child i leaves the later ones as they are. */
  lemma WriteKeepsLater(g: Goal, c0: Cluster, c: Cluster, d: Cluster, i: Step)
    requires SameFrom(g, c0, c, i) && forall k :: k != KeyOf(i, g.key) ==> Stored(c, k) == Stored(d, k)
    ensures SameFrom(g, c0, d, i + 1)
  {
    forall j: Step | j >= i + 1 ensures Stored(d, KeyOf(j, g.key)) == Stored(c0, KeyOf(j, g.key)) {
      KeysDisjoint(i, g.key, j, g.key);
    }
  }

  lemma FetchAhead(g: Goal, c0: Cluster, c: Cluster, p: Pass, written: Obj, now: nat)
    requires Ahead(g, c0, c, p) && p.pc.Fetching?
    ensures var (d, resp) := Serve(c, p.key, GetApp, Served(written));
            Ahead(g, c0, d, Next(p, resp, now)) && ToCome(g, c0, Next(p, resp, now)) == CalledFrom(g, c0, 0)
  {
    var a := ToSpoke(Current(c, g.key).value);
    EnterAhead(g, c0, c, p.(app := a.(status := a.status.(conditions := Begun(a.status.conditions, now)))), 0);
  }

  /** Looking at child i: on to the write it calls for, or on to the next child. */
  lemma GetAhead(g: Goal, c0: Cluster, c: Cluster, p: Pass, i: Step, written: Obj)
    requires Ahead(g, c0, c, p) && InPhase(p, i, Getting)
    ensures var (d, resp) := Serve(c, p.key, RequestOf(p), Served(written));
            var q := NextWorking(p, i, p.pc.attempt, Getting, resp);
            Ahead(g, c0, d, q) && ToCome(g, c0, q) == CalledFrom(g, c0, i)
  {
    GetServed(c, p.key, KeyOf(i, p.key), Served(written));
    var (d, resp) := Serve(c, p.key, RequestOf(p), Served(written));
    GettingGoes(p, i, resp);
    if resp.GotChild? && resp.child == Sent(p, i) {
      DoneAhead(g, c0, c, p, i);
      assert Called(g, c0, i).None?;
    }
  }

  lemma WriteAhead(g: Goal, c0: Cluster, c: Cluster, p: Pass, i: Step, written: Obj)
    requires Ahead(g, c0, c, p) && (InPhase(p, i, Creating) || InPhase(p, i, Patching))
    ensures var (d, resp) := Serve(c, p.key, RequestOf(p), Served(written));
            var q := NextWorking(p, i, p.pc.attempt, p.pc.phase, resp);
            Ahead(g, c0, d, q) && CalledFrom(g, c0, i) == [RequestOf(p)] + ToCome(g, c0, q)
  {
    ApplyServed(g, c, i, Sent(p, i), p.pc.phase == Creating, Served(written));
    var (d, resp) := Serve(c, p.key, RequestOf(p), Served(written));
    WritingGoes(p, i, resp);
    WriteKeepsLater(g, c0, c, d, i);
    DoneAhead(g, c0, d, p, i);
    assert Called(g, c0, i) == Some(RequestOf(p));
  }

  lemma DeleteAhead(g: Goal, c0: Cluster, c: Cluster, p: Pass, i: Step, written: Obj)
    requires Ahead(g, c0, c, p) && InPhase(p, i, Deleting)
    ensures var (d, resp) := Serve(c, p.key, RequestOf(p), Served(written));
            var q := NextWorking(p, i, p.pc.attempt, Deleting, resp);
            Ahead(g, c0, d, q) && CalledFrom(g, c0, i) == [RequestOf(p)] + ToCome(g, c0, q)
  {
    DeleteServed(g, c, i, Served(written));
    var (d, resp) := Serve(c, p.key, RequestOf(p), Served(written));
    DeletingGoes(p, i, resp);
    WriteKeepsLater(g, c0, c, d, i);
    DoneAhead(g, c0, d, p, i);
    assert Called(g, c0, i) == Some(RequestOf(p));
  }

  lemma StepAhead(g: Goal, c0: Cluster, c: Cluster, p: Pass, written: Obj, now: nat)
    requires Ahead(g, c0, c, p) && !p.pc.Finished?
    ensures var (d, resp) := Serve(c, p.key, RequestOf(p), Served(written));
            var q := Next(p, resp, now);
            Ahead(g, c0, d, q) && ToCome(g, c0, p) == WriteOf(p) + ToCome(g, c0, q)
  {
    match p.pc
    case Fetching => FetchAhead(g, c0, c, p, written, now);
    case Working(i, _, phase) =>
      match phase {
       case Getting => GetAhead(g, c0, c, p, i, written);
       case Deleting => DeleteAhead(g, c0, c, p, i, written);
       case _ => WriteAhead(g, c0, c, p, i, written);
      }
    case _ =>
  }

  lemma {:induction false} WritesToCome(ticks: Ticks, a: nat, c0: Cluster, v: World, q: Pass, g: Goal)
    requires Solo(ticks, g.plan) && Prompt(ticks) && a <= v.calls && Ahead(g, c0, v.cluster, q)
    requires Faults(ticks, a, Finish(ticks, v, q).0.calls) == 0
    ensures ChildWrites(ticks, v, q) == ToCome(g, c0, q)
    decreases StageRank(q), AttemptRank(q), PhaseRank(q)
  {
    if q.pc.Finished? {
    } else {
      StepCloser(ticks, v, q);
      var v', q' := Step1(ticks, v, q).0, Step1(ticks, v, q).1;
      CallsGrow(ticks, v', q');
      NothingFailed(ticks, a, v.calls, Finish(ticks, v, q).0.calls);
      var t := ticks(v.calls);
      StepAhead(g, c0, v.cluster, q, t.fate.written, t.now);
      WritesToCome(ticks, a, c0, v', q', g);
    }
  }

  /** The writes of a fault-free pass over an adopted application, exactly and in order. */
  lemma {:induction false} CleanPassWrites(ticks: Ticks, w: World, g: Goal, limit: nat)
    requires Solo(ticks, g.plan) && Prompt(ticks) && Live(g, w.cluster) && Held(g, w.cluster)
    requires Faults(ticks, w.calls, Finish(ticks, w, Begin(g.key, limit, g.plan)).0.calls) == 0
    ensures ChildWrites(ticks, w, Begin(g.key, limit, g.plan)) == CalledFrom(g, w.cluster, 0)
  {
    WritesToCome(ticks, w.calls, w.cluster, w, Begin(g.key, limit, g.plan), g);
  }

  lemma {:induction false} CalledFromHolds(g: Goal, c: Cluster, n: nat, r: Request)
    ensures r in CalledFrom(g, c, n) <==> exists i: Step :: i >= n && Called(g, c, i) == Some(r)
    decreases 7 - n
  {
    if n >= 7 {
    } else {
      CalledFromHolds(g, c, n + 1, r);
      if i: Step :| i >= n && Called(g, c, i) == Some(r) {
        assert i == n || i >= n + 1;
      }
    }
  }

  lemma CalledTargets(g: Goal, c: Cluster, i: Step)
    ensures Called(g, c, i).Some? ==> Target(Called(g, c, i).value) == Some(KeyOf(i, g.key))
  {
  }

  /** A write of child i is called for by child i only. */
  lemma OnlyItsOwn(g: Goal, c: Cluster, n: nat, i: Step, r: Request)
    requires Target(r) == Some(KeyOf(i, g.key)) && i >= n
    ensures r in CalledFrom(g, c, n) <==> Called(g, c, i) == Some(r)
  {
    CalledFromHolds(g, c, n, r);
    forall j: Step | Called(g, c, j) == Some(r) ensures j == i {
      CalledTargets(g, c, j);
      KeysDisjoint(i, g.key, j, g.key);
    }
  }

  lemma CalledExactly(g: Goal, c: Cluster, n: nat, i: Step, d: Obj)
    requires i >= n
    ensures var k, planned, ws := KeyOf(i, g.key), g.plan(g.key, i, g.spec, g.uid), CalledFrom(g, c, n);
            && (PatchChild(k, d) in ws <==> planned == Some(d) && Stored(c, k).Some? && Stored(c, k).value != d)
            && (CreateChild(k, d) in ws <==> planned == Some(d) && Stored(c, k).None?)
            && (DeleteChild(k) in ws <==> planned.None?)
  {
    var k := KeyOf(i, g.key);
    OnlyItsOwn(g, c, n, i, PatchChild(k, d));
    OnlyItsOwn(g, c, n, i, CreateChild(k, d));
    OnlyItsOwn(g, c, n, i, DeleteChild(k));
  }

  /** A fault-free pass patches child i if and only if it is wanted, stored, and differs from
      what is wanted as a whole object; creates it if and only if it is wanted and missing;
      deletes it if and only if it is not wanted. */
  lemma {:induction false} PatchedExactly(ticks: Ticks, w: World, g: Goal, limit: nat, i: Step, d: Obj)
    requires Solo(ticks, g.plan) && Prompt(ticks) && Live(g, w.cluster) && Held(g, w.cluster)
    requires Faults(ticks, w.calls, Finish(ticks, w, Begin(g.key, limit, g.plan)).0.calls) == 0
    ensures var k, planned := KeyOf(i, g.key), g.plan(g.key, i, g.spec, g.uid);
            var ws := ChildWrites(ticks, w, Begin(g.key, limit, g.plan));
            && (PatchChild(k, d) in ws <==>
                planned == Some(d) && Stored(w.cluster, k).Some? && Stored(w.cluster, k).value != d)
            && (CreateChild(k, d) in ws <==> planned == Some(d) && Stored(w.cluster, k).None?)
            && (DeleteChild(k) in ws <==> planned.None?)
  {
    CleanPassWrites(ticks, w, g, limit);
    CalledExactly(g, w.cluster, 0, i, d);
  }

  /** A fault-free pass writes nothing if and only if every child is wanted and stored with
      nothing in it but what is wanted. */
  lemma {:induction false} NothingToWrite(ticks: Ticks, w: World, g: Goal, limit: nat)
    requires Solo(ticks, g.plan) && Prompt(ticks) && Live(g, w.cluster) && Held(g, w.cluster)
    requires Faults(ticks, w.calls, Finish(ticks, w, Begin(g.key, limit, g.plan)).0.calls) == 0
    ensures ChildWrites(ticks, w, Begin(g.key, limit, g.plan)) == [] <==>
            forall i: Step :: Unchanged(g, w.cluster, i)
  {
    CleanPassWrites(ticks, w, g, limit);
    CalledNone(g, w.cluster, 0);
  }

  /** Child i is wanted, and stored with nothing in it but what is wanted. */
  predicate Unchanged(g: Goal, c: Cluster, i: Step) {
    var planned := g.plan(g.key, i, g.spec, g.uid);
    planned.Some? && Stored(c, KeyOf(i, g.key)) == planned
  }

  lemma CalledUnlessUnchanged(g: Goal, c: Cluster, i: Step)
    ensures Called(g, c, i).None? <==> Unchanged(g, c, i)
  {
  }

  lemma CalledSkips(g: Goal, c: Cluster, n: Step)
    requires Called(g, c, n).None?
    ensures CalledFrom(g, c, n) == CalledFrom(g, c, n + 1)
  {
  }

  lemma {:induction false} CalledNone(g: Goal, c: Cluster, n: nat)
    ensures CalledFrom(g, c, n) == [] <==> forall i: Step :: i >= n ==> Unchanged(g, c, i)
    decreases 7 - n, g
  {
    if n >= 7 {
    } else {
      CalledNone(g, c, n + 1);
      CalledUnlessUnchanged(g, c, n);
      if Called(g, c, n).Some? {
        CalledFirst(g, c, n);
        assert !Unchanged(g, c, n);
      } else {
        CalledSkips(g, c, n);
      }
    }
  }

  /* ---------- no child is ever found unchanged ---------- */

  /** Every stored child carries a resourceVersion. */
  ghost predicate Versioned(c: Cluster) {
    forall k :: k in c.children ==> Server(ResourceVersion) in c.children[k]
  }

  lemma ServeVersions(c: Cluster, k: AppKey, req: Request, fate: Fate)
    requires Versioned(c)
    ensures var (d, resp) := Serve(c, k, req, fate);
            Versioned(d) && (resp.GotChild? ==> Server(ResourceVersion) in resp.child)
  {
  }

  lemma {:induction false} FinishVersions(ticks: Ticks, w: World, p: Pass)
    requires Versioned(w.cluster)
    ensures Versioned(Finish(ticks, w, p).0.cluster)
    decreases StageRank(p), AttemptRank(p), PhaseRank(p)
  {
    if p.pc.Finished? {
    } else {
      StepCloser(ticks, w, p);
      ServeVersions(w.cluster, p.key, RequestOf(p), ticks(w.calls).fate);
      FinishVersions(ticks, Step1(ticks, w, p).0, Step1(ticks, w, p).1);
    }
  }

  lemma ExecVersions(s: State, l: Label)
    requires Versioned(s.cluster)
    ensures Versioned(Exec(s, l).cluster)
  {
    if l.Call? && Runnable(s, l.id) {
      ServeVersions(s.cluster, s.passes[l.id].key, RequestOf(s.passes[l.id]), l.fate);
    }
  }

  /** In every reachable state every stored child carries a resourceVersion, once those the
      run began with do. */
  lemma {:induction false} StoredChildrenAreVersioned(limit: nat, plan: Plan, children: map<Key, Obj>, ls: seq<Label>)
    requires Versioned(Cluster(map[], children))
    ensures Versioned(Run(Initial(limit, plan, children), ls).cluster)
  {
    if ls == [] {
    } else {
      StoredChildrenAreVersioned(limit, plan, children, ls[..|ls| - 1]);
      ExecVersions(Run(Initial(limit, plan, children), ls[..|ls| - 1]), ls[|ls| - 1]);
    }
  }

  /** A pass whose plan sends no resourceVersion patches every child that it finds. */
  lemma FindingPatches(s: State, id: PassId, fate: Fate, now: nat)
    requires Runnable(s, id) && Versioned(s.cluster) && SendsNoVersion(s.passes[id].plan)
    requires s.passes[id].pc.Working? && s.passes[id].pc.phase == Getting
    ensures var p := s.passes[id];
            Serve(s.cluster, p.key, RequestOf(p), fate).1.GotChild? ==>
              InPhase(CallStep(s, id, fate, now).passes[id], p.pc.step, Patching)
  {
    var p := s.passes[id];
    ServeVersions(s.cluster, p.key, RequestOf(p), fate);
    GettingGoes(p, p.pc.step, Serve(s.cluster, p.key, RequestOf(p), fate).1);
  }

  lemma {:induction false} RunPatchesWhatItFinds(
      limit: nat, plan: Plan, children: map<Key, Obj>, ls: seq<Label>, id: PassId, fate: Fate, now: nat)
    requires Versioned(Cluster(map[], children)) && SendsNoVersion(plan)
    ensures var s := Run(Initial(limit, plan, children), ls);
            Runnable(s, id) && s.passes[id].pc.Working? && s.passes[id].pc.phase == Getting ==>
              var p := s.passes[id];
              var resp := Serve(s.cluster, p.key, RequestOf(p), fate).1;
              resp.GotChild? ==> InPhase(Exec(s, Call(id, fate, now)).passes[id], p.pc.step, Patching)
  {
    StoredChildrenAreVersioned(limit, plan, children, ls);
    RunFits(limit, plan, children, ls, id);
    var s := Run(Initial(limit, plan, children), ls);
    if Runnable(s, id) && s.passes[id].pc.Working? && s.passes[id].pc.phase == Getting {
      FindingPatches(s, id, fate, now);
    }
  }

  /** In every run, whatever faults and stale reads: an apply of the operator that finds its
      child goes on to patch it. The branch for an unchanged child is never taken. */
  lemma {:induction false} FoundIsPatched(
      limit: nat, children: map<Key, Obj>, ls: seq<Label>, id: PassId, fate: Fate, now: nat)
    requires Versioned(Cluster(map[], children))
    ensures var s := Run(Initial(limit, OperatorPlan(), children), ls);
            Runnable(s, id) && s.passes[id].pc.Working? && s.passes[id].pc.phase == Getting ==>
              var p := s.passes[id];
              var resp := Serve(s.cluster, p.key, RequestOf(p), fate).1;
              resp.GotChild? ==> InPhase(Exec(s, Call(id, fate, now)).passes[id], p.pc.step, Patching)
  {
    OperatorSendsNoVersion();
    RunPatchesWhatItFinds(limit, OperatorPlan(), children, ls, id, fate, now);
  }

  lemma RunFits(limit: nat, plan: Plan, children: map<Key, Obj>, ls: seq<Label>, id: PassId)
    ensures var s := Run(Initial(limit, plan, children), ls);
            id in s.passes ==> s.passes[id].plan == plan
  {
    Safety.RunSafe(limit, plan, children, ls);
    Guarantees.RunKeepsPlan(Initial(limit, plan, children), ls);
    assert Safety.PassFits(Run(Initial(limit, plan, children), ls), id);
  }

  function OperatorCall(i: Step, k: AppKey, spec: Spec, uid: nat, stored: bool): Request {
    var key, m := KeyOf(i, k), Manifest(i, AppOf(k, spec), uid);
    if !Wanted(i, spec) then DeleteChild(key) else if stored then PatchChild(key, m) else CreateChild(key, m)
  }

  lemma VersionedIsCalled(c: Cluster, k: AppKey, spec: Spec, uid: nat, i: Step)
    requires Versioned(c)
    ensures Called(Goal(k, OperatorPlan(), spec, uid), c, i)
            == Some(OperatorCall(i, k, spec, uid, Stored(c, KeyOf(i, k)).Some?))
  {
    ManifestFields(i, AppOf(k, spec), uid);
  }

  lemma CalledFirst(g: Goal, c: Cluster, n: Step)
    requires Called(g, c, n).Some?
    ensures CalledFrom(g, c, n) == [Called(g, c, n).value] + CalledFrom(g, c, n + 1)
  {
  }

  /** Where every child calls for something, the calls are one for each, in order. */
  lemma {:induction false} AllCalled(g: Goal, c: Cluster, n: nat, i: Step)
    requires n <= i && forall j: Step :: Called(g, c, j).Some?
    ensures |CalledFrom(g, c, n)| == 7 - n && CalledFrom(g, c, n)[i - n] == Called(g, c, i).value
    decreases 7 - n, g
  {
    CalledFirst(g, c, n);
    if n == 6 {
    } else if i == n {
      AllCalled(g, c, n + 1, n + 1);
    } else {
      AllCalled(g, c, n + 1, i);
    }
  }

  lemma VersionedCalls(c: Cluster, k: AppKey, spec: Spec, uid: nat, n: nat, i: Step)
    requires Versioned(c) && n <= i
    ensures var rs := CalledFrom(Goal(k, OperatorPlan(), spec, uid), c, n);
            |rs| == 7 - n && rs[i - n] == OperatorCall(i, k, spec, uid, Stored(c, KeyOf(i, k)).Some?)
  {
    var g := Goal(k, OperatorPlan(), spec, uid);
    forall j: Step ensures Called(g, c, j).Some? {
      VersionedIsCalled(c, k, spec, uid, j);
    }
    AllCalled(g, c, n, i);
    VersionedIsCalled(c, k, spec, uid, i);
  }

  /** Every fault-free pass of the operator makes exactly seven writes, from any cluster, one
      for each child i: it patches every wanted child there is, equal or not, creates the
      missing ones and deletes the others. */
  lemma {:induction false} EveryCleanPassWritesSeven(
      ticks: Ticks, w: World, k: AppKey, spec: Spec, uid: nat, limit: nat, i: Step)
    requires Solo(ticks, OperatorPlan()) && Prompt(ticks)
    requires var g := Goal(k, OperatorPlan(), spec, uid); Live(g, w.cluster) && Held(g, w.cluster)
    requires Faults(ticks, w.calls, Finish(ticks, w, Begin(k, limit, OperatorPlan())).0.calls) == 0
    requires Versioned(w.cluster)
    ensures var ws := ChildWrites(ticks, w, Begin(k, limit, OperatorPlan()));
            |ws| == 7 && ws[i] == OperatorCall(i, k, spec, uid, Stored(w.cluster, KeyOf(i, k)).Some?)
  {
    CleanPassWrites(ticks, w, Goal(k, OperatorPlan(), spec, uid), limit);
    VersionedCalls(w.cluster, k, spec, uid, 0, i);
  }

  /** The second of two fault-free passes patches every wanted child once more, although the
      first has left all of them as wanted. */
  lemma {:induction false} SecondPassPatchesAll(ticks: Ticks, w: World, k: AppKey, spec: Spec, uid: nat, limit: nat,
          i: Step)
    requires Solo(ticks, OperatorPlan()) && Prompt(ticks)
    requires var g := Goal(k, OperatorPlan(), spec, uid); Live(g, w.cluster) && Held(g, w.cluster)
    requires Versioned(w.cluster)
    requires var v := Finish(ticks, w, Begin(k, limit, OperatorPlan())).0;
             && Faults(ticks, w.calls, v.calls) == 0
             && Faults(ticks, v.calls, Finish(ticks, v, Begin(k, limit, OperatorPlan())).0.calls) == 0
    ensures var v := Finish(ticks, w, Begin(k, limit, OperatorPlan())).0;
            var ws := ChildWrites(ticks, v, Begin(k, limit, OperatorPlan()));
            && RightAt(Goal(k, OperatorPlan(), spec, uid), v.cluster, i)
            && |ws| == 7
            && ws[i] == if Wanted(i, spec) then PatchChild(KeyOf(i, k), Manifest(i, AppOf(k, spec), uid))
                        else DeleteChild(KeyOf(i, k))
  {
    var g := Goal(k, OperatorPlan(), spec, uid);
    var v := Finish(ticks, w, Begin(k, limit, OperatorPlan())).0;
    OnePassConverges(ticks, w, g, limit);
    FinishVersions(ticks, w, Begin(k, limit, OperatorPlan()));
    assert RightAt(g, v.cluster, i);
    EveryCleanPassWritesSeven(ticks, v, k, spec, uid, limit, i);
  }
}
