/** The counters over whole runs: every sub-reconciliation, status write and reconcile is
    counted exactly once, wherever the passes in flight are. */
module Conservation {
  import opened Text
  import opened Children
  import opened Passes
  import opened Protocol
  import opened Safety

  /** Where a pass can be, as far as the counters are concerned. */
  datatype Place = AtStep(step: Step) | Reporting(failed: bool) | InFlight

  predicate IsAt(p: Pass, place: Place) {
    match place
    case AtStep(i) => p.pc.Working? && p.pc.step == i
    case Reporting(failed) => (p.pc.ReadingReplicas? || p.pc.WritingStatus?) && p.pc.failure.Some? == failed
    case InFlight => !p.pc.Finished?
  }

  function PassesAt(passes: map<PassId, Pass>, place: Place): set<PassId> {
    set id | id in passes && IsAt(passes[id], place)
  }

  function Count(passes: map<PassId, Pass>, place: Place): nat {
    |PassesAt(passes, place)|
  }

  function One(b: bool): nat {
    if b then 1 else 0
  }

  lemma CardUpdate<T>(before: set<T>, after: set<T>, t: T)
    requires before - {t} == after - {t}
    ensures |after| + One(t in before) == |before| + One(t in after)
  {
    assert before == if t in before then (before - {t}) + {t} else before - {t};
    assert after == if t in after then (after - {t}) + {t} else after - {t};
  }

  lemma CountUpdate(passes: map<PassId, Pass>, id: PassId, q: Pass, place: Place)
    ensures Count(passes[id := q], place) + One(id in passes && IsAt(passes[id], place))
            == Count(passes, place) + One(IsAt(q, place))
  {
    var before, after := PassesAt(passes, place), PassesAt(passes[id := q], place);
    forall x ensures x in before - {id} <==> x in after - {id} {
      assert x != id ==> (x in passes[id := q] <==> x in passes);
    }
    CardUpdate(before, after, id);
  }

  lemma NobodyThere(passes: map<PassId, Pass>, place: Place)
    requires forall id :: id in passes ==> passes[id].pc.Finished?
    ensures Count(passes, place) == 0
  {
    assert PassesAt(passes, place) == {};
  }

  /** Of the successes of sub-reconciler i, each went on to succeed or fail at the next one,
      or is still there. */
  predicate Passed(m: Metrics, passes: map<PassId, Pass>, i: Step)
    requires |m.subOk| == 7 && |m.subErr| == 7 && i < 6
  {
    m.subOk[i] == m.subOk[i + 1] + m.subErr[i + 1] + Count(passes, AtStep(i + 1))
  }

  /** The conservation laws of the counters m over the given passes. */
  ghost predicate Balanced(m: Metrics, passes: map<PassId, Pass>) {
    && |m.subOk| == 7 && |m.subErr| == 7
    && (forall i: Step :: i < 6 ==> Passed(m, passes, i))
    && m.subOk[6] + Sum7(m.subErr)
       == m.statusOk + m.statusErr + Count(passes, Reporting(false)) + Count(passes, Reporting(true))
    && m.reconcileOk + Count(passes, Reporting(false)) <= m.subOk[6]
    && m.reconcileErr + Count(passes, Reporting(true)) <= Sum7(m.subErr)
    && m.statusOk == m.reconcileOk + m.reconcileErr
    && m.statusConflict <= m.statusErr
    && m.active == Count(passes, InFlight)
  }

  function Sum7(s: seq<nat>): nat
    requires |s| == 7
  {
    s[0] + s[1] + s[2] + s[3] + s[4] + s[5] + s[6]
  }

  /** The ways on from inside sub-reconciler i. */
  predicate MovesOn(p: Pass, i: Step, q: Pass) {
    || (q.pc.Working? && q.pc.step == i)
    || (q.pc.ReadingReplicas? && q.pc.failure.Some?)
    || (i < 6 && q.pc.Working? && q.pc.step == i + 1)
    || (i == 6 && q.pc == ReadingReplicas(None))
  }

  lemma WorkMovesOn(p: Pass, resp: Response)
    requires p.pc.Working? && Fits(RequestOf(p), resp)
    ensures MovesOn(p, p.pc.step, NextWorking(p, p.pc.step, p.pc.attempt, p.pc.phase, resp))
  {
  }

  /** Where a pass outside the sub-reconcilers goes. */
  lemma OthersMoveOn(p: Pass, resp: Response, now: nat)
    requires !p.pc.Finished? && !p.pc.Working? && Fits(RequestOf(p), resp)
    ensures var q := Next(p, resp, now);
            && (p.pc.Fetching? ==>
                  q.pc.Finished? || q.pc.RemovingFinalizer? || q.pc.AddingFinalizer? || IsAt(q, AtStep(0)))
            && (p.pc.RemovingFinalizer? || p.pc.AddingFinalizer? || p.pc.WritingStatus? ==> q.pc.Finished?)
            && (p.pc.ReadingReplicas? ==> q.pc == WritingStatus(p.pc.failure))
  {
  }

  lemma StepCounted(m: Metrics, passes: map<PassId, Pass>, id: PassId, i: Step, q: Pass)
    requires Balanced(m, passes) && id in passes && IsAt(passes[id], AtStep(i)) && MovesOn(passes[id], i, q)
    ensures Balanced(SubCounted(m, i, q), passes[id := q])
  {
    var n := SubCounted(m, i, q);
    var after := passes[id := q];
    forall j: Step | j < 6 ensures Passed(n, after, j) {
      assert Passed(m, passes, j);
      CountUpdate(passes, id, q, AtStep(j + 1));
    }
    CountUpdate(passes, id, q, Reporting(false));
    CountUpdate(passes, id, q, Reporting(true));
    CountUpdate(passes, id, q, InFlight);
  }

  /** The counters when the status write of p is answered. */
  lemma StatusCounted(m: Metrics, passes: map<PassId, Pass>, id: PassId, p: Pass, resp: Response, q: Pass)
    requires Balanced(m, passes) && id in passes && passes[id] == p && p.pc.WritingStatus? && q.pc.Finished?
    requires FailureKnown(p, p.pc.failure)
    ensures Balanced(Counted(m, p, resp, q), passes[id := q])
  {
    var n := Counted(m, p, resp, q);
    assert n.subOk == m.subOk && n.subErr == m.subErr;
    var after := passes[id := q];
    forall j: Step | j < 6 ensures Passed(n, after, j) {
      assert Passed(m, passes, j);
      CountUpdate(passes, id, q, AtStep(j + 1));
    }
    CountUpdate(passes, id, q, Reporting(false));
    CountUpdate(passes, id, q, Reporting(true));
    CountUpdate(passes, id, q, InFlight);
  }

  /** A move that no counter but the active one sees. */
  lemma QuietMove(m: Metrics, passes: map<PassId, Pass>, id: PassId, q: Pass, active: int)
    requires Balanced(m, passes)
    requires forall i: Step :: i > 0 ==> IsAt(q, AtStep(i)) == (id in passes && IsAt(passes[id], AtStep(i)))
    requires forall failed :: IsAt(q, Reporting(failed)) == (id in passes && IsAt(passes[id], Reporting(failed)))
    requires active + One(id in passes && IsAt(passes[id], InFlight)) == m.active + One(IsAt(q, InFlight))
    ensures Balanced(m.(active := active), passes[id := q])
  {
    var n, after := m.(active := active), passes[id := q];
    forall j: Step | j < 6 ensures Passed(n, after, j) {
      assert Passed(m, passes, j);
      CountUpdate(passes, id, q, AtStep(j + 1));
    }
    CountUpdate(passes, id, q, Reporting(false));
    CountUpdate(passes, id, q, Reporting(true));
    CountUpdate(passes, id, q, InFlight);
  }

  lemma AnswerCounted(m: Metrics, passes: map<PassId, Pass>, id: PassId, p: Pass, resp: Response, now: nat)
    requires Balanced(m, passes) && id in passes && passes[id] == p && !p.pc.Finished? && Fits(RequestOf(p), resp)
    requires p.pc.WritingStatus? ==> FailureKnown(p, p.pc.failure)
    ensures var q := Next(p, resp, now); Balanced(Counted(m, p, resp, q), passes[id := q])
  {
    var q := Next(p, resp, now);
    if p.pc.Working? {
      WorkMovesOn(p, resp);
      StepCounted(m, passes, id, p.pc.step, q);
      assert Counted(m, p, resp, q) == SubCounted(m, p.pc.step, q);
    } else {
      OthersMoveOn(p, resp, now);
      if p.pc.WritingStatus? {
        StatusCounted(m, passes, id, p, resp, q);
      } else {
        var active := if q.pc.Finished? then m.active - 1 else m.active;
        QuietMove(m, passes, id, q, active);
        assert Counted(m, p, resp, q) == m.(active := active);
      }
    }
  }

  lemma CallBalanced(s: State, id: PassId, fate: Fate, now: nat)
    requires Safe(s) && Balanced(s.metrics, s.passes) && Runnable(s, id)
    ensures Balanced(CallStep(s, id, fate, now).metrics, CallStep(s, id, fate, now).passes)
  {
    var p := s.passes[id];
    assert PassFits(s, id);
    AnswerCounted(s.metrics, s.passes, id, p, Serve(s.cluster, p.key, RequestOf(p), fate).1, now);
  }

  lemma StartBalanced(m: Metrics, passes: map<PassId, Pass>, id: PassId, limit: nat, plan: Plan)
    requires Balanced(m, passes) && id !in passes
    ensures Balanced(Passes.Started(m), passes[id := Begin(id.key, limit, plan)])
  {
    QuietMove(m, passes, id, Begin(id.key, limit, plan), m.active + 1);
  }

  lemma ExecBalanced(s: State, l: Label)
    requires Safe(s) && Balanced(s.metrics, s.passes)
    ensures Balanced(Exec(s, l).metrics, Exec(s, l).passes)
  {
    match l
    case Start(id) =>
      if id !in s.passes {
        StartBalanced(s.metrics, s.passes, id, s.limit, s.plan);
      }
    case Call(id, fate, now) =>
      if Runnable(s, id) {
        CallBalanced(s, id, fate, now);
      }
    case _ =>
  }

  lemma NothingYet()
    ensures Balanced(NO_METRICS, map[])
  {
    var none: map<PassId, Pass> := map[];
    NobodyThere(none, Reporting(false));
    NobodyThere(none, Reporting(true));
    NobodyThere(none, InFlight);
    forall i: Step | i < 6 ensures Passed(NO_METRICS, none, i) {
      NobodyThere(none, AtStep(i + 1));
    }
  }

  ghost predicate Accounted(s: State) {
    Safe(s) && Balanced(s.metrics, s.passes)
  }

  lemma StartAccounted(limit: nat, plan: Plan, children: map<Key, Obj>)
    ensures Accounted(Initial(limit, plan, children))
  {
    NothingYet();
    InitialSafe(limit, plan, children);
  }

  lemma ExecAccounted(s: State, l: Label)
    requires Accounted(s)
    ensures Accounted(Exec(s, l))
  {
    ExecSafe(s, l);
    ExecBalanced(s, l);
  }

  lemma {:induction false} RunAccounted(s: State, ls: seq<Label>)
    requires Accounted(s)
    ensures Accounted(Run(s, ls))
  {
    if ls == [] {
    } else {
      RunAccounted(s, ls[..|ls| - 1]);
      ExecAccounted(Run(s, ls[..|ls| - 1]), ls[|ls| - 1]);
    }
  }

  /** The laws hold at every moment of every run. */
  lemma {:induction false} RunBalanced(limit: nat, plan: Plan, children: map<Key, Obj>, ls: seq<Label>)
    ensures Accounted(Run(Initial(limit, plan, children), ls))
  {
    StartAccounted(limit, plan, children);
    RunAccounted(Initial(limit, plan, children), ls);
  }

  /** No pass is under way. */
  predicate Quiet(s: State) {
    forall id :: id in s.passes ==> s.passes[id].pc.Finished?
  }

  /** The next sub-reconciler ended as often as sub-reconciler i succeeded. */
  predicate NoneLost(m: Metrics, i: Step)
    requires |m.subOk| == 7 && |m.subErr| == 7 && i < 6
  {
    m.subOk[i + 1] + m.subErr[i + 1] == m.subOk[i]
  }

  /** What the laws say of a quiet system. */
  ghost predicate Conserved(m: Metrics) {
    && |m.subOk| == 7 && |m.subErr| == 7
    && m.active == 0
    && (forall i: Step :: i < 6 ==> NoneLost(m, i))
    && m.statusOk + m.statusErr == m.subOk[6] + Sum7(m.subErr)
    && m.reconcileOk + m.reconcileErr == m.statusOk
    && m.reconcileOk <= m.subOk[6] && m.reconcileErr <= Sum7(m.subErr)
    && (m.statusErr == 0 ==> m.reconcileOk == m.subOk[6] && m.reconcileErr == Sum7(m.subErr))
    && m.statusConflict <= m.statusErr
  }

  lemma QuietIsConserved(m: Metrics, passes: map<PassId, Pass>)
    requires Balanced(m, passes) && forall id :: id in passes ==> passes[id].pc.Finished?
    ensures Conserved(m)
  {
    forall i: Step | i < 6 ensures NoneLost(m, i) {
      assert Passed(m, passes, i);
    }
    forall place ensures Count(passes, place) == 0 {
      NobodyThere(passes, place);
    }
  }

  /** Whenever no pass is under way: nothing is active; each sub-reconciler after the first
      ended as often as the one before it succeeded; every end of the sub-reconcilers led to
      one status write; every successful status write to one reconcile result; no more
      reconciles succeeded than went through all seven sub-reconcilers, and no more failed than
      failed in one, just as many when every status write was taken up; and there were no more
      status conflicts than status errors. */
  lemma {:induction false} QuiescentConservation(limit: nat, plan: Plan, children: map<Key, Obj>, ls: seq<Label>)
    requires Quiet(Run(Initial(limit, plan, children), ls))
    ensures Conserved(Run(Initial(limit, plan, children), ls).metrics)
  {
    RunBalanced(limit, plan, children, ls);
    var s := Run(Initial(limit, plan, children), ls);
    QuietIsConserved(s.metrics, s.passes);
  }
}
