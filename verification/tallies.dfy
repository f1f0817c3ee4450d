/** Every counter is exact: it shows how often the thing it counts has happened in the run. */
module Tallies {
  import opened Text
  import opened Children
  import opened Errors
  import opened Passes
  import opened Protocol
  import opened Safety
  import opened Conservation
  import Guarantees

  /** What is counted. */
  datatype Happening =
    | Began | Ended
    | ChildDone(step: Step) | ChildFailed(step: Step)
    | StatusStored | StatusRefused | StatusConflicted
    | Succeeded | FailedOver

  /** What happens when pass p gets this response and becomes q. */
  predicate HappensIn(p: Pass, resp: Response, q: Pass, w: Happening) {
    match w
    case Began => false
    case Ended => q.pc.Finished?
    case ChildDone(i) =>
      && p.pc.Working? && p.pc.step == i
      && if i < 6 then q.pc.Working? && q.pc.step == i + 1 else q.pc == ReadingReplicas(None)
    case ChildFailed(i) => p.pc.Working? && p.pc.step == i && q.pc.ReadingReplicas? && q.pc.failure.Some?
    case StatusStored => p.pc.WritingStatus? && !resp.Failed?
    case StatusRefused => p.pc.WritingStatus? && resp.Failed?
    case StatusConflicted => p.pc.WritingStatus? && resp.Failed? && ReasonOf(resp.error) == Conflict
    case Succeeded => p.pc == WritingStatus(None) && !resp.Failed?
    case FailedOver => p.pc.WritingStatus? && p.pc.failure.Some? && !resp.Failed?
  }

  /** What happens when label l is executed in state s. */
  predicate Happens(s: State, l: Label, w: Happening) {
    match l
    case Start(id) => w == Began && id !in s.passes
    case Call(id, fate, now) =>
      Runnable(s, id) &&
      HappensIn(s.passes[id], Serve(s.cluster, s.passes[id].key, RequestOf(s.passes[id]), fate).1,
                Exec(s, l).passes[id], w)
    case _ => false
  }

  /** How often it happens in a run. */
  function Times(s: State, ls: seq<Label>, w: Happening): nat {
    if ls == [] then 0
    else
      var before := Times(s, ls[..|ls| - 1], w);
      if Happens(Run(s, ls[..|ls| - 1]), ls[|ls| - 1], w) then before + 1 else before
  }

  /** The counters as they ought to be. */
  ghost predicate Shows(m: Metrics, times: Happening -> nat) {
    && m.active == times(Began) - times(Ended)
    && |m.subOk| == 7 && (forall i: Step :: m.subOk[i] == times(ChildDone(i)))
    && |m.subErr| == 7 && (forall i: Step :: m.subErr[i] == times(ChildFailed(i)))
    && m.statusOk == times(StatusStored) && m.statusErr == times(StatusRefused)
    && m.statusConflict == times(StatusConflicted)
    && m.reconcileOk == times(Succeeded) && m.reconcileErr == times(FailedOver)
  }

  /** One response of p more. */
  ghost predicate Then(before: Happening -> nat, after: Happening -> nat, p: Pass, resp: Response, q: Pass) {
    forall w :: after(w) == before(w) + (if HappensIn(p, resp, q, w) then 1 else 0)
  }

  lemma WorkShown(m: Metrics, p: Pass, resp: Response, q: Pass, before: Happening -> nat, after: Happening -> nat)
    requires Shows(m, before) && Then(before, after, p, resp, q) && p.pc.Working? && MovesOn(p, p.pc.step, q)
    ensures Shows(SubCounted(m, p.pc.step, q), after)
  {
  }

  lemma StatusShown(m: Metrics, p: Pass, resp: Response, q: Pass, before: Happening -> nat, after: Happening -> nat)
    requires Shows(m, before) && Then(before, after, p, resp, q) && p.pc.WritingStatus? && q.pc.Finished?
    requires p.pc.failure.Some? ==> ErrorCount(p.pc.failure.value.error) == 1
    ensures Shows(Counted(m, p, resp, q), after)
  {
  }

  lemma OtherShown(m: Metrics, p: Pass, resp: Response, q: Pass, before: Happening -> nat, after: Happening -> nat)
    requires Shows(m, before) && Then(before, after, p, resp, q)
    requires !p.pc.Working? && !p.pc.WritingStatus? && !p.pc.Finished?
    ensures Shows(Counted(m, p, resp, q), after)
  {
  }

  /** One response is counted for what it is. */
  lemma ResponseShown(m: Metrics, p: Pass, resp: Response, now: nat, before: Happening -> nat, after: Happening -> nat)
    requires !p.pc.Finished? && Fits(RequestOf(p), resp) && Retrying(p)
    requires Shows(m, before) && Then(before, after, p, resp, Next(p, resp, now))
    ensures Shows(Counted(m, p, resp, Next(p, resp, now)), after)
  {
    var q := Next(p, resp, now);
    if p.pc.Working? {
      WorkMovesOn(p, resp);
      WorkShown(m, p, resp, q, before, after);
    } else if p.pc.WritingStatus? {
      OthersMoveOn(p, resp, now);
      if p.pc.failure.Some? {
        Guarantees.KnownIsAnswered(p.pc.failure.value.error);
      }
      StatusShown(m, p, resp, q, before, after);
    } else {
      OtherShown(m, p, resp, q, before, after);
    }
  }

  lemma CallShown(s: State, id: PassId, fate: Fate, now: nat, before: Happening -> nat, after: Happening -> nat)
    requires Safe(s) && Runnable(s, id) && Shows(s.metrics, before)
    requires forall w :: after(w) == before(w) + (if Happens(s, Call(id, fate, now), w) then 1 else 0)
    ensures Shows(CallStep(s, id, fate, now).metrics, after)
  {
    assert PassFits(s, id);
    var p := s.passes[id];
    var resp := Serve(s.cluster, p.key, RequestOf(p), fate).1;
    assert CallStep(s, id, fate, now) == Exec(s, Call(id, fate, now));
    ResponseShown(s.metrics, p, resp, now, before, after);
  }

  lemma StartShown(m: Metrics, before: Happening -> nat, after: Happening -> nat)
    requires Shows(m, before) && forall w :: after(w) == before(w) + (if w == Began then 1 else 0)
    ensures Shows(Passes.Started(m), after)
  {
  }

  lemma NothingShown(m: Metrics, before: Happening -> nat, after: Happening -> nat)
    requires Shows(m, before) && forall w :: after(w) == before(w)
    ensures Shows(m, after)
  {
  }

  /** A step that is no call counts nothing but the start of a pass. */
  lemma NoCall(s: State, l: Label)
    requires !(l.Call? && Runnable(s, l.id))
    ensures var starts := l.Start? && l.id !in s.passes;
            && Exec(s, l).metrics == (if starts then Passes.Started(s.metrics) else s.metrics)
            && forall w :: Happens(s, l, w) <==> starts && w == Began
  {
  }

  lemma StepShown(s: State, l: Label, before: Happening -> nat, after: Happening -> nat)
    requires Safe(s) && Shows(s.metrics, before)
    requires forall w :: after(w) == before(w) + (if Happens(s, l, w) then 1 else 0)
    ensures Shows(Exec(s, l).metrics, after)
  {
    if l.Call? && Runnable(s, l.id) {
      CallShown(s, l.id, l.fate, l.now, before, after);
    } else {
      NoCall(s, l);
      if l.Start? && l.id !in s.passes {
        StartShown(s.metrics, before, after);
      } else {
        NothingShown(s.metrics, before, after);
      }
    }
  }

  lemma {:induction false} RunShown(s: State, ls: seq<Label>)
    requires Safe(s) && s.metrics == NO_METRICS
    ensures Shows(Run(s, ls).metrics, w => Times(s, ls, w))
  {
    if ls == [] {
    } else {
      var init, l := ls[..|ls| - 1], ls[|ls| - 1];
      RunShown(s, init);
      Guarantees.RunGrows(s, init);
      StepShown(Run(s, init), l, w => Times(s, init, w), w => Times(s, ls, w));
    }
  }

  /** At every moment of every run each counter is the number of times that what it counts has
      happened: passes begun and not ended, sub-reconcilers done and failed, status writes taken
      up, refused, and refused for a conflict, and reconciles with and without a failure. */
  lemma {:induction false} CountersAreExact(limit: nat, plan: Plan, children: map<Key, Obj>, ls: seq<Label>)
    ensures var s := Initial(limit, plan, children);
            Shows(Run(s, ls).metrics, w => Times(s, ls, w))
  {
    InitialSafe(limit, plan, children);
    RunShown(Initial(limit, plan, children), ls);
  }
}
