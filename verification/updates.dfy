/** Updates of the application under optimistic concurrency: which are taken, and what they
    leave; and the words in which a failed call is reported. */
module Updates {
  import opened Meta
  import opened Text
  import opened Children
  import opened Errors
  import opened Conversion
  import opened Passes
  import opened Protocol
  import opened Safety
  import opened Guarantees
  import Outcomes

  /* ---------- which updates are taken ---------- */

  predicate Updating(p: Pass) {
    p.pc.RemovingFinalizer? || p.pc.AddingFinalizer? || p.pc.WritingStatus?
  }

  /** What pass p leaves of version x by an update that is taken. */
  ghost predicate Leaves(p: Pass, x: Hub, after: Option<Hub>) {
    match p.pc
    case RemovingFinalizer =>
      if forall f :: f in x.meta.finalizers ==> f == "platform.example.io/cleanup" then after == None
      else
        && after.Some?
        && forall f :: f in after.value.meta.finalizers <==>
                       f in x.meta.finalizers && f != "platform.example.io/cleanup"
    case AddingFinalizer =>
      after.Some? && after.value.meta.finalizers == x.meta.finalizers + ["platform.example.io/cleanup"]
    case _ => Outcomes.Holds(after, p)
  }

  /** An update that reaches the server is refused as missing where the application is gone, as a
      conflict where anybody has written since the pass read it, and otherwise taken. */
  ghost predicate Judged(c: Cluster, k: AppKey, p: Pass, d: Cluster, resp: Response) {
    var h := History(c, k);
    if Current(c, k).None? then d == c && resp == Failed(Api(NotFound))
    else if p.app.meta.resourceVersion != |h| - 1 then d == c && resp == Failed(Api(Conflict))
    else resp.Ok? && Leaves(p, Current(c, k).value, Current(d, k))
  }

  lemma {:induction false} OthersAre(fs: seq<string>)
    ensures forall f :: f in Others(fs) <==> f in fs && f != FINALIZER
  {
    if fs == [] {
    } else {
      OthersAre(fs[..|fs| - 1]);
      assert fs == fs[..|fs| - 1] + [fs[|fs| - 1]];
    }
  }

  lemma NoOthers(fs: seq<string>)
    ensures Others(fs) == [] <==> forall f :: f in fs ==> f == FINALIZER
  {
    OthersAre(fs);
    if Others(fs) != [] {
      assert Others(fs)[0] in Others(fs);
    }
  }

  lemma RemovalLeaves(c: Cluster, k: AppKey, p: Pass, x: Hub, written: Obj)
    requires p.pc.RemovingFinalizer? && Current(c, k) == Some(x) && x.meta.deleting && HasFinalizer(x.meta)
    requires p.app == WithoutFinalizer(ToSpoke(x))
    ensures var (d, resp) := Serve(c, k, UpdateApp(p.app), Served(written));
            resp.Ok? && Leaves(p, x, Current(d, k))
  {
    OthersAre(x.meta.finalizers);
    NoOthers(x.meta.finalizers);
    var y := SpokeRewritten(x, p.app.spec, p.app.meta.finalizers, |History(c, k)|);
    assert y.meta.finalizers == Others(x.meta.finalizers) != x.meta.finalizers;
  }

  lemma AdoptionLeaves(c: Cluster, k: AppKey, p: Pass, x: Hub, written: Obj)
    requires p.pc.AddingFinalizer? && Current(c, k) == Some(x) && !x.meta.deleting
    requires p.app == WithFinalizer(ToSpoke(x))
    ensures var (d, resp) := Serve(c, k, UpdateApp(p.app), Served(written));
            resp.Ok? && Leaves(p, x, Current(d, k))
  {
    var y := SpokeRewritten(x, p.app.spec, p.app.meta.finalizers, |History(c, k)|);
    assert |y.meta.finalizers| == |x.meta.finalizers| + 1;
  }

  lemma UntimelyIsRefused(c: Cluster, p: Pass, written: Obj)
    requires Updating(p)
    requires Current(c, p.key).Some? ==> Current(c, p.key).value.meta.resourceVersion != p.app.meta.resourceVersion
    ensures Serve(c, p.key, RequestOf(p), Served(written)) ==
            (c, Failed(Api(if Current(c, p.key).None? then NotFound else Conflict)))
  {
  }

  lemma TimelyIsTaken(c: Cluster, p: Pass, x: Hub, written: Obj)
    requires Updating(p) && HistoryOk(History(c, p.key)) && Sourced(History(c, p.key), p)
    requires Current(c, p.key) == Some(x) && x.meta.resourceVersion == p.app.meta.resourceVersion
    ensures var (d, resp) := Serve(c, p.key, RequestOf(p), Served(written));
            resp.Ok? && Leaves(p, x, Current(d, p.key))
  {
    var h := History(c, p.key);
    match p.pc
    case RemovingFinalizer =>
      var y :| IsVersion(h, p.app.meta.resourceVersion, y) && y.meta.deleting && HasFinalizer(y.meta)
               && p.app == WithoutFinalizer(ToSpoke(y));
      CurrentIsRead(h, x, y);
      RemovalLeaves(c, p.key, p, x, written);
    case AddingFinalizer =>
      var y :| IsVersion(h, p.app.meta.resourceVersion, y) && !y.meta.deleting && !HasFinalizer(y.meta)
               && p.app == WithFinalizer(ToSpoke(y));
      CurrentIsRead(h, x, y);
      AdoptionLeaves(c, p.key, p, x, written);
    case _ =>
      Outcomes.StatusStored(c, p, Served(written));
  }

  lemma CallJudged(c: Cluster, p: Pass, written: Obj)
    requires Updating(p) && HistoryOk(History(c, p.key)) && Sourced(History(c, p.key), p)
    ensures var (d, resp) := Serve(c, p.key, RequestOf(p), Served(written)); Judged(c, p.key, p, d, resp)
  {
    var h, cur := History(c, p.key), Current(c, p.key);
    if cur.Some? {
      assert VersionOk(cur.value, |h| - 1);
    }
    if cur.Some? && p.app.meta.resourceVersion == |h| - 1 {
      TimelyIsTaken(c, p, cur.value, written);
    } else {
      UntimelyIsRefused(c, p, written);
    }
  }

  /** In every run, of every update of the application that reaches the server: it is taken if
      and only if nobody has written the application since the pass read it. A removal then
      leaves the other finalizers, and no application where there are none; an adoption adds the
      operator's finalizer at the end; a status write leaves the status that was reported. */
  lemma {:induction false} OnlyTimelyUpdates(
      limit: nat, plan: Plan, children: map<Key, Obj>, ls: seq<Label>, id: PassId, written: Obj, now: nat)
    ensures var s := Run(Initial(limit, plan, children), ls);
            Runnable(s, id) && Updating(s.passes[id]) ==>
              Judged(s.cluster, id.key, s.passes[id], Exec(s, Call(id, Served(written), now)).cluster,
                     Serve(s.cluster, id.key, RequestOf(s.passes[id]), Served(written)).1)
  {
    RunSafe(limit, plan, children, ls);
    var s := Run(Initial(limit, plan, children), ls);
    if Runnable(s, id) && Updating(s.passes[id]) {
      StepJudged(s, id, written, now);
      Outcomes.ExecIsCall(s, id, Served(written), now);
    }
  }

  lemma StepJudged(s: State, id: PassId, written: Obj, now: nat)
    requires Safe(s) && Runnable(s, id) && Updating(s.passes[id])
    ensures Judged(s.cluster, id.key, s.passes[id], CallStep(s, id, Served(written), now).cluster,
                   Serve(s.cluster, id.key, RequestOf(s.passes[id]), Served(written)).1)
  {
    assert PassFits(s, id);
    assert HistoryOk(History(s.cluster, id.key));
    CallJudged(s.cluster, s.passes[id], written);
  }

  /* ---------- the words for a failed call ---------- */

  /** What a failed call is reported as doing. */
  function Doing(r: Request): string {
    match r
    case GetChild(_) => "getting: "
    case CreateChild(_, _) => "creating: "
    case PatchChild(_, _) => "applying: "
    case DeleteChild(_) => "deleting: "
    case _ => ""
  }

  predicate EndsIn(message: string, ending: string) {
    |ending| <= |message| && message[|message| - |ending|..] == ending
  }

  /** If this answer made the sub-reconciler fail, its error says which call failed and how. */
  predicate SaysWhatFailed(p: Pass, resp: Response, q: Pass) {
    p.pc.Working? && q.pc.ReadingReplicas? && q.pc.failure.Some? ==>
      && resp.Failed?
      && EndsIn(MessageOf(q.pc.failure.value.error), Doing(RequestOf(p)) + MessageOf(resp.error))
  }

  lemma MessageEnds(prefix: string, message: string, ending: string)
    requires EndsIn(message, ending)
    ensures EndsIn(prefix + message, ending)
  {
    var whole := prefix + message;
    assert whole[|whole| - |ending|..] == message[|message| - |ending|..];
  }

  lemma StepMessage(p: Pass, i: Step, e: Error, ending: string)
    requires IsRaw(e) && EndsIn(MessageOf(e), ending)
    ensures EndsIn(MessageOf(StepError(p, i, e)), ending)
    ensures EndsIn(MessageOf(StepError(p, i, Refused(p, i, e))), ending)
  {
    RefusedTwice(e, ToReconcile(i), KeyOf(i, p.key).name, ObjectOf(i), p.key.name, SubReconciler(i));
    ClassifiedIsKnown(e, ToReconcile(i), p.key.name, SubReconciler(i));
    ClassifiedMessage(i, Refused(p, i, e), ending);
    ClassifiedMessage(i, ClassifyOrWrap(e, p.key.name, SubReconciler(i)), ending);
  }

  lemma ClassifiedMessage(i: Step, r: Error, ending: string)
    requires r.Reconcile? && EndsIn(MessageOf(r.inner), ending)
    ensures EndsIn(MessageOf(Wrapped(ToReconcile(i), r)), ending)
  {
    var prefix := ClassText(r.errorClass) + " error on " + SubjectText(r.kind) + " " + r.resource + ": ";
    MessageEnds(prefix, MessageOf(r.inner), ending);
    assert MessageOf(r) == prefix + MessageOf(r.inner);
    MessageEnds(ContextText(ToReconcile(i)) + ": ", MessageOf(r), ending);
  }

  lemma CallMessage(c: Context, e: Error, doing: string)
    requires doing == ContextText(c) + ": "
    ensures EndsIn(MessageOf(Wrapped(c, e)), doing + MessageOf(e))
  {
    assert MessageOf(Wrapped(c, e)) == doing + MessageOf(e);
  }

  lemma AttemptMessage(p: Pass, i: Step, attempt: nat, c: Context, e: RawError, doing: string)
    requires doing == ContextText(c) + ": "
    ensures var q := AttemptFailed(p, i, attempt, Wrapped(c, e));
            q.pc.ReadingReplicas? ==> q.pc.failure.Some?
                                      && EndsIn(MessageOf(q.pc.failure.value.error), doing + MessageOf(e))
  {
    CallMessage(c, e, doing);
    StepMessage(p.(trail := p.trail + [Wrapped(c, e)]), i, Wrapped(c, e), doing + MessageOf(e));
  }

  predicate Applying(p: Pass) {
    p.pc.Working? && (p.pc.phase == Getting || p.pc.phase == Creating || p.pc.phase == Patching)
  }

  lemma ApplySays(p: Pass, e: RawError)
    requires Applying(p) && Fits(RequestOf(p), Failed(e))
    ensures SaysWhatFailed(p, Failed(e), NextWorking(p, p.pc.step, p.pc.attempt, p.pc.phase, Failed(e)))
  {
    match p.pc.phase
    case Getting => AttemptMessage(p, p.pc.step, p.pc.attempt, ToGet, e, "getting: ");
    case Creating => AttemptMessage(p, p.pc.step, p.pc.attempt, ToCreate, e, "creating: ");
    case Patching => AttemptMessage(p, p.pc.step, p.pc.attempt, ToApply, e, "applying: ");
  }

  lemma PauseSays(p: Pass, e: RawError)
    requires p.pc.Working? && p.pc.phase == Waiting && Fits(RequestOf(p), Failed(e))
    ensures SaysWhatFailed(p, Failed(e), NextWorking(p, p.pc.step, p.pc.attempt, p.pc.phase, Failed(e)))
  {
    StepMessage(p, p.pc.step, e, "" + MessageOf(e));
  }

  lemma DeleteFails(p: Pass, e: RawError)
    requires p.pc.Working? && p.pc.phase == Deleting && Fits(RequestOf(p), Failed(e))
    ensures NextWorking(p, p.pc.step, p.pc.attempt, p.pc.phase, Failed(e)) ==
            if IsNotFound(e) then StepDone(p, p.pc.step) else StepFailed(p, p.pc.step, Wrapped(ToDelete, e))
    ensures Doing(RequestOf(p)) == "deleting: "
  {
  }

  lemma DeleteSays(p: Pass, e: RawError)
    requires p.pc.Working? && p.pc.phase == Deleting && Fits(RequestOf(p), Failed(e))
    ensures SaysWhatFailed(p, Failed(e), NextWorking(p, p.pc.step, p.pc.attempt, p.pc.phase, Failed(e)))
  {
    var ending := "deleting: " + MessageOf(e);
    DeleteFails(p, e);
    CallMessage(ToDelete, e, "deleting: ");
    StepMessage(p, p.pc.step, Wrapped(ToDelete, e), ending);
  }

  lemma ServedSaysNothing(p: Pass, resp: Response)
    requires p.pc.Working? && Fits(RequestOf(p), resp) && !resp.Failed?
    ensures SaysWhatFailed(p, resp, NextWorking(p, p.pc.step, p.pc.attempt, p.pc.phase, resp))
  {
  }

  lemma AnswerSays(p: Pass, resp: Response)
    requires p.pc.Working? && Fits(RequestOf(p), resp)
    ensures SaysWhatFailed(p, resp, NextWorking(p, p.pc.step, p.pc.attempt, p.pc.phase, resp))
  {
    if !resp.Failed? {
      ServedSaysNothing(p, resp);
    } else if Applying(p) {
      ApplySays(p, resp.error);
    } else if p.pc.phase == Waiting {
      PauseSays(p, resp.error);
    } else {
      DeleteSays(p, resp.error);
    }
  }

  /** In every run: whenever a call makes a sub-reconciler fail, the error it is reported with
      ends in what the call was doing and the message it failed with. */
  lemma {:induction false} FailedCallsAreReported(
      limit: nat, plan: Plan, children: map<Key, Obj>, ls: seq<Label>, id: PassId, fate: Fate, now: nat)
    ensures var s := Run(Initial(limit, plan, children), ls);
            Runnable(s, id) ==>
              SaysWhatFailed(s.passes[id], Serve(s.cluster, id.key, RequestOf(s.passes[id]), fate).1,
                             Exec(s, Call(id, fate, now)).passes[id])
  {
    RunSafe(limit, plan, children, ls);
    var s := Run(Initial(limit, plan, children), ls);
    if Runnable(s, id) && s.passes[id].pc.Working? {
      assert PassFits(s, id);
      AnswerSays(s.passes[id], Serve(s.cluster, id.key, RequestOf(s.passes[id]), fate).1);
    }
  }
}
