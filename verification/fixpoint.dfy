/** What a failing pass leaves alone, and what a second fault-free pass changes. */
module Fixpoint {
  import opened Meta
  import opened V1Alpha1
  import opened Text
  import opened Children
  import opened Errors
  import opened Conditions
  import opened Conversion
  import opened Passes
  import opened Convergence
  import Outcomes

  /** A sub-reconciler that fails leaves those before it right and those after it, and
      every object of anybody else, exactly as the pass found them. */
  lemma {:induction false} FailureIsLocal(ticks: Ticks, w: World, g: Goal, limit: nat, n: nat)
    requires Solo(ticks, g.plan) && Live(g, w.cluster)
    ensures var (v, q) := AfterCalls(ticks, w, Begin(g.key, limit, g.plan), n);
            (q.pc.ReadingReplicas? || q.pc.WritingStatus?) && q.pc.failure.Some? ==>
              var i := q.pc.failure.value.step;
              && (forall j: Step :: j < i ==> RightAt(g, v.cluster, j))
              && (forall j: Step :: j > i ==> Stored(v.cluster, KeyOf(j, g.key)) == Stored(w.cluster, KeyOf(j, g.key)))
              && (forall k :: !Owns(g.key, k) ==> Stored(v.cluster, k) == Stored(w.cluster, k))
  {
    EveryCall(ticks, w, Begin(g.key, limit, g.plan), g, n);
    var (v, q) := AfterCalls(ticks, w, Begin(g.key, limit, g.plan), n);
    if (q.pc.ReadingReplicas? || q.pc.WritingStatus?) && q.pc.failure.Some? {
      LaterUntouched(g, w.cluster, v.cluster, q.pc.failure.value.step);
    }
  }

  lemma LaterUntouched(g: Goal, c0: Cluster, c: Cluster, i: Step)
    requires TouchedBelow(g, c0, c, i + 1)
    ensures forall j: Step :: j > i ==> Stored(c, KeyOf(j, g.key)) == Stored(c0, KeyOf(j, g.key))
    ensures forall k :: !Owns(g.key, k) ==> Stored(c, k) == Stored(c0, k)
  {
    forall j: Step | j > i ensures Stored(c, KeyOf(j, g.key)) == Stored(c0, KeyOf(j, g.key)) {
      forall x: Step | x < i + 1 ensures KeyOf(x, g.key) != KeyOf(j, g.key) {
        KeysDisjoint(x, g.key, j, g.key);
      }
    }
  }

  /** The status a successful pass reports about the application a it read. */
  function Reported(a: Spoke, begun: nat, ready: int32, settled: nat): Status {
    Summary(a.(status := a.status.(conditions := Begun(a.status.conditions, begun))), None, ready, settled)
  }

  predicate Read(a: Spoke, p: Pass, begun: nat) {
    p.app == a.(status := a.status.(conditions := Begun(a.status.conditions, begun)))
  }

  predicate Reports(a: Spoke, s: Status, begun: nat, ready: int32, settled: nat) {
    s == Reported(a, begun, ready, settled)
  }

  /** The stored application differs from h at most in its version and in this status, apart
      from the hub-only fields, which the write clears; its version only if anything else. */
  predicate StoresStatus(g: Goal, c: Cluster, h: Hub, s: Status) {
    Current(c, g.key).Some? &&
    var x := Current(c, g.key).value;
    && x == h.(meta := h.meta.(resourceVersion := x.meta.resourceVersion), spec := SpecToHub(SpecToSpoke(h.spec)),
               status := StatusToHub(s))
    && (SameButVersion(x, h) ==> x == h)
  }

  /** Children are read as they are. */
  ghost predicate Prompt(ticks: Ticks) {
    forall n :: !ticks(n).fate.StaleChild?
  }

  /** The Deployment of application k, as the server has it. */
  function DeploymentAnswer(c: Cluster, k: AppKey): Response {
    var key := Key(DeploymentKind, k.namespace, k.name);
    if key in c.children then GotChild(c.children[key]) else Failed(Api(NotFound))
  }

  /** r is the ready count of the Deployment as read, which is as it is stored if prompt. */
  predicate CountsAs(g: Goal, h: Hub, c: Cluster, read: Response, r: int32, prompt: bool) {
    Outcomes.Counts(read, h.status.readyReplicas, r) && (prompt ==> read == DeploymentAnswer(c, g.key))
  }

  /** What a pass without failed calls has read and will report; the Deployment is read as it
      is stored if prompt. */
  ghost predicate Tracks(g: Goal, h: Hub, c: Cluster, p: Pass, prompt: bool) {
    match p.pc
    case Fetching => Current(c, g.key) == Some(h)
    case Working(_, _, _) => Current(c, g.key) == Some(h) && exists b :: Read(ToSpoke(h), p, b)
    case ReadingReplicas(f) => f.None? && Current(c, g.key) == Some(h) && exists b :: Read(ToSpoke(h), p, b)
    case WritingStatus(f) =>
      && f.None? && Current(c, g.key) == Some(h) && p.app.meta == h.meta
      && exists b, r, s, read :: Reports(ToSpoke(h), p.app.status, b, r, s) && CountsAs(g, h, c, read, r, prompt)
    case Finished(_) =>
      exists b, r, s, read ::
        StoresStatus(g, c, h, Reported(ToSpoke(h), b, r, s)) && CountsAs(g, h, c, read, r, prompt)
    case _ => false
  }

  lemma FetchTracks(g: Goal, h: Hub, c: Cluster, p: Pass, fate: Fate, now: nat, prompt: bool)
    requires Smooth(fate)
    requires Tracks(g, h, c, p, prompt) && p.pc.Fetching? && p.key == g.key && !h.meta.deleting && HasFinalizer(h.meta)
    ensures var (d, resp) := Serve(c, g.key, GetApp, fate); Tracks(g, h, d, Next(p, resp, now), prompt)
  {
    var (d, resp) := Serve(c, g.key, GetApp, fate);
    assert Read(ToSpoke(h), Next(p, resp, now), now);
  }

  /** A response that no sub-reconciler takes for a failure. */
  predicate Fine(p: Pass, resp: Response) {
    resp.Failed? ==> IsNotFound(resp.error) && p.pc.Working? && (p.pc.phase == Getting || p.pc.phase == Deleting)
  }

  lemma ServedIsFine(c: Cluster, p: Pass, fate: Fate)
    requires Smooth(fate)
    requires p.pc.Working? && (p.pc.phase == Creating ==> KeyOf(p.pc.step, p.key) !in c.children)
    ensures var (d, resp) := Serve(c, p.key, RequestOf(p), fate); Fine(p, resp) && d.history == c.history
  {
  }

  lemma FineWorks(p: Pass, resp: Response)
    requires p.pc.Working? && Fits(RequestOf(p), resp) && Fine(p, resp)
    ensures var q := NextWorking(p, p.pc.step, p.pc.attempt, p.pc.phase, resp);
            q.app == p.app && (q.pc.Working? || q.pc == ReadingReplicas(None))
  {
  }

  lemma WorkTracks(g: Goal, h: Hub, c: Cluster, p: Pass, begun: nat, fate: Fate)
    requires Smooth(fate)
    requires p.pc.Working? && (p.pc.phase == Creating ==> KeyOf(p.pc.step, p.key) !in c.children)
    requires Current(c, g.key) == Some(h) && Read(ToSpoke(h), p, begun) && p.key == g.key
    ensures var (d, resp) := Serve(c, g.key, RequestOf(p), fate);
            var q := NextWorking(p, p.pc.step, p.pc.attempt, p.pc.phase, resp);
            && Current(d, g.key) == Some(h) && Read(ToSpoke(h), q, begun)
            && (q.pc.Working? || q.pc == ReadingReplicas(None))
  {
    var (d, resp) := Serve(c, g.key, RequestOf(p), fate);
    ServedIsFine(c, p, fate);
    FineWorks(p, resp);
  }

  lemma ReadTracks(g: Goal, h: Hub, c: Cluster, p: Pass, fate: Fate, now: nat, prompt: bool)
    requires Smooth(fate)
    requires Tracks(g, h, c, p, prompt) && p.pc.ReadingReplicas? && p.key == g.key && (prompt ==> !fate.StaleChild?)
    ensures var (d, resp) := Serve(c, g.key, RequestOf(p), fate); Tracks(g, h, d, Next(p, resp, now), prompt)
  {
    var (d, resp) := Serve(c, g.key, RequestOf(p), fate);
    var b :| Read(ToSpoke(h), p, b);
    assert d == c;
    ReadReports(ToSpoke(h), p, resp, b, now);
    Outcomes.ReadCounts(p, resp, now);
    assert g.key.name + "" == g.key.name;
    assert CountsAs(g, h, d, resp, Next(p, resp, now).app.status.readyReplicas, prompt);
  }

  lemma ReadReports(a: Spoke, p: Pass, resp: Response, begun: nat, now: nat)
    requires p.pc == ReadingReplicas(None) && Fits(RequestOf(p), resp) && Read(a, p, begun)
    ensures var q := Next(p, resp, now);
            q.pc == WritingStatus(None) && q.app.meta == a.meta
            && Reports(a, q.app.status, begun, q.app.status.readyReplicas, now)
  {
  }

  lemma StatusServed(g: Goal, h: Hub, c: Cluster, a: Spoke, fate: Fate)
    requires Smooth(fate)
    requires Current(c, g.key) == Some(h) && a.meta == h.meta
    ensures var (d, resp) := Serve(c, g.key, UpdateStatus(a), fate);
            resp.Ok? && StoresStatus(g, d, h, a.status) && d.children == c.children
  {
  }

  lemma StatusTracks(g: Goal, h: Hub, c: Cluster, p: Pass, fate: Fate, now: nat, prompt: bool)
    requires Smooth(fate)
    requires Tracks(g, h, c, p, prompt) && p.pc.WritingStatus? && p.key == g.key
    ensures var (d, resp) := Serve(c, g.key, RequestOf(p), fate); Tracks(g, h, d, Next(p, resp, now), prompt)
  {
    StatusServed(g, h, c, p.app, fate);
    var (d, resp) := Serve(c, g.key, RequestOf(p), fate);
    StatusEnds(p, resp, now);
    var b, r, s, read :| Reports(ToSpoke(h), p.app.status, b, r, s) && CountsAs(g, h, c, read, r, prompt);
    assert StoresStatus(g, d, h, Reported(ToSpoke(h), b, r, s)) && CountsAs(g, h, d, read, r, prompt);
  }

  lemma CallTracks(g: Goal, c0: Cluster, h: Hub, c: Cluster, p: Pass, fate: Fate, now: nat, prompt: bool)
    requires Smooth(fate)
    requires Inv(g, c0, c, p, true) && Tracks(g, h, c, p, prompt) && !p.pc.Finished?
    requires (p.pc.Fetching? ==> !h.meta.deleting && HasFinalizer(h.meta)) && (prompt ==> !fate.StaleChild?)
    ensures var (d, resp) := Serve(c, g.key, RequestOf(p), fate); Tracks(g, h, d, Next(p, resp, now), prompt)
  {
    match p.pc
    case Fetching => FetchTracks(g, h, c, p, fate, now, prompt);
    case Working(_, _, _) =>
      var b :| Read(ToSpoke(h), p, b);
      WorkTracks(g, h, c, p, b, fate);
    case ReadingReplicas(_) => ReadTracks(g, h, c, p, fate, now, prompt);
    case WritingStatus(_) => StatusTracks(g, h, c, p, fate, now, prompt);
  }

  lemma {:induction false} CallsGrow(ticks: Ticks, v: World, q: Pass)
    ensures v.calls <= Finish(ticks, v, q).0.calls
    decreases StageRank(q), AttemptRank(q), PhaseRank(q)
  {
    if q.pc.Finished? {
    } else {
      StepCloser(ticks, v, q);
      CallsGrow(ticks, Step1(ticks, v, q).0, Step1(ticks, v, q).1);
    }
  }

  lemma StepCloser(ticks: Ticks, v: World, q: Pass)
    requires !q.pc.Finished?
    ensures Closer(q, Step1(ticks, v, q).1) && Step1(ticks, v, q).0.calls == v.calls + 1
    ensures Finish(ticks, v, q) == Finish(ticks, Step1(ticks, v, q).0, Step1(ticks, v, q).1)
  {
    var t := ticks(v.calls);
    NextDecreases(q, Serve(v.cluster, q.key, RequestOf(q), t.fate).1, t.now);
  }

  /** Nothing failed or was missed between a and b, the call at b included. */
  lemma NothingFailed(ticks: Ticks, a: nat, b: nat, c: nat)
    requires a <= b < c && Faults(ticks, a, c) == 0
    ensures Faults(ticks, a, b) == 0 && Faults(ticks, a, b + 1) == 0 && Smooth(ticks(b).fate)
  {
    FaultsSplit(ticks, a, b + 1, c);
    NoFaultStep(ticks, a, b);
  }

  lemma {:induction false} FinishTracks(ticks: Ticks, w: World, v: World, q: Pass, g: Goal, h: Hub, prompt: bool)
    requires Solo(ticks, g.plan) && Holds(ticks, g, w, v, q) && Tracks(g, h, v.cluster, q, prompt)
    requires !h.meta.deleting && HasFinalizer(h.meta)
    requires Faults(ticks, w.calls, Finish(ticks, v, q).0.calls) == 0 && (prompt ==> Prompt(ticks))
    ensures Tracks(g, h, Finish(ticks, v, q).0.cluster, Finish(ticks, v, q).1, prompt)
    decreases StageRank(q), AttemptRank(q), PhaseRank(q)
  {
    if q.pc.Finished? {
    } else {
      StepCloser(ticks, v, q);
      var v', q' := Step1(ticks, v, q).0, Step1(ticks, v, q).1;
      CallsGrow(ticks, v', q');
      NothingFailed(ticks, w.calls, v.calls, Finish(ticks, v, q).0.calls);
      TrackStep(ticks, w, v, q, g, h, prompt);
      CallHolds(ticks, g, w, v, q);
      FinishTracks(ticks, w, v', q', g, h, prompt);
    }
  }

  lemma NoFaultStep(ticks: Ticks, a: nat, b: nat)
    requires a <= b && Faults(ticks, a, b + 1) == 0
    ensures Faults(ticks, a, b) == 0 && Smooth(ticks(b).fate)
  {
  }

  lemma TrackStep(ticks: Ticks, w: World, v: World, q: Pass, g: Goal, h: Hub, prompt: bool)
    requires Solo(ticks, g.plan) && Holds(ticks, g, w, v, q) && Faults(ticks, w.calls, v.calls) == 0
            && Smooth(ticks(v.calls).fate) && (prompt ==> Prompt(ticks))
    requires Tracks(g, h, v.cluster, q, prompt) && !q.pc.Finished? && !h.meta.deleting && HasFinalizer(h.meta)
    ensures Tracks(g, h, Step1(ticks, v, q).0.cluster, Step1(ticks, v, q).1, prompt)
  {
    var t := ticks(v.calls);
    CallTracks(g, w.cluster, h, v.cluster, q, t.fate, t.now, prompt);
  }

  lemma TracksEnd(g: Goal, h: Hub, c: Cluster, p: Pass, prompt: bool)
    returns (begun: nat, ready: int32, settled: nat, read: Response)
    requires Tracks(g, h, c, p, prompt) && p.pc.Finished?
    ensures StoresStatus(g, c, h, Reported(ToSpoke(h), begun, ready, settled)) && CountsAs(g, h, c, read, ready, prompt)
  {
    begun, ready, settled, read :|
      StoresStatus(g, c, h, Reported(ToSpoke(h), begun, ready, settled)) && CountsAs(g, h, c, read, ready, prompt);
  }

  /** A fault-free pass over an application that holds the finalizer: all children end up
      right, and the stored application changes in nothing but its version and the reported
      status; the ready replicas reported are those of the Deployment as read, which is as it is
      stored in the end if children are read as they are. */
  lemma {:induction false} CleanPassReports(ticks: Ticks, w: World, g: Goal, limit: nat, h: Hub)
    returns (begun: nat, ready: int32, settled: nat, read: Response)
    requires Solo(ticks, g.plan) && Live(g, w.cluster) && Held(g, w.cluster) && Current(w.cluster, g.key) == Some(h)
    requires Faults(ticks, w.calls, Finish(ticks, w, Begin(g.key, limit, g.plan)).0.calls) == 0
    ensures var v := Finish(ticks, w, Begin(g.key, limit, g.plan)).0;
            && AllRight(g, v.cluster) && TouchedBelow(g, w.cluster, v.cluster, 7)
            && StoresStatus(g, v.cluster, h, Reported(ToSpoke(h), begun, ready, settled))
            && CountsAs(g, h, v.cluster, read, ready, Prompt(ticks))
  {
    var p := Begin(g.key, limit, g.plan);
    var prompt := Prompt(ticks);
    OnePassConverges(ticks, w, g, limit);
    StartHolds(ticks, g, w, p);
    FinishTracks(ticks, w, w, p, g, h, prompt);
    begun, ready, settled, read := TracksEnd(g, h, Finish(ticks, w, p).0.cluster, Finish(ticks, w, p).1, prompt);
  }

  /** Two reports in a row with the same ready count differ only in Progressing's time. */
  lemma ReportTwice(a: Spoke, ready: int32, b1: nat, s1: nat, b2: nat, s2: nat)
    requires a.status.conditions == [] || FourInOrder(a.status.conditions)
    ensures var first := Reported(a, b1, ready, s1);
            var second := Reported(a.(status := first), b2, ready, s2);
            && second == first.(conditions := second.conditions)
            && |second.conditions| == 4 && second.conditions[1..] == first.conditions[1..]
            && Timeless(second.conditions) == Timeless(first.conditions)
            && |first.conditions| == 4 && first.conditions[0].lastTransitionTime == s1
            && second.conditions[0].lastTransitionTime == s2
  {
    var o := OutcomeOf(None, ready, a.spec.replicas.min);
    RepeatMovesOnlyProgressing(a.status.conditions, o, b1, s1, b2, s2);
  }

  /** A second fault-free pass changes no field that an apply sends, and nothing of the
      stored application but its version and Progressing's transition time, when the
      Deployment reports the same ready count. */
  lemma {:induction false} SecondPassIsFixpoint(ticks: Ticks, w: World, g: Goal, limit: nat, h: Hub, h1: Hub, h2: Hub)
    requires Solo(ticks, g.plan) && Live(g, w.cluster) && Held(g, w.cluster) && Current(w.cluster, g.key) == Some(h)
    requires h.status.conditions == [] || FourInOrder(h.status.conditions)
    requires var v1 := Finish(ticks, w, Begin(g.key, limit, g.plan)).0;
             var v2 := Finish(ticks, v1, Begin(g.key, limit, g.plan)).0;
             && Faults(ticks, w.calls, v1.calls) == 0 && Faults(ticks, v1.calls, v2.calls) == 0
             && Current(v1.cluster, g.key) == Some(h1) && Current(v2.cluster, g.key) == Some(h2)
             && h1.status.readyReplicas == h2.status.readyReplicas
    ensures var v1 := Finish(ticks, w, Begin(g.key, limit, g.plan)).0;
            var v2 := Finish(ticks, v1, Begin(g.key, limit, g.plan)).0;
            && AllRight(g, v1.cluster) && AllRight(g, v2.cluster)
            && h2 == h1.(meta := h1.meta.(resourceVersion := h2.meta.resourceVersion),
                         status := h1.status.(conditions := h2.status.conditions))
            && |h1.status.conditions| == |h2.status.conditions| == 4
                && h2.status.conditions[1..] == h1.status.conditions[1..]
            && Timeless(h2.status.conditions) == Timeless(h1.status.conditions)
            && (h2 == h1 <==>
                h2.status.conditions[0].lastTransitionTime == h1.status.conditions[0].lastTransitionTime)
  {
    var b1, r1, s1, _ := CleanPassReports(ticks, w, g, limit, h);
    var v1 := Finish(ticks, w, Begin(g.key, limit, g.plan)).0;
    OnePassConverges(ticks, w, g, limit);
    var b2, r2, s2, _ := CleanPassReports(ticks, v1, g, limit, h1);
    ReportTwice(ToSpoke(h), r1, b1, s1, b2, s2);
    assert ToSpoke(h1).status == Reported(ToSpoke(h), b1, r1, s1);
    assert r1 == r2;
    ReportIgnoresVersion(ToSpoke(h1), ToSpoke(h).(status := Reported(ToSpoke(h), b1, r1, s1)), b2, r2, s2);
    SameTimesSameList(h1.status.conditions, h2.status.conditions);
  }

  lemma SameTimesSameList(once: seq<Condition>, twice: seq<Condition>)
    requires |once| == |twice| == 4 && twice[1..] == once[1..] && Timeless(twice) == Timeless(once)
    ensures twice == once <==> twice[0].lastTransitionTime == once[0].lastTransitionTime
  {
    assert once == [once[0]] + once[1..] && twice == [twice[0]] + twice[1..];
    assert Timeless(twice)[0] == Timeless(once)[0];
  }

  lemma ReportIgnoresVersion(a: Spoke, b: Spoke, begun: nat, ready: int32, settled: nat)
    requires a.spec == b.spec && a.status == b.status && a.meta.generation == b.meta.generation
    ensures Reported(a, begun, ready, settled) == Reported(b, begun, ready, settled)
  {
  }

  /** Where both clusters are right, every field an apply sends has the same stored value. */
  lemma RightAgree(g: Goal, c: Cluster, d: Cluster, i: Step, p: Path)
    requires RightAt(g, c, i) && RightAt(g, d, i)
    ensures var planned := g.plan(g.key, i, g.spec, g.uid);
            && (Stored(c, KeyOf(i, g.key)).None? <==> Stored(d, KeyOf(i, g.key)).None?)
            && (planned.Some? && p in planned.value ==>
                  && p in c.children[KeyOf(i, g.key)] && p in d.children[KeyOf(i, g.key)]
                  && c.children[KeyOf(i, g.key)][p] == d.children[KeyOf(i, g.key)][p])
  {
  }
}
