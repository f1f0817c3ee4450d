/** What the operator promises over every run of the system: any number of passes, users,
    drift, stale reads and failing calls, interleaved in any way. */
module Guarantees {
  import opened Text
  import opened Children
  import opened Errors
  import opened Conditions
  import opened Conversion
  import opened Passes
  import opened Protocol
  import opened Safety

  /* ---------- the status ---------- */

  /** At every version ever stored, the status speaks of no future generation; where it
      speaks of the stored one, its deployed version is the stored tag and readiness means
      enough replicas; its conditions are untouched or complete with exactly one verdict.
      Between two versions of the same application nothing runs backwards. */
  lemma {:induction false} StatusNeverLies(limit: nat, plan: Plan, children: map<Key, Obj>, ls: seq<Label>, k: AppKey,
          v: nat, w: nat)
    ensures var h := History(Run(Initial(limit, plan, children), ls).cluster, k);
            v <= w < |h| && h[v].Some? && h[w].Some? ==>
              var a, b := h[v].value, h[w].value;
              && b.status.observedGeneration <= b.meta.generation
              && (b.status.observedGeneration == b.meta.generation ==>
                    && b.status.deployedVersion == b.spec.image.tag
                    && (IsReady(b.status.conditions) ==> b.status.readyReplicas >= b.spec.replicas.min))
              && (b.status.conditions == [] || (FourInOrder(b.status.conditions) && OneVerdict(b.status.conditions)))
              && (a.meta.uid == b.meta.uid ==>
                    a.status.observedGeneration <= b.status.observedGeneration
                        && a.meta.generation <= b.meta.generation)
  {
    RunSafe(limit, plan, children, ls);
    var h := History(Run(Initial(limit, plan, children), ls).cluster, k);
    assert HistoryOk(h);
    if v <= w < |h| && h[v].Some? && h[w].Some? {
      assert VersionOk(h[w].value, w);
    }
  }

  lemma ExecGrows(s: State, l: Label)
    requires Safe(s)
    ensures Grows(s.cluster, Exec(s, l).cluster)
  {
    match l
    case Drift(_, _) =>
    case Start(_) =>
    case Call(id, fate, now) => if Runnable(s, id) { CallGrows(s, id, fate, now); }
    case _ =>
      forall k ensures Extends(History(s.cluster, k), History(Exec(s, l).cluster, k)) {
        UserStepOk(s.cluster, l, k);
      }
  }

  lemma GrowsTrans(c: Cluster, d: Cluster, e: Cluster)
    requires Grows(c, d) && Grows(d, e)
    ensures Grows(c, e)
  {
    forall k ensures Extends(History(c, k), History(e, k)) {
      assert Extends(History(c, k), History(d, k)) && Extends(History(d, k), History(e, k));
    }
  }

  /** Stored versions are never rewritten: running on only adds to every history. */
  lemma {:induction false} RunGrows(s: State, ls: seq<Label>)
    requires Safe(s)
    ensures Safe(Run(s, ls)) && Grows(s.cluster, Run(s, ls).cluster)
  {
    if ls == [] {
    } else {
      var t, l := Run(s, ls[..|ls| - 1]), ls[|ls| - 1];
      RunGrows(s, ls[..|ls| - 1]);
      ExecGrows(t, l);
      ExecSafe(t, l);
      GrowsTrans(s.cluster, t.cluster, Exec(t, l).cluster);
    }
  }

  lemma RunMore(s: State, ls: seq<Label>, l: Label)
    ensures Run(s, ls + [l]) == Exec(Run(s, ls), l)
  {
    assert (ls + [l])[..|ls|] == ls;
  }

  lemma {:induction false} RunSplits(s: State, ls: seq<Label>, more: seq<Label>)
    ensures Run(s, ls + more) == Run(Run(s, ls), more)
  {
    if more == [] {
      assert ls + more == ls;
    } else {
      var init, l := more[..|more| - 1], more[|more| - 1];
      LastOfBoth(ls, more);
      RunSplits(s, ls, init);
      RunMore(s, ls + init, l);
      RunMore(Run(s, ls), init, l);
    }
  }

  /** The observed generation of a living application never decreases, its URL is never
      cleared, a deletion is never undone, and a finalizer once removed from a deleting application never comes back,
      whatever stale passes still do. */
  lemma {:induction false} StatusAndFinalizerMoveForward(
      limit: nat, plan: Plan, children: map<Key, Obj>, ls: seq<Label>, more: seq<Label>, k: AppKey)
    ensures var now := Current(Run(Initial(limit, plan, children), ls).cluster, k);
            var later := Current(Run(Initial(limit, plan, children), ls + more).cluster, k);
            now.Some? && later.Some? && now.value.meta.uid == later.value.meta.uid ==>
              && now.value.status.observedGeneration <= later.value.status.observedGeneration
              && (now.value.status.url != "" ==> later.value.status.url != "")
              && (now.value.meta.deleting ==> later.value.meta.deleting)
              && (now.value.meta.deleting && !HasFinalizer(now.value.meta) ==> !HasFinalizer(later.value.meta))
  {
    var s := Initial(limit, plan, children);
    RunSafe(limit, plan, children, ls);
    RunGrows(Run(s, ls), more);
    RunSplits(s, ls, more);
    var g, h := History(Run(s, ls).cluster, k), History(Run(s, ls + more).cluster, k);
    assert HistoryOk(h) && Extends(g, h);
    if g != [] && g[|g| - 1].Some? && h[|h| - 1].Some? && g[|g| - 1].value.meta.uid == h[|h| - 1].value.meta.uid {
      assert h[|g| - 1] == g[|g| - 1];
      assert Ordered(h[|g| - 1].value, h[|h| - 1].value);
    }
  }

  /* ---------- what the controller does to applications ---------- */

  /** What a write through the spoke version leaves of a stored spec. */
  function Shared(spec: B.Spec): B.Spec {
    spec.(envFrom := [], podAnnotations := map[])
  }

  /** The URL of an exposed application, or the one reported before. */
  function UrlShown(g: B.GatewaySpec, before: string): string {
    if g.enabled && g.host != "" then "https://" + g.host else before
  }

  /** A status write: the version, and a status that speaks of the very version it replaces;
      of the spec, only what the spoke version shares survives. */
  predicate StatusOnly(cur: Hub, x: Hub) {
    && !cur.meta.deleting && HasFinalizer(cur.meta)
    && x == cur.(meta := cur.meta.(resourceVersion := x.meta.resourceVersion), spec := Shared(cur.spec),
        status := x.status)
    && x.status.observedGeneration == cur.meta.generation && x.status.deployedVersion == cur.spec.image.tag
    && x.status.url == UrlShown(cur.spec.gateway, cur.status.url)
    && FourInOrder(x.status.conditions) && OneVerdict(x.status.conditions)
    && (IsReady(x.status.conditions) ==> x.status.readyReplicas >= cur.spec.replicas.min)
  }

  function FinalizersAfter(cur: Hub): seq<string> {
    if cur.meta.deleting then Others(cur.meta.finalizers) else cur.meta.finalizers + [FINALIZER]
  }

  /** A finalizer write: added to a living application that lacks it, removed from a deleting
      one that has it, the other finalizers in place; of the spec, only the shared fields survive. */
  predicate FinalizerOnly(cur: Hub, x: Hub) {
    && (cur.meta.deleting <==> HasFinalizer(cur.meta))
    && x.status == cur.status
    && x.spec == Shared(cur.spec)
    && x.meta == cur.meta.(resourceVersion := x.meta.resourceVersion, finalizers := FinalizersAfter(cur))
  }

  predicate LegalWrite(cur: Hub, next: Option<Hub>) {
    match next
    case None => cur.meta.deleting && HasFinalizer(cur.meta) && Others(cur.meta.finalizers) == []
    case Some(x) => StatusOnly(cur, x) || FinalizerOnly(cur, x)
  }

  /** A write is accepted only against the version that was read. */
  lemma CurrentIsRead(h: seq<Option<Hub>>, cur: Hub, x: Hub)
    requires HistoryOk(h) && h != [] && h[|h| - 1] == Some(cur)
    requires IsVersion(h, cur.meta.resourceVersion, x)
    ensures x == cur
  {
    assert VersionOk(cur, |h| - 1);
  }

  lemma FinalizerWrite(h: seq<Option<Hub>>, cur: Hub, p: Pass)
    requires HistoryOk(h) && h != [] && h[|h| - 1] == Some(cur) && Sourced(h, p)
    requires p.pc.RemovingFinalizer? || p.pc.AddingFinalizer?
    requires p.app.meta.resourceVersion == cur.meta.resourceVersion
    ensures LegalWrite(cur, Persisted(SpokeRewritten(cur, p.app.spec, p.app.meta.finalizers, |h|)))
  {
    var x :| IsVersion(h, cur.meta.resourceVersion, x) && (x.meta.deleting <==> HasFinalizer(x.meta))
             && p.app == if x.meta.deleting then WithoutFinalizer(ToSpoke(x)) else WithFinalizer(ToSpoke(x));
    CurrentIsRead(h, cur, x);
    HubRoundTrip(cur);
    assert SpecToHub(p.app.spec) == Shared(cur.spec);
    assert p.app.meta.finalizers == FinalizersAfter(cur);
  }

  lemma StatusWrite(h: seq<Option<Hub>>, cur: Hub, p: Pass)
    requires HistoryOk(h) && h != [] && h[|h| - 1] == Some(cur) && Sourced(h, p) && Reporting(p)
    requires p.pc.WritingStatus? && p.app.meta.resourceVersion == cur.meta.resourceVersion
    ensures LegalWrite(cur, Some(StatusRewritten(cur, p.app.status, |h|)))
  {
    var x :| IsVersion(h, p.app.meta.resourceVersion, x) && WorksOn(p, x);
    CurrentIsRead(h, cur, x);
    HubRoundTrip(cur);
  }

  /** An update of the application that the server takes up is a legal write. */
  lemma WriteIsLegal(c: Cluster, p: Pass, fate: Fate)
    requires p.pc.RemovingFinalizer? || p.pc.AddingFinalizer? || p.pc.WritingStatus?
    requires HistoryOk(History(c, p.key)) && Sourced(History(c, p.key), p) && Reporting(p)
    ensures var g, h := History(c, p.key), History(Serve(c, p.key, RequestOf(p), fate).0, p.key);
            Legal(g, h)
  {
    var g, cur := History(c, p.key), Current(c, p.key);
    if p.pc.WritingStatus? {
      StatusAppends(c, p.key, p.app, fate);
    } else {
      UpdateAppends(c, p.key, p.app, fate);
    }
    if cur.Some? && cur.value.meta.resourceVersion == p.app.meta.resourceVersion {
      if p.pc.WritingStatus? {
        StatusWrite(g, cur.value, p);
      } else {
        FinalizerWrite(g, cur.value, p);
      }
    }
  }

  /** Nothing, or one legal write on top of the current version. */
  ghost predicate Legal(g: seq<Option<Hub>>, h: seq<Option<Hub>>) {
    h == g || (g != [] && |h| == |g| + 1 && h[..|g|] == g && g[|g| - 1].Some? && LegalWrite(g[|g| - 1].value, h[|g|]))
  }

  lemma CallIsLegal(s: State, id: PassId, fate: Fate, now: nat, k: AppKey)
    requires Safe(s) && Runnable(s, id)
    ensures var g, h := History(s.cluster, k), History(CallStep(s, id, fate, now).cluster, k);
            Legal(g, h) && (k != id.key ==> h == g)
  {
    var p := s.passes[id];
    assert PassFits(s, id);
    if k != p.key {
      ServeOthers(s.cluster, p.key, RequestOf(p), fate, k);
    } else if p.pc.RemovingFinalizer? || p.pc.AddingFinalizer? || p.pc.WritingStatus? {
      assert HistoryOk(History(s.cluster, k));
      WriteIsLegal(s.cluster, p, fate);
    } else {
      ServeChild(s.cluster, p.key, RequestOf(p), fate);
    }
  }

  /** What one call of any pass, however stale, does to applications: at most one legal write
      on top of the current version of its own application. */
  lemma {:induction false} ControllerWritesAreLegal(
      limit: nat, plan: Plan, children: map<Key, Obj>, ls: seq<Label>, id: PassId, fate: Fate, now: nat, k: AppKey)
    ensures var s := Run(Initial(limit, plan, children), ls);
            var g, h := History(s.cluster, k), History(Exec(s, Call(id, fate, now)).cluster, k);
            Legal(g, h) && (k != id.key ==> h == g)
  {
    RunSafe(limit, plan, children, ls);
    var s := Run(Initial(limit, plan, children), ls);
    if Runnable(s, id) {
      CallIsLegal(s, id, fate, now, k);
    }
  }

  /** Other finalizers keep their order, and the controller's own is never doubled. */
  lemma LegalWriteKeepsOthers(cur: Hub, x: Hub)
    requires LegalWrite(cur, Some(x))
    ensures Others(x.meta.finalizers) == Others(cur.meta.finalizers)
    ensures HasFinalizer(x.meta) <==> !cur.meta.deleting
    ensures x.meta.uid == cur.meta.uid && x.meta.deleting == cur.meta.deleting
  {
    OthersFacts(cur.meta.finalizers);
    assert FINALIZER == (cur.meta.finalizers + [FINALIZER])[|cur.meta.finalizers|];
  }

  lemma SpecAfterWrite(cur: Hub, x: Hub)
    requires LegalWrite(cur, Some(x))
    ensures x.spec == cur.spec <==> cur.spec.envFrom == [] && cur.spec.podAnnotations == map[]
    ensures SpecToSpoke(x.spec) == SpecToSpoke(cur.spec) && x.meta.generation == cur.meta.generation
  {
  }

  /** Whenever a call of a pass leaves a new version of a living or deleting application: the
      user's spec is as it was if and only if the two hub-only fields were unset, whatever the
      call was for; the shared fields always survive, and the generation never moves, so the
      loss is not even visible there. */
  lemma {:induction false} UserSpecSurvives(
      limit: nat, plan: Plan, children: map<Key, Obj>, ls: seq<Label>, id: PassId, fate: Fate, now: nat)
    ensures var s := Run(Initial(limit, plan, children), ls);
            var g, h := History(s.cluster, id.key), History(Exec(s, Call(id, fate, now)).cluster, id.key);
            |h| > |g| && h[|g|].Some? ==>
              && g != [] && g[|g| - 1].Some?
              && var cur, x := g[|g| - 1].value, h[|g|].value;
                 && (x.spec == cur.spec <==> cur.spec.envFrom == [] && cur.spec.podAnnotations == map[])
                 && SpecToSpoke(x.spec) == SpecToSpoke(cur.spec) && x.meta.generation == cur.meta.generation
  {
    ControllerWritesAreLegal(limit, plan, children, ls, id, fate, now, id.key);
    var s := Run(Initial(limit, plan, children), ls);
    var g, h := History(s.cluster, id.key), History(Exec(s, Call(id, fate, now)).cluster, id.key);
    if |h| > |g| && h[|g|].Some? {
      SpecAfterWrite(g[|g| - 1].value, h[|g|].value);
    }
  }

  /* ---------- two runs that lose the hub-only fields ---------- */

  /** Pass id is under way at pc while x is the current version of its application. */
  predicate At(s: State, id: PassId, x: Hub, pc: PC) {
    Current(s.cluster, id.key) == Some(x) && Runnable(s, id) && s.passes[id].key == id.key && s.passes[id].pc == pc
  }

  lemma Fetches(s: State, id: PassId, x: Hub, t: nat, obj: Obj)
    requires At(s, id, x, Fetching)
    ensures var u := Exec(s, Call(id, Served(obj), t));
            u.passes[id] == Fetched(s.passes[id], ToSpoke(x), t) && u.cluster == s.cluster
  {
  }

  /** Adding the finalizer. */
  lemma Adopts(s: State, id: PassId, x: Hub, t: nat, obj: Obj)
    requires At(s, id, x, AddingFinalizer) && !x.meta.deleting && s.passes[id].app == WithFinalizer(ToSpoke(x))
    ensures var stored := Current(Exec(s, Call(id, Served(obj), t)).cluster, id.key);
            && stored.Some? && stored.value.meta.finalizers == x.meta.finalizers + [FINALIZER]
            && stored.value.spec == Shared(x.spec) && stored.value.meta.generation == x.meta.generation
  {
    HubRoundTrip(x);
  }

  /** The first call for a child fails for good. */
  lemma FirstChildFails(s: State, id: PassId, x: Hub, error: RawError, t: nat, obj: Obj)
    requires Runnable(s, id) && At(s, id, x, s.passes[id].pc) && !IsConflict(error) && !IsNotFound(error)
    requires s.passes[id].pc.Working? && s.passes[id].pc.phase in {Getting, Deleting} && s.passes[id].app.meta == x.meta
    ensures var u := Exec(s, Call(id, Faulted(error, false, obj), t));
            && Runnable(u, id) && u.passes[id].pc.ReadingReplicas? && u.passes[id].app == s.passes[id].app
            && At(u, id, x, u.passes[id].pc)
  {
    var p := s.passes[id];
    assert Serve(s.cluster, p.key, RequestOf(p), Faulted(error, false, obj)) == (s.cluster, Failed(error));
    FailsForGood(p, error);
  }

  lemma FailsForGood(p: Pass, error: RawError)
    requires p.pc.Working? && p.pc.phase in {Getting, Deleting} && !IsConflict(error) && !IsNotFound(error)
    ensures var q := NextWorking(p, p.pc.step, p.pc.attempt, p.pc.phase, Failed(error));
            q.pc.ReadingReplicas? && q.app == p.app && q.key == p.key
  {
    assert !IsConflict(Wrapped(ToGet, error));
  }

  lemma ReadsReplicas(s: State, id: PassId, x: Hub, t: nat, obj: Obj)
    requires Runnable(s, id) && At(s, id, x, s.passes[id].pc) && s.passes[id].pc.ReadingReplicas?
    requires s.passes[id].app.meta == x.meta
    ensures var u := Exec(s, Call(id, Served(obj), t));
            Runnable(u, id) && u.passes[id].pc.WritingStatus? && u.passes[id].app.meta == x.meta
                && At(u, id, x, u.passes[id].pc)
  {
  }

  lemma WritesStatus(s: State, id: PassId, x: Hub, t: nat, obj: Obj)
    requires Runnable(s, id) && At(s, id, x, s.passes[id].pc) && s.passes[id].pc.WritingStatus?
    requires s.passes[id].app.meta == x.meta
    ensures var stored := Current(Exec(s, Call(id, Served(obj), t)).cluster, id.key);
            && stored.Some? && stored.value.spec == Shared(x.spec) && stored.value.meta.generation == x.meta.generation
  {
    HubRoundTrip(x);
  }

  lemma RunFirst(s: State, a: Label, ls: seq<Label>)
    ensures Run(s, [a] + ls) == Run(Exec(s, a), ls)
  {
    RunSplits(s, [a], ls);
    assert [a][..0] == [];
    assert Run(s, [a]) == Exec(s, a);
  }

  /** Two calls into its first pass, a new application has lost its hub-only fields. */
  lemma AdoptionDropsHubFields(
      limit: nat, plan: Plan, children: map<Key, Obj>, k: AppKey, spec: B.Spec, t1: nat, t2: nat, obj: Obj)
    ensures var id := PassId(k, 0);
            var s := Run(Initial(limit, plan, children),
                         [UserCreate(k, spec, [])] + ([Start(id)]
                             + ([Call(id, Served(obj), t1)] + ([Call(id, Served(obj), t2)] + []))));
            var stored := Current(s.cluster, k);
            && stored.Some? && stored.value.meta.finalizers == ["platform.example.io/cleanup"]
            && stored.value.spec == Shared(spec) && stored.value.meta.generation == 1
  {
    var id := PassId(k, 0);
    var l1, l2, l3, l4 := UserCreate(k, spec, []), Start(id), Call(id, Served(obj), t1), Call(id, Served(obj), t2);
    var s0 := Initial(limit, plan, children);
    var s1 := Exec(s0, l1);
    var s2 := Exec(s1, l2);
    RunFirst(s0, l1, [l2] + ([l3] + ([l4] + [])));
    RunFirst(s1, l2, [l3] + ([l4] + []));
    var x := Created(k, 0, spec, []);
    assert At(s2, id, x, Fetching) by { assert Current(s1.cluster, k) == Some(x); }
    FetchesAndAdopts(s2, id, x, t1, t2, obj);
  }

  lemma FetchesAndAdopts(s: State, id: PassId, x: Hub, t1: nat, t2: nat, obj: Obj)
    requires At(s, id, x, Fetching) && !x.meta.deleting && !HasFinalizer(x.meta)
    ensures var l3, l4 := Call(id, Served(obj), t1), Call(id, Served(obj), t2);
            var stored := Current(Run(s, [l3] + ([l4] + [])).cluster, id.key);
            && stored.Some? && stored.value.meta.finalizers == x.meta.finalizers + [FINALIZER]
            && stored.value.spec == Shared(x.spec) && stored.value.meta.generation == x.meta.generation
  {
    var l3, l4 := Call(id, Served(obj), t1), Call(id, Served(obj), t2);
    RunFirst(s, l3, [l4] + []);
    RunFirst(Exec(s, l3), l4, []);
    Fetches(s, id, x, t1, obj);
    Adopts(Exec(s, l3), id, x, t2, obj);
  }

  /** A user sets the hub-only fields of an adopted application; the status write of the next
      pass, here one whose first child call fails, loses them. */
  lemma StatusWriteDropsHubFields(
      limit: nat, plan: Plan, children: map<Key, Obj>, k: AppKey, before: B.Spec, spec: B.Spec, obj: Obj)
    ensures var id := PassId(k, 0);
            var s := Run(Initial(limit, plan, children),
                         [UserCreate(k, before, [FINALIZER])] + ([UserEdit(k, spec, [FINALIZER])] + ([Start(id)]
                         + ([Call(id, Served(obj), 0)] + ([Call(id, Faulted(CANCELLED, false, obj), 0)]
                         + ([Call(id, Served(obj), 0)] + ([Call(id, Served(obj), 0)] + [])))))));
            var stored := Current(s.cluster, k);
            && stored.Some? && stored.value.spec == Shared(spec)
            && stored.value.meta.generation == (if spec == before then 1 else 2)
  {
    var id := PassId(k, 0);
    var l1, l2, l3 := UserCreate(k, before, [FINALIZER]), UserEdit(k, spec, [FINALIZER]), Start(id);
    var ok, bad := Call(id, Served(obj), 0), Call(id, Faulted(CANCELLED, false, obj), 0);
    var s1 := Exec(Initial(limit, plan, children), l1);
    var s2 := Exec(s1, l2);
    RunFirst(Initial(limit, plan, children), l1, [l2] + ([l3] + ([ok] + ([bad] + ([ok] + ([ok] + []))))));
    RunFirst(s1, l2, [l3] + ([ok] + ([bad] + ([ok] + ([ok] + [])))));
    RunFirst(s2, l3, [ok] + ([bad] + ([ok] + ([ok] + []))));
    EditedStart(limit, plan, children, k, before, spec);
    PassDropsHubFields(Exec(s2, l3), id, Edited(k, before, spec), obj);
  }

  /** A pass over an adopted application, its first child call failing, ends with a status write
      that loses the hub-only fields. */
  lemma PassDropsHubFields(s: State, id: PassId, x: Hub, obj: Obj)
    requires At(s, id, x, Fetching) && !x.meta.deleting && HasFinalizer(x.meta)
    ensures var ok, bad := Call(id, Served(obj), 0), Call(id, Faulted(CANCELLED, false, obj), 0);
            var stored := Current(Run(s, [ok] + ([bad] + ([ok] + ([ok] + [])))).cluster, id.key);
            stored.Some? && stored.value.spec == Shared(x.spec) && stored.value.meta.generation == x.meta.generation
  {
    var ok, bad := Call(id, Served(obj), 0), Call(id, Faulted(CANCELLED, false, obj), 0);
    var s1 := Exec(s, ok);
    var s2 := Exec(s1, bad);
    var s3 := Exec(s2, ok);
    RunFirst(s, ok, [bad] + ([ok] + ([ok] + [])));
    RunFirst(s1, bad, [ok] + ([ok] + []));
    RunFirst(s2, ok, [ok] + []);
    RunFirst(s3, ok, []);
    Fetches(s, id, x, 0, obj);
    FetchedWorks(s.passes[id], ToSpoke(x), 0);
    FirstChildFails(s1, id, x, CANCELLED, 0, obj);
    ReadsReplicas(s2, id, x, 0, obj);
    WritesStatus(s3, id, x, 0, obj);
  }

  /** What is stored once a user has edited a new application; an edit that changes nothing
      makes no new version. */
  function Edited(k: AppKey, before: B.Spec, spec: B.Spec): Hub {
    var x := Created(k, 0, before, [FINALIZER]);
    if spec == before then x else Rewritten(x, spec, [FINALIZER], 1)
  }

  lemma EditedStart(limit: nat, plan: Plan, children: map<Key, Obj>, k: AppKey, before: B.Spec, spec: B.Spec)
    ensures var id := PassId(k, 0);
            var s := Exec(Exec(Exec(Initial(limit, plan, children), UserCreate(k, before, [FINALIZER])),
                               UserEdit(k, spec, [FINALIZER])), Start(id));
            At(s, id, Edited(k, before, spec), Fetching)
  {
    var s1 := Exec(Initial(limit, plan, children), UserCreate(k, before, [FINALIZER]));
    assert Current(s1.cluster, k) == Some(Created(k, 0, before, [FINALIZER])) && |History(s1.cluster, k)| == 1;
    var s2 := Exec(s1, UserEdit(k, spec, [FINALIZER]));
    assert Current(s2.cluster, k) == Some(Edited(k, before, spec));
  }

  lemma FetchedWorks(p: Pass, a: Spoke, now: nat)
    requires !a.meta.deleting && HasFinalizer(a.meta)
    ensures var q := Fetched(p, a, now);
            q.pc.Working? && q.pc.phase in {Getting, Deleting} && q.app.meta == a.meta && q.key == p.key
  {
  }

  /* ---------- what the controller does to children ---------- */

  /** The write log is complete: a child changes only by drift or by the logged write of a pass. */
  lemma ChildrenChangeOnlyByLoggedWrites(s: State, l: Label, k: Key)
    requires Stored(Exec(s, l).cluster, k) != Stored(s.cluster, k)
    ensures (l.Drift? && l.child == k) ||
            (l.Call? && |Exec(s, l).writes| == |s.writes| + 1
                && Target(Exec(s, l).writes[|s.writes|].request) == Some(k))
  {
    if l.Call? && Runnable(s, l.id) {
      LoggedTouches(s.cluster, s.passes[l.id], l.fate, k);
    }
  }

  lemma ServeTouchesTarget(c: Cluster, app: AppKey, req: Request, fate: Fate, k: Key)
    requires Target(req) != Some(k)
    ensures Stored(Serve(c, app, req, fate).0, k) == Stored(c, k)
  {
  }

  lemma LoggedTouches(c: Cluster, p: Pass, fate: Fate, k: Key)
    requires !p.pc.Finished? && Stored(Serve(c, p.key, RequestOf(p), fate).0, k) != Stored(c, k)
    ensures |Logged(p)| == 1 && Target(Logged(p)[0].request) == Some(k)
  {
    if Target(RequestOf(p)) != Some(k) {
      ServeTouchesTarget(c, p.key, RequestOf(p), fate, k);
    }
  }

  /** What a logged write asks for, against the version x it was based on. */
  ghost predicate AsksForOwned(w: ChildWrite, x: Hub) {
    var spec := SpecToSpoke(x.spec);
    match w.request
    case CreateChild(k, d) => k == KeyOf(w.step, w.app) && Wanted(w.step, spec) && OwnedManifest(w, x, d)
    case PatchChild(k, d) => k == KeyOf(w.step, w.app) && Wanted(w.step, spec) && OwnedManifest(w, x, d)
    case DeleteChild(k) => k == KeyOf(w.step, w.app) && !Wanted(w.step, spec)
    case _ => false
  }

  /** The generated child of that version, with the application read as its one owner. */
  ghost predicate OwnedManifest(w: ChildWrite, x: Hub, d: Obj) {
    && d == Manifest(w.step, AppOf(w.app, SpecToSpoke(x.spec)), x.meta.uid)
    && forall u :: OwnerRef(u) in d <==> u == x.meta.uid
  }

  ghost predicate WrittenUnderFinalizer(h: seq<Option<Hub>>, w: ChildWrite) {
    exists x :: IsVersion(h, w.version, x) && !x.meta.deleting && HasFinalizer(x.meta) && AsksForOwned(w, x)
  }

  /** Every child ever created, patched or deleted by a pass was so on the basis of a stored
      version that held the finalizer and was not being deleted, as that version asks, and
      owned by exactly its uid. */
  lemma {:induction false} ChildrenWrittenUnderFinalizer(limit: nat, children: map<Key, Obj>, ls: seq<Label>, n: nat)
    ensures var s := Run(Initial(limit, OperatorPlan(), children), ls);
            n < |s.writes| ==> WrittenUnderFinalizer(History(s.cluster, s.writes[n].app), s.writes[n])
  {
    RunSafe(limit, OperatorPlan(), children, ls);
    var s := Run(Initial(limit, OperatorPlan(), children), ls);
    if n < |s.writes| {
      RunKeepsPlan(Initial(limit, OperatorPlan(), children), ls);
      var w := s.writes[n];
      assert WriteOk(History(s.cluster, w.app), s.plan, w);
      var x :| IsVersion(History(s.cluster, w.app), w.version, x) && Backs(s.plan, w, x);
      BackedIsOwned(w, x);
    }
  }

  lemma BackedIsOwned(w: ChildWrite, x: Hub)
    requires Backs(OperatorPlan(), w, x)
    ensures AsksForOwned(w, x)
  {
    ManifestFields(w.step, AppOf(w.app, SpecToSpoke(x.spec)), x.meta.uid);
  }

  lemma {:induction false} RunKeepsPlan(s: State, ls: seq<Label>)
    ensures Run(s, ls).plan == s.plan && Run(s, ls).limit == s.limit
  {
    if ls == [] {
    } else {
      RunKeepsPlan(s, ls[..|ls| - 1]);
    }
  }

  /* ---------- retries and requeues ---------- */

  /** The pauses a pass at this point of an apply has slept through. */
  function Pauses(attempt: nat, phase: Phase): nat {
    if phase == Waiting && attempt > 0 then attempt - 1 else attempt
  }

  /** A pass inside an apply is at attempt n only because n attempts before it all conflicted,
      n never exceeds the limit, the pause it asks for before it is 100 ms times 2^(n - 1), and
      the backoff so far is 100 ms times 2^n - 1 (one doubling less while it still waits): at
      most 700 ms for the deployed limit. */
  ghost predicate WithinBudget(p: Pass, limit: nat) {
    p.pc.Working? ==>
      && p.pc.attempt <= limit && |p.trail| == p.pc.attempt && AllConflicts(p.trail)
      && p.slept == 100 * (Pow2(Pauses(p.pc.attempt, p.pc.phase)) - 1)
      && (p.pc.phase == Waiting ==> p.pc.attempt > 0 && RequestOf(p) == Sleep(100 * Pow2(p.pc.attempt - 1)))
      && (limit == MAX_APPLY_RETRIES ==> p.slept <= 700)
  }

  lemma RetryingIsBounded(p: Pass)
    requires Retrying(p)
    ensures WithinBudget(p, p.limit)
  {
    if p.pc.Working? {
      WaitedClosed(Pauses(p.pc.attempt, p.pc.phase));
      assert Pow2(0) == 1 && Pow2(1) == 2 && Pow2(2) == 4 && Pow2(3) == 8;
    }
  }

  /** Every pass of every run stays within the retry budget at every moment. */
  lemma {:induction false} RetriesBounded(limit: nat, plan: Plan, children: map<Key, Obj>, ls: seq<Label>, id: PassId)
    ensures var s := Run(Initial(limit, plan, children), ls);
            id in s.passes ==> WithinBudget(s.passes[id], limit)
  {
    RunSafe(limit, plan, children, ls);
    RunKeepsPlan(Initial(limit, plan, children), ls);
    var s := Run(Initial(limit, plan, children), ls);
    assert PassFits(s, id);
    if id in s.passes {
      RetryingIsBounded(s.passes[id]);
    }
  }

  /** How the controller answers an error, by the API's reason alone; delays in milliseconds. */
  function AnswerTo(r: Reason, e: Error): Result {
    if r == Conflict then Result(None, 1_000, false)
    else if r == NotFound || r == Forbidden || r == Invalid || r == BadRequest then Result(None, 300_000, false)
    else Result(Some(e), 30_000, false)
  }

  lemma KnownIsAnswered(e: Error)
    requires KnownClass(e)
    ensures HandleError(e) == AnswerTo(ReasonOf(e), e) && ErrorCount(e) == 1
    ensures AsReconcile(e).Reconcile? && AsReconcile(e).errorClass != UnknownClass
  {
  }

  /** Whatever failed in a sub-reconciler of any run, the requeue is fixed by the reason at
      the end of the error chain, the error is counted once, and the branch for unclassified
      errors is never reached. */
  lemma {:induction false} RequeueFollowsReason(limit: nat, plan: Plan, children: map<Key, Obj>, ls: seq<Label>,
          id: PassId)
    ensures var s := Run(Initial(limit, plan, children), ls);
            id in s.passes && s.passes[id].pc.WritingStatus? && s.passes[id].pc.failure.Some? ==>
              var e := s.passes[id].pc.failure.value.error;
              && HandleError(e) == AnswerTo(ReasonOf(e), e) && ErrorCount(e) == 1
              && AsReconcile(e).Reconcile? && AsReconcile(e).errorClass != UnknownClass
  {
    RunSafe(limit, plan, children, ls);
    var s := Run(Initial(limit, plan, children), ls);
    assert PassFits(s, id);
    if id in s.passes && s.passes[id].pc.WritingStatus? && s.passes[id].pc.failure.Some? {
      KnownIsAnswered(s.passes[id].pc.failure.value.error);
    }
  }
}
