/** Applications do not interfere: what happens to one depends only on the steps that
    concern it, however the passes, users and drift of the others are interleaved. */
module Interference {
  import opened Text
  import opened Children
  import opened Conversion
  import opened Passes
  import opened Protocol
  import opened Safety

  ghost predicate Concerns(l: Label, k: AppKey) {
    match l
    case UserCreate(key, _, _) => key == k
    case UserEdit(key, _, _) => key == k
    case UserSpokeEdit(key, _, _) => key == k
    case UserDelete(key) => key == k
    case Drift(child, _) => Owns(k, child)
    case Start(id) => id.key == k
    case Call(id, _, _) => id.key == k
  }

  lemma ConcernsOne(l: Label, a: AppKey, b: AppKey)
    requires Concerns(l, a) && Concerns(l, b)
    ensures a == b
  {
    if l.Drift? {
      OwnsDisjoint(a, b, l.child);
    }
  }

  ghost function OwnChildren(c: Cluster, k: AppKey): map<Key, Obj> {
    map x | x in c.children && Owns(k, x) :: c.children[x]
  }

  function OwnPasses(s: State, k: AppKey): map<PassId, Pass> {
    map id | id in s.passes && id.key == k :: s.passes[id]
  }

  /** The part of the cluster that belongs to application k. */
  ghost predicate SameCluster(c: Cluster, d: Cluster, k: AppKey) {
    History(c, k) == History(d, k) && OwnChildren(c, k) == OwnChildren(d, k)
  }

  /** Both states look the same to application k: every version it ever had, its children
      field by field, and its passes. */
  ghost predicate SameView(s: State, t: State, k: AppKey) {
    && SameCluster(s.cluster, t.cluster, k) && OwnPasses(s, k) == OwnPasses(t, k)
    && s.limit == t.limit && s.plan == t.plan
  }

  ghost predicate Keyed(s: State) {
    forall id :: id in s.passes ==> s.passes[id].key == id.key
  }

  /* ---------- one call ---------- */

  lemma PutOwn(c: Cluster, k: AppKey, x: Key, o: Obj)
    ensures OwnChildren(c.(children := c.children[x := o]), k) ==
            if Owns(k, x) then OwnChildren(c, k)[x := o] else OwnChildren(c, k)
  {
  }

  lemma RemoveOwn(c: Cluster, k: AppKey, x: Key)
    ensures OwnChildren(c.(children := c.children - {x}), k) ==
            if Owns(k, x) then OwnChildren(c, k) - {x} else OwnChildren(c, k)
  {
  }

  function ChildOf(r: Request): Option<Key> {
    match r
    case GetChild(x) => Some(x)
    case CreateChild(x, _) => Some(x)
    case PatchChild(x, _) => Some(x)
    case DeleteChild(x) => Some(x)
    case _ => None
  }

  lemma PassStaysHome(p: Pass)
    requires !p.pc.Finished?
    ensures var x := ChildOf(RequestOf(p)); x.Some? ==> Owns(p.key, x.value)
  {
  }

  lemma SameChild(c: Cluster, d: Cluster, k: AppKey, x: Key)
    requires OwnChildren(c, k) == OwnChildren(d, k) && Owns(k, x)
    ensures x in c.children <==> x in d.children
    ensures x in c.children ==> c.children[x] == d.children[x]
  {
    assert x in OwnChildren(c, k) <==> x in c.children;
    assert x in OwnChildren(d, k) <==> x in d.children;
  }

  /** Both clusters answer the same, and stay the same as far as k is concerned. */
  ghost predicate AnswersAlike(c: Cluster, d: Cluster, k: AppKey, req: Request, fate: Fate) {
    var (c', r), (d', q) := Serve(c, k, req, fate), Serve(d, k, req, fate);
    r == q && SameCluster(c', d', k)
  }

  lemma GetLocal(c: Cluster, d: Cluster, k: AppKey, x: Key, fate: Fate)
    requires SameCluster(c, d, k) && Owns(k, x)
    ensures AnswersAlike(c, d, k, GetChild(x), fate)
  {
    SameChild(c, d, k, x);
  }

  lemma CreateLocal(c: Cluster, d: Cluster, k: AppKey, x: Key, o: Obj, fate: Fate)
    requires SameCluster(c, d, k) && Owns(k, x)
    ensures AnswersAlike(c, d, k, CreateChild(x, o), fate)
  {
    SameChild(c, d, k, x);
    PutOwn(c, k, x, Accepted(fate, o));
    PutOwn(d, k, x, Accepted(fate, o));
  }

  lemma PatchLocal(c: Cluster, d: Cluster, k: AppKey, x: Key, o: Obj, fate: Fate)
    requires SameCluster(c, d, k) && Owns(k, x)
    ensures AnswersAlike(c, d, k, PatchChild(x, o), fate)
  {
    PutOwn(c, k, x, Accepted(fate, o));
    PutOwn(d, k, x, Accepted(fate, o));
  }

  lemma DeleteLocal(c: Cluster, d: Cluster, k: AppKey, x: Key, fate: Fate)
    requires SameCluster(c, d, k) && Owns(k, x)
    ensures AnswersAlike(c, d, k, DeleteChild(x), fate)
  {
    SameChild(c, d, k, x);
    RemoveOwn(c, k, x);
    RemoveOwn(d, k, x);
  }

  lemma AppendLocal(c: Cluster, d: Cluster, k: AppKey, v: Option<Hub>)
    requires SameCluster(c, d, k)
    ensures SameCluster(Append(c, k, v), Append(d, k, v), k)
  {
  }

  lemma PutLocal(c: Cluster, d: Cluster, k: AppKey, old_: Hub, v: Option<Hub>)
    requires SameCluster(c, d, k)
    ensures SameCluster(Put(c, k, old_, v), Put(d, k, old_, v), k)
  {
    AppendLocal(c, d, k, v);
  }

  lemma UpdateLocal(c: Cluster, d: Cluster, k: AppKey, a: Spoke, fate: Fate)
    requires SameCluster(c, d, k)
    ensures AnswersAlike(c, d, k, UpdateApp(a), fate)
  {
    var cur := Current(c, k);
    if cur.Some? {
      PutLocal(c, d, k, cur.value, Persisted(SpokeRewritten(cur.value, a.spec, a.meta.finalizers, |History(c, k)|)));
    }
  }

  lemma StatusLocal(c: Cluster, d: Cluster, k: AppKey, a: Spoke, fate: Fate)
    requires SameCluster(c, d, k)
    ensures AnswersAlike(c, d, k, UpdateStatus(a), fate)
  {
    var cur := Current(c, k);
    if cur.Some? {
      PutLocal(c, d, k, cur.value, Some(StatusRewritten(cur.value, a.status, |History(c, k)|)));
    }
  }

  lemma AppLocal(c: Cluster, d: Cluster, k: AppKey, req: Request, fate: Fate)
    requires SameCluster(c, d, k) && (req.GetApp? || req.Sleep?)
    ensures AnswersAlike(c, d, k, req, fate)
  {
  }

  /** The answer to a call, and what it leaves of k, depend on nothing but what is k's. */
  lemma ServeLocal(c: Cluster, d: Cluster, k: AppKey, req: Request, fate: Fate)
    requires SameCluster(c, d, k) && (ChildOf(req).Some? ==> Owns(k, ChildOf(req).value))
    ensures AnswersAlike(c, d, k, req, fate)
  {
    match req
    case GetChild(x) => GetLocal(c, d, k, x, fate);
    case CreateChild(x, o) => CreateLocal(c, d, k, x, o, fate);
    case PatchChild(x, o) => PatchLocal(c, d, k, x, o, fate);
    case DeleteChild(x) => DeleteLocal(c, d, k, x, fate);
    case UpdateApp(a) => UpdateLocal(c, d, k, a, fate);
    case UpdateStatus(a) => StatusLocal(c, d, k, a, fate);
    case _ => AppLocal(c, d, k, req, fate);
  }

  /** A call about no child leaves every child alone. */
  lemma ServeChildless(c: Cluster, other: AppKey, req: Request, fate: Fate)
    requires ChildOf(req).None?
    ensures Serve(c, other, req, fate).0.children == c.children
  {
  }

  lemma SameOwnChildren(c: Cluster, d: Cluster, k: AppKey)
    requires c.children == d.children
    ensures OwnChildren(c, k) == OwnChildren(d, k)
  {
  }

  /** A call of another application's pass leaves everything of k as it is. */
  lemma ServeForeign(c: Cluster, other: AppKey, req: Request, fate: Fate, k: AppKey)
    requires other != k && (ChildOf(req).Some? ==> Owns(other, ChildOf(req).value))
    ensures SameCluster(Serve(c, other, req, fate).0, c, k)
  {
    ServeOthers(c, other, req, fate, k);
    var x := ChildOf(req);
    if x.Some? {
      if Owns(k, x.value) {
        OwnsDisjoint(other, k, x.value);
      }
      ServeNotOwn(c, other, req, fate, k, x.value);
    } else {
      ServeChildless(c, other, req, fate);
      SameOwnChildren(Serve(c, other, req, fate).0, c, k);
    }
  }

  /** A call about a child that k does not own leaves k's children alone. */
  lemma ServeNotOwn(c: Cluster, other: AppKey, req: Request, fate: Fate, k: AppKey, x: Key)
    requires ChildOf(req) == Some(x) && !Owns(k, x)
    ensures OwnChildren(Serve(c, other, req, fate).0, k) == OwnChildren(c, k)
  {
    match req
    case CreateChild(_, o) => PutOwn(c, k, x, Accepted(fate, o));
    case PatchChild(_, o) => PutOwn(c, k, x, Accepted(fate, o));
    case DeleteChild(_) => RemoveOwn(c, k, x);
    case GetChild(_) =>
  }

  /* ---------- one step ---------- */

  lemma SetPass(s: State, c: Cluster, m: Metrics, ws: seq<ChildWrite>, id: PassId, q: Pass, k: AppKey)
    ensures var t := s.(cluster := c, passes := s.passes[id := q], metrics := m, writes := ws);
            OwnPasses(t, k) == if id.key == k then OwnPasses(s, k)[id := q] else OwnPasses(s, k)
  {
  }

  lemma ForeignCall(s: State, id: PassId, fate: Fate, now: nat, k: AppKey)
    requires Keyed(s) && Runnable(s, id) && id.key != k
    ensures SameView(CallStep(s, id, fate, now), s, k)
  {
    var p := s.passes[id];
    PassStaysHome(p);
    ServeForeign(s.cluster, p.key, RequestOf(p), fate, k);
    var t := CallStep(s, id, fate, now);
    SetPass(s, t.cluster, t.metrics, t.writes, id, t.passes[id], k);
  }

  lemma ForeignDrift(s: State, x: Key, o: Option<Obj>, k: AppKey)
    requires !Owns(k, x)
    ensures SameView(Exec(s, Drift(x, o)), s, k)
  {
    RemoveOwn(s.cluster, k, x);
    if o.Some? { PutOwn(s.cluster, k, x, Stamped(o.value)); }
  }

  lemma ForeignUser(s: State, l: Label, k: AppKey)
    requires ByUser(l) && l.key != k
    ensures SameView(Exec(s, l), s, k)
  {
    UserStepElsewhere(s.cluster, l, k);
    SameOwnChildren(UserStep(s.cluster, l), s.cluster, k);
    SamePasses(s, UserStep(s.cluster, l), k);
  }

  lemma SamePasses(s: State, c: Cluster, k: AppKey)
    ensures OwnPasses(s.(cluster := c), k) == OwnPasses(s, k)
  {
  }

  /** A step that does not concern k changes nothing of k. */
  lemma ForeignStep(s: State, l: Label, k: AppKey)
    requires Keyed(s) && !Concerns(l, k)
    ensures SameView(Exec(s, l), s, k)
  {
    match l
    case Drift(x, o) => ForeignDrift(s, x, o, k);
    case Start(id) =>
      SetPass(s, s.cluster, Passes.Started(s.metrics), s.writes, id, Begin(id.key, s.limit, s.plan), k);
    case Call(id, fate, now) =>
      if Runnable(s, id) { ForeignCall(s, id, fate, now, k); }
    case _ => ForeignUser(s, l, k);
  }

  lemma SamePass(s: State, t: State, k: AppKey, id: PassId)
    requires OwnPasses(s, k) == OwnPasses(t, k) && id.key == k
    ensures id in s.passes <==> id in t.passes
    ensures id in s.passes ==> s.passes[id] == t.passes[id]
  {
    assert id in OwnPasses(s, k) <==> id in s.passes;
    assert id in OwnPasses(t, k) <==> id in t.passes;
  }

  lemma OwnCall(s: State, t: State, id: PassId, fate: Fate, now: nat)
    requires Keyed(s) && SameView(s, t, id.key) && Runnable(s, id) && Runnable(t, id) && s.passes[id] == t.passes[id]
    ensures SameView(CallStep(s, id, fate, now), CallStep(t, id, fate, now), id.key)
  {
    var p := s.passes[id];
    PassStaysHome(p);
    ServeLocal(s.cluster, t.cluster, p.key, RequestOf(p), fate);
    var u, v := CallStep(s, id, fate, now), CallStep(t, id, fate, now);
    SetPass(s, u.cluster, u.metrics, u.writes, id, u.passes[id], id.key);
    SetPass(t, v.cluster, v.metrics, v.writes, id, v.passes[id], id.key);
  }

  lemma OwnDrift(s: State, t: State, x: Key, o: Option<Obj>, k: AppKey)
    requires SameView(s, t, k)
    ensures SameView(Exec(s, Drift(x, o)), Exec(t, Drift(x, o)), k)
  {
    RemoveOwn(s.cluster, k, x);
    RemoveOwn(t.cluster, k, x);
    if o.Some? {
      PutOwn(s.cluster, k, x, Stamped(o.value));
      PutOwn(t.cluster, k, x, Stamped(o.value));
    }
  }

  lemma UserLocal(c: Cluster, d: Cluster, l: Label)
    requires ByUser(l) && SameCluster(c, d, l.key)
    ensures SameCluster(UserStep(c, l), UserStep(d, l), l.key)
  {
    var cur, version := Current(c, l.key), |History(c, l.key)|;
    match l
    case UserCreate(k, spec, fs) => AppendLocal(c, d, k, Some(Created(k, version, spec, fs)));
    case UserEdit(k, spec, fs) =>
      if cur.Some? { PutLocal(c, d, k, cur.value, Persisted(Rewritten(cur.value, spec, fs, version))); }
    case UserSpokeEdit(k, spec, fs) =>
      if cur.Some? { PutLocal(c, d, k, cur.value, Persisted(SpokeRewritten(cur.value, spec, fs, version))); }
    case UserDelete(k) =>
      AppendLocal(c, d, k, None);
      if cur.Some? { AppendLocal(c, d, k, Some(MarkedDeleting(cur.value, version))); }
  }

  lemma OwnUser(s: State, t: State, l: Label)
    requires ByUser(l) && SameView(s, t, l.key)
    ensures SameView(Exec(s, l), Exec(t, l), l.key)
  {
    UserLocal(s.cluster, t.cluster, l);
  }

  lemma OwnStart(s: State, t: State, id: PassId)
    requires SameView(s, t, id.key)
    ensures SameView(Exec(s, Start(id)), Exec(t, Start(id)), id.key)
  {
    SamePass(s, t, id.key, id);
    SetPass(s, s.cluster, Passes.Started(s.metrics), s.writes, id, Begin(id.key, s.limit, s.plan), id.key);
    SetPass(t, t.cluster, Passes.Started(t.metrics), t.writes, id, Begin(id.key, t.limit, t.plan), id.key);
  }

  /** A step that concerns k does the same from every state that looks the same to k. */
  lemma OwnStep(s: State, t: State, l: Label, k: AppKey)
    requires Keyed(s) && SameView(s, t, k) && Concerns(l, k)
    ensures SameView(Exec(s, l), Exec(t, l), k)
  {
    match l
    case Drift(x, o) => OwnDrift(s, t, x, o, k);
    case Start(id) => OwnStart(s, t, id);
    case Call(id, fate, now) =>
      SamePass(s, t, k, id);
      if Runnable(s, id) { OwnCall(s, t, id, fate, now); }
    case _ => OwnUser(s, t, l);
  }

  lemma StaysKeyed(s: State, l: Label)
    requires Keyed(s)
    ensures Keyed(Exec(s, l))
  {
    if l.Call? && Runnable(s, l.id) {
      var p := s.passes[l.id];
      NextKeepsKey(p, Serve(s.cluster, p.key, RequestOf(p), l.fate).1, l.now);
    }
  }

  lemma SafeIsKeyed(s: State)
    requires Safe(s)
    ensures Keyed(s)
  {
    forall id | id in s.passes ensures s.passes[id].key == id.key {
      assert PassFits(s, id);
    }
  }

  lemma {:induction false} RunKeyed(s: State, ls: seq<Label>)
    requires Keyed(s)
    ensures Keyed(Run(s, ls))
  {
    if ls == [] {
    } else {
      RunKeyed(s, ls[..|ls| - 1]);
      StaysKeyed(Run(s, ls[..|ls| - 1]), ls[|ls| - 1]);
    }
  }

  /* ---------- whole runs ---------- */

  /** The steps of ls that concern k, in their order. */
  ghost function Only(ls: seq<Label>, k: AppKey): seq<Label> {
    if ls == [] then []
    else Only(ls[..|ls| - 1], k) + (if Concerns(ls[|ls| - 1], k) then [ls[|ls| - 1]] else [])
  }

  /** Non-interference: application k sees the same whether the steps of the others happen
      or not. */
  lemma {:induction false} OthersAreInvisible(s: State, ls: seq<Label>, k: AppKey)
    requires Keyed(s)
    ensures SameView(Run(s, ls), Run(s, Only(ls, k)), k)
  {
    if ls == [] {
    } else {
      var init, l := ls[..|ls| - 1], ls[|ls| - 1];
      OthersAreInvisible(s, init, k);
      RunKeyed(s, init);
      if Concerns(l, k) {
        OwnStep(Run(s, init), Run(s, Only(init, k)), l, k);
        assert (Only(init, k) + [l])[..|Only(init, k)|] == Only(init, k);
      } else {
        ForeignStep(Run(s, init), l, k);
        assert Only(init, k) + [] == Only(init, k);
      }
    }
  }

  /** The steps of ls regrouped: all of the first application, then all of the next, ... */
  ghost function Regrouped(ls: seq<Label>, keys: seq<AppKey>): seq<Label> {
    if keys == [] then [] else Regrouped(ls, keys[..|keys| - 1]) + Only(ls, keys[|keys| - 1])
  }

  lemma {:induction false} OnlySplits(a: seq<Label>, b: seq<Label>, k: AppKey)
    ensures Only(a + b, k) == Only(a, k) + Only(b, k)
  {
    if b == [] {
      assert a + b == a;
    } else {
      var all, init := a + b, b[..|b| - 1];
      assert all[..|all| - 1] == a + init && all[|all| - 1] == b[|b| - 1];
      OnlySplits(a, init, k);
    }
  }

  lemma {:induction false} OnlyOfOnly(ls: seq<Label>, a: AppKey, k: AppKey)
    ensures Only(Only(ls, a), k) == if a == k then Only(ls, k) else []
  {
    if ls == [] {
    } else {
      var init, l := ls[..|ls| - 1], ls[|ls| - 1];
      OnlyOfOnly(init, a, k);
      if Concerns(l, a) {
        OnlySplits(Only(init, a), [l], k);
        assert [l][..0] == [];
        assert Only([l], k) == if Concerns(l, k) then [l] else [];
        if Concerns(l, k) { ConcernsOne(l, a, k); }
      } else {
        assert Only(init, a) + [] == Only(init, a);
      }
    }
  }

  lemma {:induction false} OnlyOfRegrouped(ls: seq<Label>, keys: seq<AppKey>, k: AppKey)
    requires Distinct(keys)
    ensures Only(Regrouped(ls, keys), k) == if k in keys then Only(ls, k) else []
  {
    if keys == [] {
    } else {
      var init, a := keys[..|keys| - 1], keys[|keys| - 1];
      assert k in keys <==> k in init || k == a;
      OnlyOfRegrouped(ls, init, k);
      OnlySplits(Regrouped(ls, init), Only(ls, a), k);
      OnlyOfOnly(ls, a, k);
    }
  }

  /** Any interleaving leaves every application of the list with the same history, status and
      children as running the applications' steps one after another. */
  lemma {:induction false} OneAfterAnother(s: State, ls: seq<Label>, keys: seq<AppKey>, k: AppKey)
    requires Keyed(s) && Distinct(keys) && k in keys
    ensures SameView(Run(s, ls), Run(s, Regrouped(ls, keys)), k)
  {
    OthersAreInvisible(s, ls, k);
    OthersAreInvisible(s, Regrouped(ls, keys), k);
    OnlyOfRegrouped(ls, keys, k);
  }

  /** What the same view means for one child: stored in both or in neither, with the same fields. */
  lemma SameViewSameChildren(s: State, t: State, k: AppKey, i: Step)
    requires SameView(s, t, k)
    ensures var x := KeyOf(i, k);
            (x in s.cluster.children <==> x in t.cluster.children)
            && (x in s.cluster.children ==> s.cluster.children[x] == t.cluster.children[x])
    ensures Current(s.cluster, k) == Current(t.cluster, k)
  {
    assert Owns(k, KeyOf(i, k));
    SameChild(s.cluster, t.cluster, k, KeyOf(i, k));
  }
}
