/** The fault-injecting client: which calls it fails, and how many of them. */
module Interceptors {
  import opened Text
  import opened Children
  import opened Errors
  import opened Passes
  import opened Convergence
  import Fixpoint

  datatype Operation = OnGet | OnCreate | OnUpdate | OnPatch | OnDelete | OnStatus | OnOther(name: string)

  datatype FaultType = TransientFault | PermanentFault | ConflictFault | OtherFault(name: string)

  /** An empty resource kind targets every kind; a count that is not positive never runs out. */
  datatype FaultConfig = FaultConfig(operation: Operation, resourceKind: string, fault: FaultType, count: int)

  /** One intercepted call. */
  datatype ApiCall = ApiCall(operation: Operation, kind: string)

  function FaultMessage(t: FaultType): string {
    match t
    case TransientFault => "injected transient error: service unavailable"
    case PermanentFault => "injected permanent error: forbidden"
    case ConflictFault => "injected conflict error: resource version mismatch"
    case OtherFault(_) => "injected unknown fault"
  }

  function FaultError(f: FaultConfig): RawError {
    Plain(FaultMessage(f.fault))
  }

  predicate Targets(f: FaultConfig, c: ApiCall) {
    f.operation == c.operation && (f.resourceKind == "" || f.resourceKind == c.kind)
  }

  /** f fails this call after n injections for the operation. */
  predicate Fires(f: FaultConfig, c: ApiCall, n: nat) {
    Targets(f, c) && (f.count <= 0 || n < f.count)
  }

  /** The first configuration that fires, or the length of the list. */
  function FirstFiring(fs: seq<FaultConfig>, c: ApiCall, n: nat): (i: nat)
    ensures i <= |fs|
    ensures i < |fs| ==> Fires(fs[i], c, n)
    ensures forall j :: 0 <= j < i ==> !Fires(fs[j], c, n)
  {
    if fs == [] || Fires(fs[0], c, n) then 0
    else
      var i := FirstFiring(fs[1..], c, n);
      assert forall j :: 0 < j < i + 1 ==> fs[j] == fs[1..][j - 1];
      i + 1
  }

  predicate Fails(fs: seq<FaultConfig>, c: ApiCall, n: nat) {
    FirstFiring(fs, c, n) < |fs|
  }

  /** How often faults were injected for op while these calls were made. */
  function Injected(fs: seq<FaultConfig>, calls: seq<ApiCall>, op: Operation): nat {
    if calls == [] then 0
    else
      var c, n := calls[|calls| - 1], Injected(fs, calls[..|calls| - 1], op);
      if c.operation == op && Fails(fs, c, n) then n + 1 else n
  }

  function Tally(counts: map<Operation, nat>, op: Operation): nat {
    if op in counts then counts[op] else 0
  }

  class Interceptor {
    const faults: seq<FaultConfig>
    var injected: map<Operation, nat>
    /** The calls intercepted since the last reset. */
    ghost var calls: seq<ApiCall>

    constructor (faults: seq<FaultConfig>)
      ensures this.faults == faults && calls == [] && Valid()
    {
      this.faults, injected, calls := faults, map[], [];
    }

    ghost predicate Valid()
      reads this
    {
      forall op :: CountOf(op) == Injected(faults, calls, op)
    }

    function CountOf(op: Operation): nat
      reads this
    {
      Tally(injected, op)
    }

    method InjectedCount(operation: Operation) returns (n: nat)
      requires Valid()
      ensures n == Injected(faults, calls, operation)
    {
      assert CountOf(operation) == Injected(faults, calls, operation);
      n := CountOf(operation);
    }

    method Reset()
      modifies this
      ensures calls == [] && Valid()
    {
      injected, calls := map[], [];
    }

    /** The first configuration that fires is counted and its error returned. */
    method ShouldFault(operation: Operation, kind: string) returns (err: Option<RawError>)
      requires Valid()
      modifies this
      ensures Valid() && calls == old(calls) + [ApiCall(operation, kind)]
      ensures var c := ApiCall(operation, kind);
              var n := Injected(faults, old(calls), operation);
              err == if Fails(faults, c, n) then Some(FaultError(faults[FirstFiring(faults, c, n)])) else None
    {
      ghost var c, n := ApiCall(operation, kind), Injected(faults, calls, operation);
      assert n == CountOf(operation);
      for i := 0 to |faults|
        invariant calls == old(calls) && injected == old(injected)
        invariant forall j :: 0 <= j < i ==> !Fires(faults[j], c, n)
      {
        var f := faults[i];
        if f.operation != operation {
          continue;
        }
        if f.resourceKind != "" && f.resourceKind != kind {
          continue;
        }
        if f.count > 0 && CountOf(operation) >= f.count {
          continue;
        }
        injected := injected[operation := CountOf(operation) + 1];
        calls := calls + [c];
        FirstIs(faults, c, n, i);
        StillCounts(faults, old(calls), c, old(injected), injected);
        return Some(FaultError(f));
      }
      calls := calls + [c];
      StillCounts(faults, old(calls), c, injected, injected);
      return None;
    }
  }

  /** Counting a call that fails, and only such a call, keeps the counters those of the calls made. */
  lemma StillCounts(
      fs: seq<FaultConfig>, calls: seq<ApiCall>, c: ApiCall, before: map<Operation, nat>, after: map<Operation, nat>)
    requires forall op :: Tally(before, op) == Injected(fs, calls, op)
    requires after == if Fails(fs, c, Injected(fs, calls, c.operation))
                      then before[c.operation := Tally(before, c.operation) + 1] else before
    ensures forall op :: Tally(after, op) == Injected(fs, calls + [c], op)
  {
    OneMore(fs, calls, c);
  }

  lemma FirstIs(fs: seq<FaultConfig>, c: ApiCall, n: nat, i: nat)
    requires i < |fs| && Fires(fs[i], c, n) && forall j :: 0 <= j < i ==> !Fires(fs[j], c, n)
    ensures FirstFiring(fs, c, n) == i
  {
  }

  lemma OneMore(fs: seq<FaultConfig>, calls: seq<ApiCall>, c: ApiCall)
    ensures forall op :: Injected(fs, calls + [c], op) == Injected(fs, calls, op)
                           + (if c.operation == op && Fails(fs, c, Injected(fs, calls, op)) then 1 else 0)
  {
    assert (calls + [c])[..|calls|] == calls;
  }

  /** A call fails exactly when some configuration is for its operation, for its kind or for
      every kind, and has not run out. */
  lemma {:induction false} FailsExactly(fs: seq<FaultConfig>, c: ApiCall, n: nat)
    ensures Fails(fs, c, n) <==>
            exists i :: 0 <= i < |fs| && fs[i].operation == c.operation
                        && (fs[i].resourceKind == "" || fs[i].resourceKind == c.kind)
                        && (fs[i].count <= 0 || n < fs[i].count)
  {
    var i := FirstFiring(fs, c, n);
    if i < |fs| {
      assert Fires(fs[i], c, n);
    } else {
      forall j | 0 <= j < |fs| ensures !Fires(fs[j], c, n) {
      }
    }
  }

  /* ---------- bounds ---------- */

  /** The largest count configured for op. */
  function Largest(fs: seq<FaultConfig>, op: Operation): nat {
    if fs == [] then 0
    else
      var rest := Largest(fs[1..], op);
      if fs[0].operation == op && fs[0].count > rest then fs[0].count else rest
  }

  lemma {:induction false} LargestBounds(fs: seq<FaultConfig>, op: Operation)
    ensures forall i :: 0 <= i < |fs| && fs[i].operation == op ==> fs[i].count <= Largest(fs, op)
    ensures Largest(fs, op) > 0 ==> exists i :: 0 <= i < |fs| && fs[i].operation == op && fs[i].count == Largest(fs, op)
  {
    if fs == [] {
    } else {
      LargestBounds(fs[1..], op);
      if Largest(fs, op) > 0 && Largest(fs, op) == Largest(fs[1..], op) {
        var i :| 0 <= i < |fs[1..]| && fs[1..][i].operation == op && fs[1..][i].count == Largest(fs, op);
        assert fs[i + 1] == fs[1..][i];
      }
    }
  }

  /** Every configuration for op has a positive count. */
  predicate Finite(fs: seq<FaultConfig>, op: Operation) {
    forall i :: 0 <= i < |fs| && fs[i].operation == op ==> fs[i].count > 0
  }

  /** No configuration for op filters by kind. */
  predicate Unfiltered(fs: seq<FaultConfig>, op: Operation) {
    forall i :: 0 <= i < |fs| && fs[i].operation == op ==> fs[i].resourceKind == ""
  }

  function CallsTo(calls: seq<ApiCall>, op: Operation): nat {
    if calls == [] then 0
    else CallsTo(calls[..|calls| - 1], op) + (if calls[|calls| - 1].operation == op then 1 else 0)
  }

  /** When every count is positive, a call fails only while fewer than the largest were
      injected, and always then if nothing filters by kind. */
  lemma FailsWithinLargest(fs: seq<FaultConfig>, c: ApiCall, n: nat)
    requires Finite(fs, c.operation)
    ensures Fails(fs, c, n) ==> n < Largest(fs, c.operation)
    ensures Unfiltered(fs, c.operation) && n < Largest(fs, c.operation) ==> Fails(fs, c, n)
  {
    LargestBounds(fs, c.operation);
    if Unfiltered(fs, c.operation) && n < Largest(fs, c.operation) {
      var i :| 0 <= i < |fs| && fs[i].operation == c.operation && fs[i].count == Largest(fs, c.operation);
      assert Fires(fs[i], c, n);
    }
  }

  function Min(a: nat, b: nat): nat {
    if a < b then a else b
  }

  /** For every list of configurations and every sequence of calls since the last reset:
      with positive counts the injections for an operation never exceed the largest count,
      and are exactly the smaller of that and the number of calls when nothing filters by
      kind. */
  lemma {:induction false} InjectionsBounded(fs: seq<FaultConfig>, calls: seq<ApiCall>, op: Operation)
    requires Finite(fs, op)
    ensures Injected(fs, calls, op) <= Min(CallsTo(calls, op), Largest(fs, op))
    ensures Unfiltered(fs, op) ==> Injected(fs, calls, op) == Min(CallsTo(calls, op), Largest(fs, op))
  {
    if calls == [] {
    } else {
      var init, c := calls[..|calls| - 1], calls[|calls| - 1];
      InjectionsBounded(fs, init, op);
      if c.operation == op {
        FailsWithinLargest(fs, c, Injected(fs, init, op));
      }
    }
  }

  /** Only calls that some configuration without a positive count targets can fail forever:
      once the largest count is used up, a call fails exactly when there is one. */
  lemma FailsForever(fs: seq<FaultConfig>, c: ApiCall, n: nat)
    requires n >= Largest(fs, c.operation)
    ensures Fails(fs, c, n) <==> exists i :: 0 <= i < |fs| && Targets(fs[i], c) && fs[i].count <= 0
  {
    LargestBounds(fs, c.operation);
    if i :| 0 <= i < |fs| && Targets(fs[i], c) && fs[i].count <= 0 {
      assert Fires(fs[i], c, n);
    }
    var i := FirstFiring(fs, c, n);
    if i < |fs| {
      assert Targets(fs[i], c) && fs[i].count <= 0;
    }
  }

  /* ---------- what the controller makes of injected faults ---------- */

  /** An injected error is no API status: whatever it is meant to simulate, an apply never
      retries it as a conflict, nothing takes it for a missing object, and it always ends up
      transient. */
  lemma InjectedFaultsAreTransient(f: FaultConfig, contexts: seq<Context>, resource: string, kind: Subject)
    ensures var e := WrapAll(FaultError(f), contexts);
            && !IsConflict(e) && !IsNotFound(e) && IsRaw(e)
            && Classify(e) == UnknownClass
            && match f.fault
               case TransientFault => FaultError(f) == Plain("injected transient error: service unavailable")
               case PermanentFault => FaultError(f) == Plain("injected permanent error: forbidden")
               case ConflictFault => FaultError(f) == Plain("injected conflict error: resource version mismatch")
               case OtherFault(_) => FaultError(f) == Plain("injected unknown fault")
    ensures var e := WrapAll(FaultError(f), contexts);
            ClassifyOrWrap(e, resource, kind).errorClass == Transient
  {
    WrappingKeepsClass(FaultError(f), contexts);
    ClassifyOrWrapStable(FaultError(f), contexts, resource, kind, resource, kind);
  }

  /** What of one call reaches the interceptor. */
  function Listed(c: Option<ApiCall>): seq<ApiCall> {
    if c.Some? then [c.value] else []
  }

  /** The intercepted ones among the first n calls. */
  function Prefix(calls: nat -> Option<ApiCall>, n: nat): seq<ApiCall> {
    if n == 0 then [] else Prefix(calls, n - 1) + Listed(calls(n - 1))
  }

  /** Call number n fails exactly when the interceptor fails it, before it reaches the server. */
  predicate FaultedBy(fs: seq<FaultConfig>, calls: nat -> Option<ApiCall>, n: nat, fate: Fate) {
    match calls(n)
    case None => fate.Served?
    case Some(c) =>
      var m := Injected(fs, Prefix(calls, n), c.operation);
      if Fails(fs, c, m) then fate.Faulted? && !fate.took && fate.error == FaultError(fs[FirstFiring(fs, c, m)])
      else fate.Served?
  }

  ghost predicate OnlyInjected(fs: seq<FaultConfig>, calls: nat -> Option<ApiCall>, ticks: Ticks) {
    forall n :: FaultedBy(fs, calls, n, ticks(n).fate)
  }

  lemma InjectedIsSolo(fs: seq<FaultConfig>, calls: nat -> Option<ApiCall>, ticks: Ticks, plan: Plan)
    requires OnlyInjected(fs, calls, ticks)
    ensures Solo(ticks, plan)
  {
    forall n ensures FateFits(plan, ticks(n).fate) {
      assert FaultedBy(fs, calls, n, ticks(n).fate);
    }
  }

  function SumOver(f: Operation -> nat, ops: seq<Operation>): nat {
    if ops == [] then 0 else SumOver(f, ops[..|ops| - 1]) + f(ops[|ops| - 1])
  }

  /** All faults a list of configurations with positive counts can ever inject. */
  function Budget(fs: seq<FaultConfig>, ops: seq<Operation>): nat {
    SumOver(op => Largest(fs, op), ops)
  }

  lemma {:induction false} SumMonotone(f: Operation -> nat, g: Operation -> nat, ops: seq<Operation>)
    requires forall op :: op in ops ==> f(op) <= g(op)
    ensures SumOver(f, ops) <= SumOver(g, ops)
  {
    if ops == [] {
    } else {
      SumMonotone(f, g, ops[..|ops| - 1]);
    }
  }

  /** Raising one summand raises the sum by as much. */
  lemma {:induction false} SumBump(f: Operation -> nat, g: Operation -> nat, ops: seq<Operation>, x: Operation, d: nat)
    requires Distinct(ops)
    requires forall op :: op in ops ==> g(op) == f(op) + (if op == x then d else 0)
    ensures SumOver(g, ops) == SumOver(f, ops) + (if x in ops then d else 0)
  {
    if ops == [] {
    } else {
      var init := ops[..|ops| - 1];
      SumBump(f, g, init, x, d);
      assert forall op :: op in init ==> op in ops;
      assert x in ops <==> x in init || x == ops[|ops| - 1];
    }
  }

  function InjectedSoFar(fs: seq<FaultConfig>, calls: nat -> Option<ApiCall>, n: nat): Operation -> nat {
    op => Injected(fs, Prefix(calls, n), op)
  }

  /** Every configuration names an operation of the list. */
  predicate AllKnown(fs: seq<FaultConfig>, ops: seq<Operation>) {
    forall i :: 0 <= i < |fs| ==> fs[i].operation in ops
  }

  lemma InjectionStep(fs: seq<FaultConfig>, calls: nat -> Option<ApiCall>, n: nat, fate: Fate, ops: seq<Operation>)
    requires FaultedBy(fs, calls, n, fate) && AllKnown(fs, ops) && Distinct(ops)
    ensures SumOver(InjectedSoFar(fs, calls, n + 1), ops) ==
            SumOver(InjectedSoFar(fs, calls, n), ops) + (if fate.Faulted? then 1 else 0)
  {
    var f, g, before := InjectedSoFar(fs, calls, n), InjectedSoFar(fs, calls, n + 1), Prefix(calls, n);
    match calls(n)
    case None =>
      assert before + [] == before;
      SumBump(f, g, ops, OnGet, 0);
    case Some(c) =>
      var m := Injected(fs, before, c.operation);
      OneMore(fs, before, c);
      SumBump(f, g, ops, c.operation, if Fails(fs, c, m) then 1 else 0);
      assert Fails(fs, c, m) ==> fs[FirstFiring(fs, c, m)].operation in ops;
  }

  /** Failed calls and injections are the same number. */
  lemma {:induction false} FaultsAreInjections(
      fs: seq<FaultConfig>, calls: nat -> Option<ApiCall>, ticks: Ticks, n: nat, ops: seq<Operation>)
    requires OnlyInjected(fs, calls, ticks) && AllKnown(fs, ops) && Distinct(ops)
    ensures Faults(ticks, 0, n) == SumOver(InjectedSoFar(fs, calls, n), ops)
  {
    if n == 0 {
      NoneYet(fs, calls, ops);
    } else {
      FaultsAreInjections(fs, calls, ticks, n - 1, ops);
      assert FaultedBy(fs, calls, n - 1, ticks(n - 1).fate);
      InjectionStep(fs, calls, n - 1, ticks(n - 1).fate, ops);
    }
  }

  lemma {:induction false} NoneYet(fs: seq<FaultConfig>, calls: nat -> Option<ApiCall>, ops: seq<Operation>)
    ensures SumOver(InjectedSoFar(fs, calls, 0), ops) == 0
  {
    if ops == [] {
    } else {
      NoneYet(fs, calls, ops[..|ops| - 1]);
    }
  }

  lemma InjectionsWithinBudget(fs: seq<FaultConfig>, calls: nat -> Option<ApiCall>, n: nat, ops: seq<Operation>)
    requires forall op :: op in ops ==> Finite(fs, op)
    ensures SumOver(InjectedSoFar(fs, calls, n), ops) <= Budget(fs, ops)
  {
    forall op | op in ops ensures InjectedSoFar(fs, calls, n)(op) <= Largest(fs, op) {
      InjectionsBounded(fs, Prefix(calls, n), op);
    }
    SumMonotone(InjectedSoFar(fs, calls, n), op => Largest(fs, op), ops);
  }

  /* ---------- the calls that passes really make ---------- */

  /** What a resource kind is compared with: the Go type of the object passed. */
  function GoType(k: Kind): string {
    match k
    case DeploymentKind => "*v1.Deployment"
    case ServiceKind => "*v1.Service"
    case HPAKind => "*v2.HorizontalPodAutoscaler"
    case HTTPRouteKind => "*v1.HTTPRoute"
    case NetworkPolicyKind => "*v1.NetworkPolicy"
    case PDBKind => "*v1.PodDisruptionBudget"
    case ServiceMonitorKind => "*unstructured.Unstructured"
  }

  /** How the interceptor sees a request; pauses do not go through it. */
  function Intercepted(r: Request): Option<ApiCall> {
    match r
    case GetApp => Some(ApiCall(OnGet, "*v1alpha1.PlatformApplication"))
    case UpdateApp(_) => Some(ApiCall(OnUpdate, "*v1alpha1.PlatformApplication"))
    case UpdateStatus(_) => Some(ApiCall(OnStatus, "*v1alpha1.PlatformApplication"))
    case GetChild(k) => Some(ApiCall(OnGet, GoType(k.kind)))
    case CreateChild(k, _) => Some(ApiCall(OnCreate, GoType(k.kind)))
    case PatchChild(k, _) => Some(ApiCall(OnPatch, GoType(k.kind)))
    case DeleteChild(k) => Some(ApiCall(OnDelete, GoType(k.kind)))
    case Sleep(_) => None
  }

  /** What an operation named in a configuration is about. */
  predicate Concerns(op: Operation, r: Request) {
    match op
    case OnGet => r.GetApp? || r.GetChild?
    case OnCreate => r.CreateChild?
    case OnUpdate => r.UpdateApp?
    case OnPatch => r.PatchChild?
    case OnDelete => r.DeleteChild?
    case OnStatus => r.UpdateStatus?
    case OnOther(_) => false
  }

  /** What a resource kind named in a configuration is about. */
  predicate IsAbout(kind: string, r: Request) {
    || kind == ""
    || (kind == "*v1alpha1.PlatformApplication" && (r.GetApp? || r.UpdateApp? || r.UpdateStatus?))
    || ((r.GetChild? || r.CreateChild? || r.PatchChild? || r.DeleteChild?) &&
        match r.key.kind
        case DeploymentKind => kind == "*v1.Deployment"
        case ServiceKind => kind == "*v1.Service"
        case HPAKind => kind == "*v2.HorizontalPodAutoscaler"
        case HTTPRouteKind => kind == "*v1.HTTPRoute"
        case NetworkPolicyKind => kind == "*v1.NetworkPolicy"
        case PDBKind => kind == "*v1.PodDisruptionBudget"
        case ServiceMonitorKind => kind == "*unstructured.Unstructured")
  }

  /** A request of a pass fails exactly when some configuration that has not run out is for what
      the request does and for the type of object it is about. */
  lemma RequestFailsExactly(fs: seq<FaultConfig>, r: Request, n: nat)
    requires !r.Sleep?
    ensures Intercepted(r).Some?
    ensures Fails(fs, Intercepted(r).value, n) <==>
            exists i :: 0 <= i < |fs| && Concerns(fs[i].operation, r) && IsAbout(fs[i].resourceKind, r)
                        && (fs[i].count <= 0 || n < fs[i].count)
  {
    var c := Intercepted(r).value;
    FailsExactly(fs, c, n);
    forall i | 0 <= i < |fs|
      ensures fs[i].operation == c.operation && (fs[i].resourceKind == "" || fs[i].resourceKind == c.kind) <==>
              Concerns(fs[i].operation, r) && IsAbout(fs[i].resourceKind, r)
    {
    }
  }

  function Start(w: World, g: Goal, limit: nat): (r: (World, Pass))
    ensures !r.1.pc.Finished?
  {
    (w.(metrics := Passes.Started(w.metrics)), Begin(g.key, limit, g.plan))
  }

  /** Behind a finished pass the next one starts. */
  function Onward(v: World, q: Pass, g: Goal, limit: nat): (r: (World, Pass))
    ensures !r.1.pc.Finished?
  {
    if q.pc.Finished? then Start(v, g, limit) else (v, q)
  }

  /** The world and the pass under way after n calls of one pass after another. */
  function Nth(ticks: Ticks, w: World, g: Goal, limit: nat, n: nat): (r: (World, Pass))
    ensures !r.1.pc.Finished?
  {
    if n == 0 then Start(w, g, limit)
    else
      var (v, p) := Nth(ticks, w, g, limit, n - 1);
      var (v', q) := Step1(ticks, v, p);
      Onward(v', q, g, limit)
  }

  /** The calls of these passes as the interceptor sees them. */
  function RealCalls(ticks: Ticks, w: World, g: Goal, limit: nat): nat -> Option<ApiCall> {
    (n: nat) => Intercepted(RequestOf(Nth(ticks, w, g, limit, n).1))
  }

  lemma NextNth(ticks: Ticks, w: World, g: Goal, limit: nat, n: nat, v: World, p: Pass)
    requires Nth(ticks, w, g, limit, n) == (v, p)
    ensures !p.pc.Finished?
    ensures Nth(ticks, w, g, limit, n + 1) == Onward(Step1(ticks, v, p).0, Step1(ticks, v, p).1, g, limit)
  {
  }

  /** From n calls on, the pass under way ends after some more. */
  lemma {:induction false} FinishIsNth(ticks: Ticks, w: World, g: Goal, limit: nat, n: nat, v: World, p: Pass)
    returns (m: nat)
    requires Nth(ticks, w, g, limit, n) == (v, p)
    ensures Nth(ticks, w, g, limit, m) == Start(Finish(ticks, v, p).0, g, limit)
    decreases StageRank(p), AttemptRank(p), PhaseRank(p)
  {
    NextNth(ticks, w, g, limit, n, v, p);
    Fixpoint.StepCloser(ticks, v, p);
    var v', q := Step1(ticks, v, p).0, Step1(ticks, v, p).1;
    if q.pc.Finished? {
      m := n + 1;
    } else {
      m := FinishIsNth(ticks, w, g, limit, n + 1, v', q);
    }
  }

  lemma NextRepeat(ticks: Ticks, w: World, g: Goal, limit: nat, n: nat, v: World, u: World, p: Pass)
    requires v == Repeat(ticks, w, g, limit, n) && (u, p) == Start(v, g, limit)
    ensures Repeat(ticks, w, g, limit, n + 1) == Finish(ticks, u, p).0
  {
  }

  lemma OneMoreRepeat(ticks: Ticks, w: World, g: Goal, limit: nat, n: nat, before: nat) returns (m: nat)
    requires Nth(ticks, w, g, limit, before) == Start(Repeat(ticks, w, g, limit, n), g, limit)
    ensures Nth(ticks, w, g, limit, m) == Start(Repeat(ticks, w, g, limit, n + 1), g, limit)
  {
    var v := Repeat(ticks, w, g, limit, n);
    var (u, p) := Start(v, g, limit);
    m := FinishIsNth(ticks, w, g, limit, before, u, p);
    NextRepeat(ticks, w, g, limit, n, v, u, p);
  }

  /** The passes of `Repeat` are those passes. */
  lemma RepeatIsNth(ticks: Ticks, w: World, g: Goal, limit: nat, n: nat) returns (m: nat)
    ensures Nth(ticks, w, g, limit, m) == Start(Repeat(ticks, w, g, limit, n), g, limit)
  {
    m := 0;
    for i := 0 to n
      invariant Nth(ticks, w, g, limit, m) == Start(Repeat(ticks, w, g, limit, i), g, limit)
    {
      m := OneMoreRepeat(ticks, w, g, limit, i, m);
    }
  }

  /* ---------- such passes exist ---------- */

  /** What the interceptor does to call c after the calls logged so far. */
  function InjectedFate(fs: seq<FaultConfig>, log: seq<ApiCall>, c: Option<ApiCall>): Fate {
    match c
    case None => Served(map[])
    case Some(a) =>
      var m := Injected(fs, log, a.operation);
      if Fails(fs, a, m) then Faulted(FaultError(fs[FirstFiring(fs, a, m)]), false, map[]) else Served(map[])
  }

  /** The passes run behind the interceptor, with its log. */
  function Drive(fs: seq<FaultConfig>, w: World, g: Goal, limit: nat, n: nat): (r: (World, Pass, seq<ApiCall>))
    ensures !r.1.pc.Finished?
  {
    if n == 0 then (Start(w, g, limit).0, Start(w, g, limit).1, [])
    else
      var (v, p, log) := Drive(fs, w, g, limit, n - 1);
      var c := Intercepted(RequestOf(p));
      var (v', q) := StepAt(Tick(InjectedFate(fs, log, c), n), v, p);
      (Onward(v', q, g, limit).0, Onward(v', q, g, limit).1, log + Listed(c))
  }

  function DriveTicks(fs: seq<FaultConfig>, w: World, g: Goal, limit: nat): Ticks {
    (n: nat) => Tick(InjectedFate(fs, Drive(fs, w, g, limit, n).2,
        Intercepted(RequestOf(Drive(fs, w, g, limit, n).1))), n + 1)
  }

  lemma NextDrive(fs: seq<FaultConfig>, w: World, g: Goal, limit: nat, n: nat, v: World, p: Pass, log: seq<ApiCall>)
    requires Drive(fs, w, g, limit, n) == (v, p, log) && !p.pc.Finished?
    ensures var c := Intercepted(RequestOf(p));
            var (v', q) := StepAt(Tick(InjectedFate(fs, log, c), n + 1), v, p);
            Drive(fs, w, g, limit, n + 1) == (Onward(v', q, g, limit).0, Onward(v', q, g, limit).1, log + Listed(c))
  {
  }

  lemma DriveStep(
      ticks: Ticks, w: World, g: Goal, limit: nat, n: nat, fs: seq<FaultConfig>, v: World, p: Pass, log: seq<ApiCall>)
    requires Nth(ticks, w, g, limit, n) == (v, p) && Drive(fs, w, g, limit, n) == (v, p, log) && !p.pc.Finished?
    requires ticks(v.calls) == Tick(InjectedFate(fs, log, Intercepted(RequestOf(p))), n + 1)
    ensures Nth(ticks, w, g, limit, n + 1) == (Drive(fs, w, g, limit, n + 1).0, Drive(fs, w, g, limit, n + 1).1)
    ensures Drive(fs, w, g, limit, n + 1).0.calls == v.calls + 1
    ensures Drive(fs, w, g, limit, n + 1).2 == log + Listed(Intercepted(RequestOf(p)))
  {
    NextNth(ticks, w, g, limit, n, v, p);
    NextDrive(fs, w, g, limit, n, v, p, log);
    OneCallMore(ticks, v, p);
  }

  /** After n calls: the world, the pass under way, and the interceptor's log, which holds the
      calls of the passes that `Nth` makes. */
  ghost predicate DriveFits(
      ticks: Ticks, fs: seq<FaultConfig>, w: World, g: Goal, limit: nat, n: nat, v: World, p: Pass, log: seq<ApiCall>)
  {
    && Drive(fs, w, g, limit, n) == (v, p, log) && Nth(ticks, w, g, limit, n) == (v, p)
    && v.calls == n && log == Prefix(RealCalls(ticks, w, g, limit), n)
  }

  lemma DriveMore(
      ticks: Ticks, fs: seq<FaultConfig>, w: World, g: Goal, limit: nat, n: nat, v: World, p: Pass, log: seq<ApiCall>)
    returns (v': World, p': Pass, log': seq<ApiCall>)
    requires ticks == DriveTicks(fs, w, g, limit) && DriveFits(ticks, fs, w, g, limit, n, v, p, log)
    ensures DriveFits(ticks, fs, w, g, limit, n + 1, v', p', log')
  {
    DriveStep(ticks, w, g, limit, n, fs, v, p, log);
    v', p', log' := Drive(fs, w, g, limit, n + 1).0, Drive(fs, w, g, limit, n + 1).1, Drive(fs, w, g, limit, n + 1).2;
  }

  lemma DriveIsNth(ticks: Ticks, fs: seq<FaultConfig>, w: World, g: Goal, limit: nat, n: nat)
    returns (v: World, p: Pass, log: seq<ApiCall>)
    requires ticks == DriveTicks(fs, w, g, limit) && w.calls == 0
    ensures DriveFits(ticks, fs, w, g, limit, n, v, p, log)
  {
    v, p, log := Start(w, g, limit).0, Start(w, g, limit).1, [];
    for i := 0 to n
      invariant DriveFits(ticks, fs, w, g, limit, i, v, p, log)
    {
      v, p, log := DriveMore(ticks, fs, w, g, limit, i, v, p, log);
    }
  }

  /** For every list of configurations there are passes whose calls fail exactly as the
      interceptor has it for the calls these very passes make. */
  lemma InterceptedPassesExist(fs: seq<FaultConfig>, w: World, g: Goal, limit: nat) returns (ticks: Ticks)
    requires w.calls == 0
    ensures OnlyInjected(fs, RealCalls(ticks, w, g, limit), ticks)
  {
    ticks := DriveTicks(fs, w, g, limit);
    forall n: nat ensures FaultedBy(fs, RealCalls(ticks, w, g, limit), n, ticks(n).fate) {
      var _, _, _ := DriveIsNth(ticks, fs, w, g, limit, n);
    }
  }

  /** Whatever the interceptor injects into the calls that the passes make, as long as every
      count is positive, the controller has all seven children right after as many passes as
      faults can be injected, and two. */
  lemma {:induction false} InjectedFaultsDelayOnly(
      fs: seq<FaultConfig>, ops: seq<Operation>, ticks: Ticks, w: World, g: Goal, limit: nat, n: nat)
    requires AllKnown(fs, ops) && Distinct(ops) && (forall op :: op in ops ==> Finite(fs, op))
    requires OnlyInjected(fs, RealCalls(ticks, w, g, limit), ticks) && w.calls == 0
    requires Live(g, w.cluster) && n >= Budget(fs, ops) + 2
    ensures AllRight(g, Repeat(ticks, w, g, limit, n).cluster)
  {
    var calls, end := RealCalls(ticks, w, g, limit), Repeat(ticks, w, g, limit, n).calls;
    InjectedIsSolo(fs, calls, ticks, g.plan);
    FaultsAreInjections(fs, calls, ticks, end, ops);
    InjectionsWithinBudget(fs, calls, end, ops);
    BoundedConvergence(ticks, w, g, limit, n, Budget(fs, ops));
  }
}
