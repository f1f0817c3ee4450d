/** The condition list of a PlatformApplication's status and its in-place updates. */
module Conditions {
  import opened Meta
  import opened V1Alpha1

  /** The first position holding conditionType, or the length of the list. */
  function Find(cs: seq<Condition>, conditionType: ConditionType): (i: nat)
    ensures i <= |cs|
    ensures i < |cs| ==> cs[i].conditionType == conditionType
    ensures forall j :: 0 <= j < i ==> cs[j].conditionType != conditionType
  {
    if cs == [] || cs[0].conditionType == conditionType then 0
    else
      var i := Find(cs[1..], conditionType);
      assert forall j :: 0 < j < i + 1 ==> cs[j] == cs[1..][j - 1];
      i + 1
  }

  lemma FindIs(cs: seq<Condition>, conditionType: ConditionType, i: nat)
    requires i < |cs| && cs[i].conditionType == conditionType
    requires forall j :: 0 <= j < i ==> cs[j].conditionType != conditionType
    ensures Find(cs, conditionType) == i
  {
  }

  predicate Has(cs: seq<Condition>, conditionType: ConditionType) {
    Find(cs, conditionType) < |cs|
  }

  function StatusOf(cs: seq<Condition>, conditionType: ConditionType): ConditionStatus {
    var i := Find(cs, conditionType);
    if i < |cs| then cs[i].status else Unknown
  }

  /** The list after setting one condition at time now. */
  function Set(cs: seq<Condition>, t: ConditionType, s: ConditionStatus, reason: string, message: string, now: nat)
    : seq<Condition>
  {
    var i := Find(cs, t);
    if i == |cs| then cs + [Condition(t, s, reason, message, now)]
    else if cs[i].status != s || cs[i].reason != reason || cs[i].message != message then
      cs[i := Condition(t, s, reason, message, now)]
    else cs
  }

  predicate IsReady(cs: seq<Condition>) {
    Has(cs, Ready) && StatusOf(cs, Ready) == True
  }

  /** Condition types occur at most once. */
  predicate Unique(cs: seq<Condition>) {
    forall i, j :: 0 <= i < j < |cs| ==> cs[i].conditionType != cs[j].conditionType
  }

  /** Setting a condition changes only its own entry, keeps the list free of duplicates,
      and moves the entry's time exactly when status, reason or message differ. */
  lemma SetChangesOnlyOne(cs: seq<Condition>, t: ConditionType, s: ConditionStatus, reason: string, message: string,
          now: nat)
    ensures var r := Set(cs, t, s, reason, message, now);
            var i := Find(cs, t);
            && Find(r, t) == i < |r|
            && (forall j :: 0 <= j < |cs| && j != i ==> j < |r| && r[j] == cs[j])
            && |r| == (if Has(cs, t) then |cs| else |cs| + 1)
            && r[i].conditionType == t && r[i].status == s && r[i].reason == reason && r[i].message == message
            && (r[i].lastTransitionTime ==
                 if Has(cs, t) && cs[i].status == s && cs[i].reason == reason && cs[i].message == message
                 then cs[i].lastTransitionTime else now)
            && (Unique(cs) ==> Unique(r))
  {
    var r, i := Set(cs, t, s, reason, message, now), Find(cs, t);
    assert forall j :: 0 <= j < i ==> r[j] == cs[j];
    FindIs(r, t, i);
  }

  /** A status object; its condition list is updated in place. */
  class StatusObject {
    var observedGeneration: int
    var readyReplicas: int32
    var url: string
    var conditions: seq<Condition>
    var deployedVersion: string

    constructor (s: Status)
      ensures Value() == s
    {
      observedGeneration, readyReplicas, url := s.observedGeneration, s.readyReplicas, s.url;
      conditions, deployedVersion := s.conditions, s.deployedVersion;
    }

    function Value(): Status
      reads this
    {
      Status(observedGeneration, readyReplicas, url, conditions, deployedVersion)
    }

    method SetCondition(t: ConditionType, s: ConditionStatus, reason: string, message: string, now: nat)
      modifies this`conditions
      ensures conditions == Set(old(conditions), t, s, reason, message, now)
    {
      for i := 0 to |conditions|
        invariant conditions == old(conditions)
        invariant forall j :: 0 <= j < i ==> conditions[j].conditionType != t
      {
        var c := conditions[i];
        if c.conditionType == t {
          assert Find(conditions, t) == i;
          if c.status != s || c.reason != reason || c.message != message {
            conditions := conditions[i := conditions[i].(status := s)];
            conditions := conditions[i := conditions[i].(reason := reason)];
            conditions := conditions[i := conditions[i].(message := message)];
            conditions := conditions[i := conditions[i].(lastTransitionTime := now)];
            assert conditions == old(conditions)[i := Condition(t, s, reason, message, now)];
          }
          return;
        }
      }
      conditions := conditions + [Condition(t, s, reason, message, now)];
    }

    method IsReadyNow() returns (ready: bool)
      ensures ready == IsReady(conditions)
    {
      for i := 0 to |conditions|
        invariant forall j :: 0 <= j < i ==> conditions[j].conditionType != Ready
      {
        if conditions[i].conditionType == Ready {
          assert Find(conditions, Ready) == i;
          return conditions[i].status == True;
        }
      }
      return false;
    }
  }

  /* ---------- the list over whole passes ---------- */

  /** How a pass ends, as far as the conditions are concerned. */
  datatype Outcome =
    | Errored(message: string)
    | Available
    | Deploying(progress: string, shortfall: string)

  /** The two conditions set when a pass starts working. */
  function Begun(cs: seq<Condition>, now: nat): seq<Condition> {
    Set(Set(cs, Progressing, True, "Reconciling", "Reconciliation in progress", now),
        ConfigurationValid, True, "Valid", "Configuration is valid", now)
  }

  /** Status, reason and message of one condition. */
  type Verdict3 = (ConditionStatus, string, string)

  /** What a pass with this outcome says under Progressing, Degraded and Ready. */
  function Triple(o: Outcome): (Verdict3, Verdict3, Verdict3) {
    match o
    case Errored(m) =>
      ((False, "ReconcileError", m), (True, "ReconcileError", m), (False, "ReconcileError", "Reconciliation failed"))
    case Available =>
      ((False, "Deployed", "All resources reconciled successfully"), (False, "Healthy", "Application is healthy"),
       (True, "Available", "Application is available"))
    case Deploying(progress, shortfall) =>
      ((True, "Deploying", progress), (False, "Deploying", "Deployment is rolling out"),
       (False, "InsufficientReplicas", shortfall))
  }

  function SetThree(cs: seq<Condition>, p: Verdict3, d: Verdict3, r: Verdict3, now: nat): seq<Condition> {
    Set(Set(Set(cs, Progressing, p.0, p.1, p.2, now), Degraded, d.0, d.1, d.2, now), Ready, r.0, r.1, r.2, now)
  }

  /** The three conditions set when a pass has its outcome. */
  function Settled(cs: seq<Condition>, o: Outcome, now: nat): seq<Condition> {
    var w := Triple(o);
    SetThree(cs, w.0, w.1, w.2, now)
  }

  /** One completed pass. */
  datatype Completed = Completed(begun: nat, outcome: Outcome, settled: nat)

  function After(cs: seq<Condition>, passes: seq<Completed>): seq<Condition> {
    if passes == [] then cs
    else
      var p := passes[|passes| - 1];
      Settled(Begun(After(cs, passes[..|passes| - 1]), p.begun), p.outcome, p.settled)
  }

  /** Exactly the four conditions, in this order. */
  predicate FourInOrder(cs: seq<Condition>) {
    && |cs| == 4
    && cs[0].conditionType == Progressing && cs[1].conditionType == ConfigurationValid
    && cs[2].conditionType == Degraded && cs[3].conditionType == Ready
  }

  /** Exactly one of Ready, Progressing and Degraded is True. */
  predicate OneVerdict(cs: seq<Condition>) {
    var r, p, d := StatusOf(cs, Ready) == True, StatusOf(cs, Progressing) == True, StatusOf(cs, Degraded) == True;
    (r && !p && !d) || (!r && p && !d) || (!r && !p && d)
  }

  /** A list that no pass has touched yet, or that the last pass left complete. */
  predicate Fresh(cs: seq<Condition>) {
    cs == [] || (FourInOrder(cs) && OneVerdict(cs))
  }

  function VerdictOf(o: Outcome): ConditionType {
    match o
    case Errored(_) => Degraded
    case Available => Ready
    case Deploying(_, _) => Progressing
  }

  /** After the start of a pass. */
  predicate Started(cs: seq<Condition>) {
    && (|cs| == 2 || FourInOrder(cs))
    && cs[0].conditionType == Progressing && cs[1].conditionType == ConfigurationValid
  }

  function Content(c: Condition): Verdict3 {
    (c.status, c.reason, c.message)
  }

  /** While a pass works: started, and its configuration has been found valid. */
  predicate Proceeding(cs: seq<Condition>) {
    Started(cs) && Content(cs[1]) == (True, "Valid", "Configuration is valid")
  }

  /** The time entry i shows after it has been set to want. */
  function Stamp(cs: seq<Condition>, i: nat, want: Verdict3, now: nat): nat {
    if i < |cs| && Content(cs[i]) == want then cs[i].lastTransitionTime else now
  }

  /** Setting Progressing, Degraded and Ready in this order completes a started list. */
  lemma ThreeSets(cs: seq<Condition>, p: Verdict3, d: Verdict3, r: Verdict3, now: nat)
    requires Started(cs)
    ensures var t := SetThree(cs, p, d, r, now);
            && FourInOrder(t) && t[1] == cs[1]
            && Content(t[0]) == p && Content(t[2]) == d && Content(t[3]) == r
            && t[0].lastTransitionTime == Stamp(cs, 0, p, now)
            && t[2].lastTransitionTime == Stamp(cs, 2, d, now)
            && t[3].lastTransitionTime == Stamp(cs, 3, r, now)
  {
    var c1 := Set(cs, Progressing, p.0, p.1, p.2, now);
    var c2 := Set(c1, Degraded, d.0, d.1, d.2, now);
    SetChangesOnlyOne(cs, Progressing, p.0, p.1, p.2, now);
    assert Find(cs, Progressing) == 0;
    assert Started(c1);
    SetChangesOnlyOne(c1, Degraded, d.0, d.1, d.2, now);
    assert Find(c1, Degraded) == 2;
    SetChangesOnlyOne(c2, Ready, r.0, r.1, r.2, now);
    assert Find(c2, Ready) == 3;
  }

  lemma FourStatuses(t: seq<Condition>)
    requires FourInOrder(t)
    ensures StatusOf(t, Progressing) == t[0].status && StatusOf(t, ConfigurationValid) == t[1].status
    ensures StatusOf(t, Degraded) == t[2].status && StatusOf(t, Ready) == t[3].status && Has(t, Ready)
    ensures Unique(t)
  {
    FindIs(t, Progressing, 0);
    FindIs(t, ConfigurationValid, 1);
    FindIs(t, Degraded, 2);
    FindIs(t, Ready, 3);
  }

  /** What one outcome leaves behind. */
  lemma SettledVerdict(cs: seq<Condition>, o: Outcome, now: nat)
    requires Started(cs)
    ensures var t := Settled(cs, o, now);
            && FourInOrder(t) && OneVerdict(t) && t[1] == cs[1]
            && StatusOf(t, VerdictOf(o)) == True
            && (IsReady(t) <==> o.Available?)
  {
    var w := Triple(o);
    ThreeSets(cs, w.0, w.1, w.2, now);
    FourStatuses(Settled(cs, o, now));
  }

  /** The entries the start of a pass writes. */
  lemma BegunEntries(cs: seq<Condition>, now: nat)
    requires cs == [] || FourInOrder(cs)
    ensures var t := Begun(cs, now);
            && Started(t) && |t| == (if cs == [] then 2 else 4)
            && Content(t[0]) == (True, "Reconciling", "Reconciliation in progress")
            && Content(t[1]) == (True, "Valid", "Configuration is valid")
            && t[1].lastTransitionTime == Stamp(cs, 1, (True, "Valid", "Configuration is valid"), now)
            && (cs != [] ==> t[2] == cs[2] && t[3] == cs[3])
  {
    var c1 := Set(cs, Progressing, True, "Reconciling", "Reconciliation in progress", now);
    SetChangesOnlyOne(cs, Progressing, True, "Reconciling", "Reconciliation in progress", now);
    assert Find(cs, Progressing) == 0;
    SetChangesOnlyOne(c1, ConfigurationValid, True, "Valid", "Configuration is valid", now);
    assert Find(c1, ConfigurationValid) == 1;
  }

  lemma OnePass(cs: seq<Condition>, p: Completed)
    requires cs == [] || FourInOrder(cs)
    ensures var t := Settled(Begun(cs, p.begun), p.outcome, p.settled);
            && FourInOrder(t) && OneVerdict(t) && Unique(t)
            && StatusOf(t, VerdictOf(p.outcome)) == True && StatusOf(t, ConfigurationValid) == True
            && (IsReady(t) <==> p.outcome.Available?)
  {
    BegunEntries(cs, p.begun);
    SettledVerdict(Begun(cs, p.begun), p.outcome, p.settled);
    FourStatuses(Settled(Begun(cs, p.begun), p.outcome, p.settled));
  }

  /** From an empty status, after any sequence of completed passes: exactly the four
      conditions, without duplicates, exactly one verdict, and `IsReady` agreeing with it. */
  lemma {:induction false} ConditionsOverRuns(passes: seq<Completed>)
    ensures var cs := After([], passes);
            && (passes == [] <==> cs == [])
            && Fresh(cs) && Unique(cs)
            && (passes != [] ==>
                 && FourInOrder(cs) && OneVerdict(cs)
                 && StatusOf(cs, VerdictOf(passes[|passes| - 1].outcome)) == True
                 && StatusOf(cs, ConfigurationValid) == True
                 && (IsReady(cs) <==> passes[|passes| - 1].outcome.Available?))
  {
    if passes == [] {
    } else {
      ConditionsOverRuns(passes[..|passes| - 1]);
      OnePass(After([], passes[..|passes| - 1]), passes[|passes| - 1]);
    }
  }

  /** The list without the times of the Progressing entry. */
  function Timeless(cs: seq<Condition>): seq<Condition> {
    if cs == [] then [] else [cs[0].(lastTransitionTime := 0)] + cs[1..]
  }

  /** Two passes that begin with the same verdict b and end with the same three verdicts:
      the second moves no time but Progressing's. */
  lemma SameVerdictsTwice(
      once: seq<Condition>, cs: seq<Condition>, p: Verdict3, d: Verdict3, r: Verdict3, now: nat)
    requires FourInOrder(once) && Content(once[0]) == p && Content(once[2]) == d && Content(once[3]) == r
    requires FourInOrder(cs) && cs[1..] == once[1..] && Content(cs[0]) != p
    ensures var twice := SetThree(cs, p, d, r, now);
            FourInOrder(twice) && twice[1..] == once[1..] && Content(twice[0]) == p
                && twice[0].lastTransitionTime == now
  {
    ThreeSets(cs, p, d, r, now);
    var twice := SetThree(cs, p, d, r, now);
    assert cs[2] == cs[1..][1] == once[1..][1] == once[2] && cs[3] == cs[1..][2] == once[1..][2] == once[3];
    assert cs[1] == cs[1..][0] == once[1..][0] == once[1];
    assert twice[2] == once[2] && twice[3] == once[3];
  }

  /** No outcome leaves Progressing as the start of a pass has it. */
  lemma BeginningShows(o: Outcome)
    ensures Triple(o).0 != (True, "Reconciling", "Reconciliation in progress")
  {
  }

  /** Beginning again changes nothing but Progressing. */
  lemma BeginsAgain(once: seq<Condition>, now: nat)
    requires FourInOrder(once) && Content(once[1]) == (True, "Valid", "Configuration is valid")
    ensures var t := Begun(once, now);
            && FourInOrder(t) && t[1..] == once[1..]
            && Content(t[0]) == (True, "Reconciling", "Reconciliation in progress")
  {
    BegunEntries(once, now);
    var t := Begun(once, now);
    assert t[1] == once[1];
  }

  lemma OnceComplete(cs: seq<Condition>, o: Outcome, a: nat, b: nat)
    requires cs == [] || FourInOrder(cs)
    ensures var once := Settled(Begun(cs, a), o, b);
            && FourInOrder(once) && Content(once[1]) == (True, "Valid", "Configuration is valid")
            && Content(once[0]) == Triple(o).0 && Content(once[2]) == Triple(o).1 && Content(once[3]) == Triple(o).2
            && once[0].lastTransitionTime == b
  {
    BegunEntries(cs, a);
    BeginningShows(o);
    ThreeSets(Begun(cs, a), Triple(o).0, Triple(o).1, Triple(o).2, b);
  }

  /** Repeating a pass with the same outcome changes nothing but Progressing's time,
      which moves on every such pass. */
  lemma RepeatMovesOnlyProgressing(cs: seq<Condition>, o: Outcome, a: nat, b: nat, c: nat, d: nat)
    requires cs == [] || FourInOrder(cs)
    ensures var once := Settled(Begun(cs, a), o, b);
            var twice := Settled(Begun(once, c), o, d);
            && FourInOrder(twice) && twice[1..] == once[1..] && Timeless(twice) == Timeless(once)
            && once[0].lastTransitionTime == b && twice[0].lastTransitionTime == d
  {
    var once := Settled(Begun(cs, a), o, b);
    OnceComplete(cs, o, a, b);
    BeginsAgain(once, c);
    BeginningShows(o);
    SameVerdictsTwice(once, Begun(once, c), Triple(o).0, Triple(o).1, Triple(o).2, d);
    SameButTime(once, Settled(Begun(once, c), o, d));
  }

  lemma SameButTime(a: seq<Condition>, b: seq<Condition>)
    requires FourInOrder(a) && FourInOrder(b) && a[1..] == b[1..] && Content(a[0]) == Content(b[0])
    ensures Timeless(a) == Timeless(b)
  {
  }
}
