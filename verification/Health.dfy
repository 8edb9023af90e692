/**
 Telemetry health: supervisors change their own flag under their own lock and then call back
 into a manager that reads all flags, one lock at a time, while the other flags go on changing.
 */
module Health {

  /* ----- The supervised process ----- */

  class ProcessSupervisor {
    var healthy: bool
    var callbacks: seq<bool> // the values the health callback has been called with

    constructor ()
      ensures !healthy && callbacks == []
    {
      healthy := false;
      callbacks := [];
    }

    method SetHealthy(value: bool)
      modifies this
      ensures healthy == value
      ensures callbacks == old(callbacks) + if old(healthy) != value then [value] else []
    {
      var changed := healthy != value;
      healthy := value;
      if changed {
        callbacks := callbacks + [value];
      }
    }

    /** The supervision loop over a series of attempts, each saying whether the process started. */
    method Run(started: seq<bool>)
      requires !healthy
      modifies this
      ensures !healthy
      ensures callbacks == old(callbacks) + Cycles(started)
    {
      for k := 0 to |started|
        invariant !healthy
        invariant callbacks == old(callbacks) + Cycles(started[..k])
      {
        assert started[..k + 1][..k] == started[..k];
        if !started[k] {
          SetHealthy(false);
        } else {
          SetHealthy(true);
          // the process runs, then exits
          SetHealthy(false);
        }
      }
      assert started[..|started|] == started;
    }
  }

  /** One up and one down for every attempt that started the process, nothing for the others. */
  function Cycles(started: seq<bool>): seq<bool> {
    if started == [] then []
    else Cycles(started[..|started| - 1]) + if started[|started| - 1] then [true, false] else []
  }

  lemma {:induction false} CyclesAlternate(started: seq<bool>)
    ensures Alternates(Cycles(started)) && |Cycles(started)| == 2 * multiset(started)[true]
  {
    if started != [] {
      var n := |started| - 1;
      CyclesAlternate(started[..n]);
      assert started == started[..n] + [started[n]];
    }
  }

  ghost predicate Alternates(values: seq<bool>) {
    forall i :: 0 <= i < |values| ==> values[i] == (i % 2 == 0)
  }

  /* ----- The callbacks as a step machine ----- */

  /** Where a supervisor's callback is; its flag cannot change before the callback has returned. */
  datatype Phase =
    | Idle
    | Waiting                  // flag changed, manager's lock not yet held
    | Reading(seen: seq<bool>) // lock held, flags read so far
    | Sending(value: bool)     // lock held, report about to be sent

  datatype State = State(flags: seq<bool>, phases: seq<Phase>, lastHealthy: bool, reports: seq<bool>)

  datatype Step =
    | SetFlag(i: nat, value: bool)
    | Lock(i: nat)
    | ReadFlag(i: nat)
    | Decide(i: nat)
    | Report(i: nat)

  function Init(n: nat): State {
    State(seq(n, i => false), seq(n, i => Idle), false, [])
  }

  predicate Holds(phase: Phase) {
    phase.Reading? || phase.Sending?
  }

  predicate AllTrue(values: seq<bool>) {
    forall i :: 0 <= i < |values| ==> values[i]
  }

  predicate Enabled(s: State, step: Step) {
    && |s.flags| == |s.phases| && step.i < |s.phases|
    && match step
       case SetFlag(i, _) => s.phases[i] == Idle
       case Lock(i) => s.phases[i] == Waiting && forall k :: 0 <= k < |s.phases| ==> !Holds(s.phases[k])
       case ReadFlag(i) => s.phases[i].Reading? && |s.phases[i].seen| < |s.flags| && AllTrue(s.phases[i].seen)
       case Decide(i) => s.phases[i].Reading? && (|s.phases[i].seen| == |s.flags| || !AllTrue(s.phases[i].seen))
       case Report(i) => s.phases[i].Sending?
  }

  /** Reading stops at the first flag that is down; nothing is sent unless the overall health changed. */
  function Next(s: State, step: Step): State
    requires Enabled(s, step)
  {
    match step
    case SetFlag(i, value) =>
      if s.flags[i] == value then s
      else s.(flags := s.flags[i := value], phases := s.phases[i := Waiting])
    case Lock(i) => s.(phases := s.phases[i := Reading([])])
    case ReadFlag(i) =>
      var seen := s.phases[i].seen;
      s.(phases := s.phases[i := Reading(seen + [s.flags[|seen|]])])
    case Decide(i) =>
      var overall := AllTrue(s.phases[i].seen);
      if overall == s.lastHealthy then s.(phases := s.phases[i := Idle])
      else s.(lastHealthy := overall, phases := s.phases[i := Sending(overall)])
    case Report(i) => s.(reports := s.reports + [s.phases[i].value], phases := s.phases[i := Idle])
  }

  ghost predicate IsRun(n: nat, states: seq<State>, steps: seq<Step>) {
    && |states| == |steps| + 1
    && states[0] == Init(n)
    && forall i :: 0 <= i < |steps| ==> Enabled(states[i], steps[i]) && states[i + 1] == Next(states[i], steps[i])
  }

  /* ----- Invariants ----- */

  ghost predicate OneHolder(s: State) {
    && |s.flags| == |s.phases|
    && forall i, k :: 0 <= i < k < |s.phases| ==> !(Holds(s.phases[i]) && Holds(s.phases[k]))
  }

  /** A flag that no longer is what the running callback saw has a callback of its own waiting. */
  ghost predicate SeenOrWaiting(s: State) {
    forall i :: 0 <= i < |s.phases| && s.phases[i].Reading? ==>
      && |s.phases[i].seen| <= |s.flags| == |s.phases|
      && forall k :: 0 <= k < |s.phases[i].seen| ==> s.phases[i].seen[k] == s.flags[k] || s.phases[k] == Waiting
  }

  /** Once no callback is waiting or reading, the remembered health is the conjunction of the flags. */
  ghost predicate Settled(s: State) {
    (forall i :: 0 <= i < |s.phases| ==> s.phases[i] != Waiting && !s.phases[i].Reading?)
      ==> s.lastHealthy == AllTrue(s.flags)
  }

  ghost predicate Consistent(s: State) {
    OneHolder(s) && SeenOrWaiting(s) && Settled(s) && |s.flags| > 0
  }

  lemma ConsistentNext(s: State, step: Step)
    requires Consistent(s) && Enabled(s, step)
    ensures Consistent(Next(s, step))
  {
    HolderNext(s, step);
    SeenNext(s, step);
    SettledNext(s, step);
  }

  lemma HolderNext(s: State, step: Step)
    requires OneHolder(s) && Enabled(s, step)
    ensures OneHolder(Next(s, step))
  {
  }

  lemma SeenNext(s: State, step: Step)
    requires OneHolder(s) && SeenOrWaiting(s) && Enabled(s, step)
    ensures SeenOrWaiting(Next(s, step))
  {
  }

  lemma SettledNext(s: State, step: Step)
    requires Consistent(s) && Enabled(s, step)
    ensures Settled(Next(s, step))
  {
    var s' := Next(s, step);
    match step
    case SetFlag(i, value) => assert s' == s || s'.phases[i] == Waiting;
    case Lock(i) => assert s'.phases[i].Reading?;
    case ReadFlag(i) => assert s'.phases[i].Reading?;
    case Decide(i) =>
      if forall k :: 0 <= k < |s'.phases| ==> s'.phases[k] != Waiting && !s'.phases[k].Reading? {
        assert forall k :: 0 <= k < |s.phases| && k != i ==> s.phases[k] == s'.phases[k];
        DecisionIsCurrent(s, i);
      }
    case Report(i) =>
      assert forall k :: 0 <= k < |s.phases| && k != i ==> s'.phases[k] == s.phases[k];
  }

  /** If nobody is waiting, what the running callback saw is what the flags are now. */
  lemma DecisionIsCurrent(s: State, i: nat)
    requires Consistent(s) && Enabled(s, Decide(i))
    requires forall k :: 0 <= k < |s.phases| ==> s.phases[k] != Waiting
    ensures AllTrue(s.phases[i].seen) == AllTrue(s.flags)
  {
  }

  ghost predicate AllIdle(s: State) {
    forall i :: 0 <= i < |s.phases| ==> s.phases[i] == Idle
  }

  /* ----- Reports ----- */

  function LastReported(reports: seq<bool>): bool {
    if reports == [] then false else reports[|reports| - 1]
  }

  /** The remembered health is the last reported one, or is about to be reported. */
  ghost predicate Reported(s: State) {
    && |s.flags| == |s.phases|
    && Alternates(s.reports)
    && (forall i :: 0 <= i < |s.phases| && s.phases[i].Sending? ==>
          s.phases[i].value == s.lastHealthy != LastReported(s.reports))
    && ((forall i :: 0 <= i < |s.phases| ==> !s.phases[i].Sending?) ==> LastReported(s.reports) == s.lastHealthy)
  }

  lemma ReportedNext(s: State, step: Step)
    requires OneHolder(s) && Reported(s) && Enabled(s, step)
    ensures Reported(Next(s, step))
  {
    var s' := Next(s, step);
    match step
    case Decide(i) =>
      assert forall k :: 0 <= k < |s.phases| ==> !s.phases[k].Sending?;
      assert s'.lastHealthy != s.lastHealthy ==> s'.phases[i].Sending?;
    case Report(i) =>
      assert forall k :: 0 <= k < |s'.phases| ==> !s'.phases[k].Sending?;
    case _ =>
      assert s'.reports == s.reports && s'.lastHealthy == s.lastHealthy;
      assert forall k :: 0 <= k < |s.phases| ==> s'.phases[k].Sending? == s.phases[k].Sending?;
  }

  /* ----- Runs ----- */

  lemma {:induction false} RunIsConsistent(n: nat, states: seq<State>, steps: seq<Step>, k: nat)
    requires n > 0 && IsRun(n, states, steps) && k < |states|
    ensures Consistent(states[k]) && Reported(states[k]) && |states[k].flags| == n
  {
    if k > 0 {
      RunIsConsistent(n, states, steps, k - 1);
      ConsistentNext(states[k - 1], steps[k - 1]);
      ReportedNext(states[k - 1], steps[k - 1]);
    } else {
      assert !states[0].flags[0];
    }
  }

  /**
   Whenever no callback is waiting or running, the remembered health is the conjunction of the
   supervisors' current flags, although no callback ever reads them all at one moment.
   */
  lemma HealthConverges(n: nat, states: seq<State>, steps: seq<Step>, k: nat)
    requires n > 0 && IsRun(n, states, steps) && k < |states|
    requires AllIdle(states[k])
    ensures |states[k].flags| == n
    ensures states[k].lastHealthy <==> forall i :: 0 <= i < n ==> states[k].flags[i]
    ensures LastReported(states[k].reports) == states[k].lastHealthy
  {
    RunIsConsistent(n, states, steps, k);
  }

  /** Reports strictly alternate, starting with true, and two callbacks never hold the lock together. */
  lemma ReportsAlternate(n: nat, states: seq<State>, steps: seq<Step>, k: nat)
    requires n > 0 && IsRun(n, states, steps) && k < |states|
    ensures Alternates(states[k].reports)
    ensures forall i, j :: 0 <= i < j < |states[k].phases| ==> !(Holds(states[k].phases[i]) && Holds(states[k].phases[j]))
  {
    RunIsConsistent(n, states, steps, k);
  }

  /* ----- Callbacks come to an end ----- */

  /** A change of a flag has a callback of its own, and only a change has. */
  lemma FlagIsSet(s: State, i: nat, value: bool)
    requires Enabled(s, SetFlag(i, value))
    ensures var s' := Next(s, SetFlag(i, value));
      && |s'.flags| == |s.flags| && (forall k :: 0 <= k < |s.flags| ==> s'.flags[k] == if k == i then value else s.flags[k])
      && |s'.phases| == |s.phases| && (forall k :: 0 <= k < |s.phases| && k != i ==> s'.phases[k] == s.phases[k])
      && s'.phases[i] == (if s.flags[i] == value then Idle else Waiting)
      && s'.lastHealthy == s.lastHealthy && s'.reports == s.reports
  {
  }

  /** The number of steps that a callback may yet need. */
  function Weight(phase: Phase, n: nat): nat {
    match phase
    case Idle => 0
    case Sending(_) => 1
    case Reading(seen) => if |seen| <= n then 2 + n - |seen| else 2
    case Waiting => n + 3
  }

  function Work(phases: seq<Phase>, n: nat): nat {
    if phases == [] then 0 else Weight(phases[0], n) + Work(phases[1..], n)
  }

  lemma {:induction false} WorkChanges(phases: seq<Phase>, n: nat, i: nat, phase: Phase)
    requires i < |phases|
    ensures Work(phases[i := phase], n) + Weight(phases[i], n) == Work(phases, n) + Weight(phase, n)
  {
    var after := phases[i := phase];
    if i == 0 {
      assert after[1..] == phases[1..];
    } else {
      WorkChanges(phases[1..], n, i - 1, phase);
      assert after[1..] == phases[1..][i - 1 := phase];
    }
  }

  /** Every step of a callback leaves less to do, and no flag changes. */
  lemma CallbackAdvances(s: State, step: Step)
    requires Consistent(s) && Enabled(s, step) && !step.SetFlag?
    ensures Next(s, step).flags == s.flags
    ensures Work(Next(s, step).phases, |s.flags|) < Work(s.phases, |s.flags|)
  {
    WorkChanges(s.phases, |s.flags|, step.i, Next(s, step).phases[step.i]);
    assert Next(s, step).phases == s.phases[step.i := Next(s, step).phases[step.i]];
  }

  /** As long as a callback is waiting or running, one of them can go on. */
  lemma CallbackCanAdvance(s: State) returns (step: Step)
    requires Consistent(s) && exists i :: 0 <= i < |s.phases| && s.phases[i] != Idle
    ensures Enabled(s, step) && !step.SetFlag?
  {
    if i: nat :| i < |s.phases| && Holds(s.phases[i]) {
      match s.phases[i] {
        case Sending(_) => step := Report(i);
        case Reading(seen) => step := if |seen| < |s.flags| && AllTrue(seen) then ReadFlag(i) else Decide(i);
      }
    } else {
      var i: nat :| i < |s.phases| && s.phases[i] != Idle;
      step := Lock(i);
    }
  }

  /** The callbacks go on from here, and no flag changes. */
  ghost predicate Drains(states: seq<State>, steps: seq<Step>) {
    && |states| == |steps| + 1
    && forall i :: 0 <= i < |steps| ==> !steps[i].SetFlag? && Enabled(states[i], steps[i]) && states[i + 1] == Next(states[i], steps[i])
  }

  lemma {:induction false} DrainingIsBounded(states: seq<State>, steps: seq<Step>, k: nat)
    requires Drains(states, steps) && Consistent(states[0]) && k < |states|
    ensures Consistent(states[k]) && states[k].flags == states[0].flags
    ensures k + Work(states[k].phases, |states[0].flags|) <= Work(states[0].phases, |states[0].flags|)
  {
    if k > 0 {
      DrainingIsBounded(states, steps, k - 1);
      ConsistentNext(states[k - 1], steps[k - 1]);
      CallbackAdvances(states[k - 1], steps[k - 1]);
    }
  }

  /**
   Once the flags stop changing, the callbacks end, whatever their order: no series of their steps
   is longer than the work that is left, and one that can go no further has led to a state in which
   all are idle. The last report then is the conjunction of the flags.
   */
  lemma HealthIsReported(n: nat, states: seq<State>, steps: seq<Step>, more: seq<State>, rest: seq<Step>)
    requires n > 0 && IsRun(n, states, steps) && Drains(more, rest) && more[0] == states[|steps|]
    ensures |rest| <= Work(more[0].phases, n)
    ensures (forall step :: Enabled(more[|rest|], step) ==> step.SetFlag?) ==>
      AllIdle(more[|rest|]) && LastReported(more[|rest|].reports) == forall i :: 0 <= i < |states[|steps|].flags| ==> states[|steps|].flags[i]
  {
    RunIsConsistent(n, states, steps, |steps|);
    DrainingIsBounded(more, rest, |rest|);
    DrainingReports(more, rest, |rest|);
    if (forall step :: Enabled(more[|rest|], step) ==> step.SetFlag?) && !AllIdle(more[|rest|]) {
      var step := CallbackCanAdvance(more[|rest|]);
      assert false;
    }
  }

  lemma {:induction false} DrainingReports(states: seq<State>, steps: seq<Step>, k: nat)
    requires Drains(states, steps) && Consistent(states[0]) && Reported(states[0]) && k < |states|
    ensures Reported(states[k])
  {
    if k > 0 {
      DrainingReports(states, steps, k - 1);
      DrainingIsBounded(states, steps, k - 1);
      ReportedNext(states[k - 1], steps[k - 1]);
    }
  }
}
