/** The promises of the transport, for every run and every state along it. */
module TransportRuns {
  import opened Wire
  import opened Transport
  import opened TransportSafety
  import opened TransportLedger

  /* ----- At-least-once delivery, seen by a receiver to whom a repeated message is harmless ----- */

  function Fold<C>(f: (C, Message) -> C, c: C, messages: seq<Message>): C {
    if messages == [] then c else Fold(f, f(c, messages[0]), messages[1..])
  }

  ghost predicate Idempotent<C(!new)>(f: (C, Message) -> C) {
    forall c, m :: f(f(c, m), m) == f(c, m)
  }

  function OnCritical(messages: seq<Message>): seq<Message> {
    if messages == [] then []
    else
      var last := messages[|messages| - 1];
      OnCritical(messages[..|messages| - 1]) + if last.lane == Critical then [last] else []
  }

  lemma {:induction false} FoldAppend<C>(f: (C, Message) -> C, c: C, a: seq<Message>, b: seq<Message>)
    ensures Fold(f, c, a + b) == Fold(f, Fold(f, c, a), b)
  {
    if a == [] {
      assert a + b == b;
    } else {
      assert (a + b)[1..] == a[1..] + b;
      FoldAppend(f, f(c, a[0]), a[1..], b);
    }
  }

  lemma OnCriticalAppend(messages: seq<Message>, m: Message)
    ensures OnCritical(messages + [m]) == OnCritical(messages) + if m.lane == Critical then [m] else []
  {
  }

  /** What has reached the receiver, followed by what is still undelivered, amounts to what was accepted. */
  ghost predicate Delivers<C>(s: State, f: (C, Message) -> C, c: C) {
    Fold(f, Fold(f, c, OnCritical(s.wire)), Undelivered(s)) == Fold(f, c, Of(s.log, WasAccepted, Critical))
  }

  lemma DeliversNext<C(!new)>(s: State, step: Step, f: (C, Message) -> C, c: C)
    requires Shape(s) && Enabled(s, step) && Delivers(s, f, c) && Idempotent(f)
    ensures Delivers(Next(s, step), f, c)
  {
    AcceptedNext(s, step);
    var accepted := Of(s.log, WasAccepted, Critical);
    if Reaches(step) {
      assert accepted + Arriving(step) == accepted;
      WriteDelivers(s, step.w, f, Fold(f, c, OnCritical(s.wire)));
      WireNext(s, step, f, c);
    } else {
      QuietNext(s, step);
      FoldAppend(f, c, accepted, Arriving(step));
      FoldAppend(f, Fold(f, c, OnCritical(s.wire)), Undelivered(s), Arriving(step));
    }
  }

  lemma WireNext<C>(s: State, step: Step, f: (C, Message) -> C, c: C)
    requires Enabled(s, step) && Reaches(step)
    ensures Fold(f, c, OnCritical(Next(s, step).wire))
      == Fold(f, Fold(f, c, OnCritical(s.wire)), if s.pump.msg.lane == Critical then [s.pump.msg] else [])
  {
    OnCriticalAppend(s.wire, s.pump.msg);
    FoldAppend(f, c, OnCritical(s.wire), if s.pump.msg.lane == Critical then [s.pump.msg] else []);
  }

  predicate Reaches(step: Step) {
    step == Write(WriteOk) || step == Write(WriteFail(true))
  }

  lemma AcceptedNext(s: State, step: Step)
    requires Enabled(s, step)
    ensures Of(Next(s, step).log, WasAccepted, Critical) == Of(s.log, WasAccepted, Critical) + Arriving(step)
  {
    LogNext(s, step);
    OfLogged(s.log, Logged(s, step), WasAccepted, Critical);
  }

  lemma QuietNext(s: State, step: Step)
    requires Shape(s) && Enabled(s, step) && !Reaches(step)
    ensures Next(s, step).wire == s.wire
    ensures Undelivered(Next(s, step)) == Undelivered(s) + Arriving(step)
  {
    UndeliveredNext(s, step);
    assert Confirmed(s, step) + Undelivered(Next(s, step)) == Undelivered(Next(s, step));
  }

  /** A write that reaches the receiver does not change what the undelivered messages will amount to. */
  lemma WriteDelivers<C(!new)>(s: State, w: PumpStep, f: (C, Message) -> C, c: C)
    requires Shape(s) && PumpEnabled(s, w) && Reaches(Write(w)) && Idempotent(f)
    ensures var m := s.pump.msg;
      Fold(f, Fold(f, c, if m.lane == Critical then [m] else []), Undelivered(PumpNext(s, w)))
      == Fold(f, c, Undelivered(s))
  {
    var m, after := s.pump.msg, Undelivered(PumpNext(s, w));
    PumpUndelivered(s, w);
    if m.lane == Critical {
      assert Fold(f, c, [m]) == f(c, m);
      if w == WriteOk {
        assert Undelivered(s) == [m] + after;
        FoldAppend(f, c, [m], after);
      } else {
        assert after == [m] + s.critical;
        assert f(f(c, m), m) == f(c, m);
      }
    }
  }

  /* ----- Runs ----- */

  ghost predicate Safe(s: State) {
    && Shape(s) && Fifo(s) && Overtaking(s) && BoundedBypass(s.log)
    && TelemetryFlow(s) && KnownLanes(s.log) && (forall c :: Balanced(s, c))
  }

  lemma InitSafe(criticalCap: nat, telemetryCap: nat)
    ensures Safe(Init(criticalCap, telemetryCap))
  {
  }

  lemma SafeNext(s: State, step: Step)
    requires Safe(s) && Enabled(s, step)
    ensures Safe(Next(s, step))
  {
    ShapeNext(s, step);
    FifoNext(s, step);
    OvertakingNext(s, step);
    BypassNext(s, step);
    TelemetryFlowNext(s, step);
    KnownLanesNext(s, step);
    forall c ensures Balanced(Next(s, step), c) {
      BalancedNext(s, step, c);
    }
  }

  lemma {:induction false} RunIsSafe(states: seq<State>, steps: seq<Step>, k: nat)
    requires IsRun(states, steps) && k < |states|
    ensures Safe(states[k])
  {
    if k == 0 {
      var c: nat, t: nat :| states[0] == Init(c, t);
      InitSafe(c, t);
    } else {
      RunIsSafe(states, steps, k - 1);
      SafeNext(states[k - 1], steps[k - 1]);
    }
  }

  /**
   Nothing accepted on the critical lane is lost, duplicated or reordered: what was written, then
   what the pump holds, then the pending slot, then the queue is what was accepted.
   */
  lemma CriticalLaneIsLosslessFifo(states: seq<State>, steps: seq<Step>, k: nat)
    requires IsRun(states, steps) && k < |states|
    ensures var s := states[k];
      Of(s.log, WasWritten, Critical) + InFlight(s.pump) + Slot(s.pending) + s.critical
      == Of(s.log, WasAccepted, Critical)
  {
    RunIsSafe(states, steps, k);
    var s := states[k];
    var written := Of(s.log, WasWritten, Critical);
    assert written + InFlight(s.pump) + Slot(s.pending) + s.critical == written + Undelivered(s);
  }

  /** The pending slot is never overwritten while occupied, and a live pump always has a connection. */
  lemma SlotAndConnectionAreSafe(states: seq<State>, steps: seq<Step>, k: nat)
    requires IsRun(states, steps) && k < |states|
    ensures states[k].pump.Parking? ==> states[k].pending.None?
    ensures states[k].pump != Stopped ==> states[k].conn != Absent
    ensures !Enabled(states[k], Write(WriteNoConn))
    ensures |states[k].critical| <= states[k].criticalCap && |states[k].telemetry| <= states[k].telemetryCap
  {
    RunIsSafe(states, steps, k);
  }

  /** At most one telemetry write completes while an accepted critical message waits to be written. */
  lemma BypassIsBounded(states: seq<State>, steps: seq<Step>, k: nat, i: nat, j: nat)
    requires IsRun(states, steps) && k < |states|
    requires i < j <= |states[k].log| && Waiting(states[k].log, i, j)
    ensures var log := states[k].log;
      Tally(log[..j], WasWritten, Telemetry) - Tally(log[..i], WasWritten, Telemetry) <= 1
  {
    RunIsSafe(states, steps, k);
  }

  /** The counters add up whenever no goroutine is between an action and its count. */
  lemma CountersBalance(states: seq<State>, steps: seq<Step>, k: nat)
    requires IsRun(states, steps) && k < |states| && Quiescent(states[k])
    ensures Ledger(states[k])
  {
    RunIsSafe(states, steps, k);
    QuiescentLedger(states[k]);
  }

  lemma {:induction false} RunDelivers<C(!new)>(states: seq<State>, steps: seq<Step>, k: nat, f: (C, Message) -> C, c: C)
    requires IsRun(states, steps) && k < |states| && Idempotent(f)
    ensures Delivers(states[k], f, c)
  {
    if k == 0 {
      var criticalCap: nat, telemetryCap: nat :| states[0] == Init(criticalCap, telemetryCap);
      InitDelivers(criticalCap, telemetryCap, f, c);
    } else {
      RunDelivers(states, steps, k - 1, f, c);
      RunIsSafe(states, steps, k - 1);
      DeliversNext(states[k - 1], steps[k - 1], f, c);
    }
  }

  lemma InitDelivers<C>(criticalCap: nat, telemetryCap: nat, f: (C, Message) -> C, c: C)
    ensures Delivers(Init(criticalCap, telemetryCap), f, c)
  {
  }

  /**
   A receiver that tolerates repetition ends up, once the undelivered messages arrive, where the
   accepted messages lead, across reconnects and writes that reported failure but arrived.
   */
  lemma ReceiverCatchesUp<C(!new)>(states: seq<State>, steps: seq<Step>, k: nat, f: (C, Message) -> C, c: C)
    requires IsRun(states, steps) && k < |states| && Idempotent(f)
    ensures var s := states[k];
      Fold(f, Fold(f, c, OnCritical(s.wire)), Undelivered(s)) == Fold(f, c, Of(s.log, WasAccepted, Critical))
  {
    RunDelivers(states, steps, k, f, c);
    assert Delivers(states[k], f, c);
  }

  /* ----- Series of steps ----- */

  ghost predicate CanRun(s: State, steps: seq<Step>)
    decreases steps
  {
    steps == [] || (Enabled(s, steps[0]) && CanRun(Next(s, steps[0]), steps[1..]))
  }

  function After(s: State, steps: seq<Step>): State
    requires CanRun(s, steps)
    decreases steps
  {
    if steps == [] then s else After(Next(s, steps[0]), steps[1..])
  }

  ghost predicate Leads(s: State, steps: seq<Step>, s': State) {
    CanRun(s, steps) && After(s, steps) == s'
  }

  lemma {:induction false} LeadsFurther(s: State, first: seq<Step>, mid: State, second: seq<Step>, s': State)
    requires Leads(s, first, mid) && Leads(mid, second, s')
    ensures Leads(s, first + second, s')
    decreases first
  {
    if first == [] {
      assert first + second == second;
    } else {
      assert (first + second)[1..] == first[1..] + second;
      LeadsFurther(Next(s, first[0]), first[1..], mid, second, s');
    }
  }
}
