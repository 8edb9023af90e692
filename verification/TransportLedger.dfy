/** What the eleven transport counters say, exactly, in every state that a run can reach. */
module TransportLedger {
  import opened Wire
  import opened Transport
  import opened TransportSafety

  function One(b: bool): nat {
    if b then 1 else 0
  }

  /** How often an event of the history increments a counter. */
  function EventTicks(e: Event, c: Counter): nat {
    match e
    case Accepted(m) => One(c == if m.lane == Critical then QueuedCritical else QueuedTelemetry)
    case Written(m) => One(c == if m.lane == Critical then SentCritical else SentTelemetry)
    case WriteFailed(m) => FailureTicks(m.lane, c)
    case Dropped(lane, reason) => One(c == LaneDropped(lane)) + One(ReasonDropped(reason) == Some(c))
  }

  function FailureTicks(lane: Lane, c: Counter): nat {
    if lane == Critical then One(c == DroppedWriteErr) + One(c == RetriedCritical)
    else 2 * One(c == DroppedWriteErr) + One(c == DroppedTelemetry)
  }

  function LogTicks(log: seq<Event>, c: Counter): nat {
    if log == [] then 0 else LogTicks(log[..|log| - 1], c) + EventTicks(log[|log| - 1], c)
  }

  /** How often the pump has yet to increment a counter. */
  function PumpTicks(pump: Pump, c: Counter): nat {
    match pump
    case Acked(lane) => One(c == if lane == Critical then SentCritical else SentTelemetry)
    case Erred(m) => FailureTicks(m.lane, c)
    case Parking(_) => One(c == RetriedCritical)
    case Retrying => One(c == RetriedCritical)
    case Losing(noConn) => One(c == DroppedTelemetry) + One(!noConn && c == DroppedWriteErr)
    case Lost => One(c == DroppedWriteErr)
    case _ => 0
  }

  /** Every increment that the history stands for is performed or still owed by exactly one goroutine. */
  ghost predicate Balanced(s: State, c: Counter) {
    s.counted(c) + s.owed(c) + PumpTicks(s.pump, c) == LogTicks(s.log, c)
  }

  lemma LogTicksLogged(log: seq<Event>, events: seq<Event>, c: Counter)
    requires |events| <= 1
    ensures LogTicks(log + events, c) == LogTicks(log, c) + if events == [] then 0 else EventTicks(events[0], c)
  {
    if events == [] {
      assert log + events == log;
    } else {
      assert (log + events)[..|log|] == log;
    }
  }

  lemma BalancedNext(s: State, step: Step, c: Counter)
    requires Shape(s) && Balanced(s, c) && Enabled(s, step)
    ensures Balanced(Next(s, step), c)
  {
    LogNext(s, step);
    LogTicksLogged(s.log, Logged(s, step), c);
    match step
    case Producer(p) => ProducerTicks(s, p, c);
    case Loop(l) =>
    case Write(w) => PumpOwes(s, w, c);
  }

  lemma ProducerTicks(s: State, p: ProducerStep, c: Counter)
    requires ProducerEnabled(s, p)
    ensures var logged := Logged(s, Producer(p));
      ProducerNext(s, p).counted(c) + ProducerNext(s, p).owed(c)
      == s.counted(c) + s.owed(c) + if logged == [] then 0 else EventTicks(logged[0], c)
  {
  }

  lemma PumpOwes(s: State, w: PumpStep, c: Counter)
    requires Shape(s) && PumpEnabled(s, w)
    ensures var logged := Logged(s, Write(w)); var s' := PumpNext(s, w);
      && s'.owed == s.owed
      && s'.counted(c) + PumpTicks(s'.pump, c)
         == s.counted(c) + PumpTicks(s.pump, c) + if logged == [] then 0 else EventTicks(logged[0], c)
  {
    if w == Advance {
      AdvanceOwes(s, c);
    } else {
      assert PumpNext(s, w).counted == s.counted;
      assert PumpTicks(s.pump, c) == 0;
    }
  }

  lemma AdvanceOwes(s: State, c: Counter)
    requires Shape(s) && PumpEnabled(s, Advance)
    ensures var s' := AdvancePump(s);
      && s'.owed == s.owed
      && s'.counted(c) + PumpTicks(s'.pump, c) == s.counted(c) + PumpTicks(s.pump, c)
  {
  }

  /* ----- The telemetry lane loses a message only when its write fails ----- */

  function TelemetryInFlight(pump: Pump): nat {
    if pump.Writing? && pump.msg.lane == Telemetry then 1 else 0
  }

  ghost predicate TelemetryFlow(s: State) {
    Tally(s.log, WasAccepted, Telemetry)
    == Tally(s.log, WasWritten, Telemetry) + Tally(s.log, WasFailed, Telemetry)
       + TelemetryInFlight(s.pump) + |s.telemetry|
  }

  lemma TelemetryFlowNext(s: State, step: Step)
    requires Shape(s) && TelemetryFlow(s) && Enabled(s, step)
    ensures TelemetryFlow(Next(s, step))
  {
    var logged := Logged(s, step);
    LogNext(s, step);
    OfLogged(s.log, logged, WasAccepted, Telemetry);
    OfLogged(s.log, logged, WasWritten, Telemetry);
    OfLogged(s.log, logged, WasFailed, Telemetry);
    HandsOver(s, step);
  }

  lemma HandsOver(s: State, step: Step)
    requires Shape(s) && Enabled(s, step)
    ensures TelemetryHeld(Next(s, step)) - TelemetryHeld(s) == HeldChange(Logged(s, step))
  {
    match step
    case Producer(p) =>
    case Loop(l) =>
    case Write(w) => PumpHandsOver(s, w);
  }

  lemma PumpHandsOver(s: State, w: PumpStep)
    requires Shape(s) && PumpEnabled(s, w)
    ensures TelemetryHeld(PumpNext(s, w)) - TelemetryHeld(s) == HeldChange(Logged(s, Write(w)))
  {
  }

  function TelemetryHeld(s: State): nat {
    TelemetryInFlight(s.pump) + |s.telemetry|
  }

  function HeldChange(logged: seq<Event>): int {
    if logged == [] then 0
    else if Matches(logged[0], WasAccepted, Telemetry) then 1
    else if Matches(logged[0], WasWritten, Telemetry) || Matches(logged[0], WasFailed, Telemetry) then -1
    else 0
  }

  /* ----- The ledger ----- */

  predicate IsDrop(e: Event, reason: DropReason) {
    e.Dropped? && e.reason == reason
  }

  function Drops(log: seq<Event>, reason: DropReason): nat {
    if log == [] then 0
    else Drops(log[..|log| - 1], reason) + if IsDrop(log[|log| - 1], reason) then 1 else 0
  }

  /** Only messages of the two known lanes are ever queued or written. */
  ghost predicate KnownLanes(log: seq<Event>) {
    forall i :: 0 <= i < |log| && !log[i].Dropped? ==> log[i].msg.lane == Critical || log[i].msg.lane == Telemetry
  }

  lemma KnownLanesNext(s: State, step: Step)
    requires Shape(s) && KnownLanes(s.log) && Enabled(s, step)
    ensures KnownLanes(Next(s, step).log)
  {
    LogNext(s, step);
  }

  function Fates(c: Counter): (Fate, Lane)
    requires c.QueuedCritical? || c.QueuedTelemetry? || c.SentCritical? || c.SentTelemetry? || c.RetriedCritical?
  {
    match c
    case QueuedCritical => (WasAccepted, Critical)
    case QueuedTelemetry => (WasAccepted, Telemetry)
    case SentCritical => (WasWritten, Critical)
    case SentTelemetry => (WasWritten, Telemetry)
    case RetriedCritical => (WasFailed, Critical)
  }

  /** The queued, sent and retried counters count exactly the events they are named after. */
  lemma {:induction false} TicksAreTallies(log: seq<Event>, c: Counter)
    requires KnownLanes(log)
    requires c.QueuedCritical? || c.QueuedTelemetry? || c.SentCritical? || c.SentTelemetry? || c.RetriedCritical?
    ensures LogTicks(log, c) == Tally(log, Fates(c).0, Fates(c).1)
  {
    if log != [] {
      TicksAreTallies(log[..|log| - 1], c);
    }
  }

  lemma {:induction false} TicksAreErrors(log: seq<Event>)
    requires KnownLanes(log)
    ensures LogTicks(log, DroppedWriteErr) == Tally(log, WasFailed, Critical) + 2 * Tally(log, WasFailed, Telemetry)
  {
    if log != [] {
      TicksAreErrors(log[..|log| - 1]);
    }
  }

  lemma {:induction false} TicksAreDrops(log: seq<Event>)
    requires KnownLanes(log)
    ensures LogTicks(log, DroppedCritical) + LogTicks(log, DroppedTelemetry)
      == LogTicks(log, DroppedMarshal) + LogTicks(log, DroppedTimeout) + LogTicks(log, DroppedQueueFull)
         + Drops(log, UnknownLaneName) + Tally(log, WasFailed, Telemetry)
  {
    if log != [] {
      var e := log[|log| - 1];
      TicksAreDrops(log[..|log| - 1]);
      DropCountedOnce(e);
    }
  }

  lemma DropCountedOnce(e: Event)
    requires e.Dropped? || e.msg.lane == Critical || e.msg.lane == Telemetry
    ensures EventTicks(e, DroppedCritical) + EventTicks(e, DroppedTelemetry)
      == EventTicks(e, DroppedMarshal) + EventTicks(e, DroppedTimeout) + EventTicks(e, DroppedQueueFull)
         + One(IsDrop(e, UnknownLaneName)) + One(Matches(e, WasFailed, Telemetry))
  {
  }

  /** No goroutine is between an action and its count. */
  ghost predicate Quiescent(s: State) {
    forall c :: s.owed(c) == 0 && PumpTicks(s.pump, c) == 0
  }

  /**
   The counters of a quiescent state. The failed telemetry writes appear twice in
   droppedWriteErr: writeOne counts the error and recordDrop counts it again.
   */
  ghost predicate Ledger(s: State) {
    var c := s.counted;
    var failedTelemetry := Tally(s.log, WasFailed, Telemetry);
    && c(QueuedCritical) == c(SentCritical) + |InFlight(s.pump)| + |Slot(s.pending)| + |s.critical|
    && c(QueuedTelemetry) == c(SentTelemetry) + failedTelemetry + TelemetryInFlight(s.pump) + |s.telemetry|
    && c(DroppedCritical) + c(DroppedTelemetry)
       == c(DroppedMarshal) + c(DroppedTimeout) + c(DroppedQueueFull) + failedTelemetry
          + Drops(s.log, UnknownLaneName)
    && c(DroppedWriteErr) == c(RetriedCritical) + 2 * failedTelemetry
  }

  lemma QuiescentLedger(s: State)
    requires Fifo(s) && TelemetryFlow(s) && KnownLanes(s.log) && Quiescent(s)
    requires forall c :: Balanced(s, c)
    ensures Ledger(s)
  {
    assert forall c :: Balanced(s, c) ==> s.counted(c) == LogTicks(s.log, c);
    TicksAreTallies(s.log, QueuedCritical);
    TicksAreTallies(s.log, QueuedTelemetry);
    TicksAreTallies(s.log, SentCritical);
    TicksAreTallies(s.log, SentTelemetry);
    TicksAreTallies(s.log, RetriedCritical);
    TicksAreErrors(s.log);
    TicksAreDrops(s.log);
  }
}
