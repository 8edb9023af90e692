/** What every run of the transport keeps: order, no loss, bounded bypass and exact counters. */
module TransportSafety {
  import opened Wire
  import opened Transport

  /* ----- Reading the history ----- */

  datatype Fate = WasAccepted | WasWritten | WasFailed

  predicate Matches(e: Event, fate: Fate, lane: Lane) {
    match e
    case Accepted(m) => fate == WasAccepted && m.lane == lane
    case Written(m) => fate == WasWritten && m.lane == lane
    case WriteFailed(m) => fate == WasFailed && m.lane == lane
    case Dropped(_, _) => false
  }

  /** The messages of one lane that met one fate, in order. */
  function Of(log: seq<Event>, fate: Fate, lane: Lane): seq<Message> {
    if log == [] then []
    else
      var e := log[|log| - 1];
      Of(log[..|log| - 1], fate, lane) + if Matches(e, fate, lane) then [e.msg] else []
  }

  lemma OfLogged(log: seq<Event>, events: seq<Event>, fate: Fate, lane: Lane)
    requires |events| <= 1
    ensures Of(log + events, fate, lane) ==
      Of(log, fate, lane) + if events != [] && Matches(events[0], fate, lane) then [events[0].msg] else []
  {
    if events == [] {
      assert log + events == log;
    } else {
      assert (log + events)[..|log|] == log;
    }
  }

  /* ----- Messages that have been accepted but not yet written ----- */

  /** The critical message that the pump holds, if any. */
  function InFlight(pump: Pump): seq<Message> {
    match pump
    case Writing(m) => if m.lane == Critical then [m] else []
    case Erred(m) => if m.lane == Critical then [m] else []
    case Parking(m) => [m]
    case _ => []
  }

  function Slot(pending: Option<Message>): seq<Message> {
    if pending.Some? then [pending.value] else []
  }

  /** Accepted critical messages whose delivery has not been confirmed, oldest first. */
  function Undelivered(s: State): seq<Message> {
    InFlight(s.pump) + Slot(s.pending) + s.critical
  }

  /* ----- Shape of reachable states ----- */

  ghost predicate InLane(messages: seq<Message>, lane: Lane) {
    forall i :: 0 <= i < |messages| ==> messages[i].lane == lane
  }

  /** A pump only lives while its connection exists, so writeOne never meets a nil connection. */
  ghost predicate OnePump(s: State) {
    && (s.pump != Stopped ==> s.runner == Reading || s.runner == Joining)
    && (s.runner == Reading || s.runner == Joining <==> s.conn != Absent)
  }

  /** The pending slot is empty whenever the pump may come to write it. */
  ghost predicate OneSlot(s: State) {
    s.pending.Some? ==> s.pump in {Stopped, Top, Retrying, Closing}
  }

  ghost predicate Lanes(s: State) {
    && InLane(s.critical, Critical) && InLane(s.telemetry, Telemetry)
    && (s.pending.Some? ==> s.pending.value.lane == Critical)
    && (s.pump.Parking? ==> s.pump.msg.lane == Critical)
    && (s.pump.Writing? || s.pump.Erred? ==> !s.pump.msg.lane.UnknownLane?)
    && (s.pump.Acked? ==> !s.pump.lane.UnknownLane?)
    && |s.critical| <= s.criticalCap && |s.telemetry| <= s.telemetryCap
  }

  ghost predicate Shape(s: State) {
    OnePump(s) && OneSlot(s) && Lanes(s)
  }

  lemma ShapeNext(s: State, step: Step)
    requires Shape(s) && Enabled(s, step)
    ensures Shape(Next(s, step))
  {
    match step
    case Producer(p) =>
    case Loop(l) =>
    case Write(w) => PumpKeepsShape(s, w);
  }

  lemma PumpKeepsShape(s: State, w: PumpStep)
    requires Shape(s) && PumpEnabled(s, w)
    ensures Shape(PumpNext(s, w))
  {
  }

  /* ----- Critical lane: lossless and first-in first-out ----- */

  ghost predicate Fifo(s: State) {
    Of(s.log, WasWritten, Critical) + Undelivered(s) == Of(s.log, WasAccepted, Critical)
  }

  /** What each step adds to the history. */
  function Logged(s: State, step: Step): seq<Event>
    requires Enabled(s, step)
  {
    match step
    case Producer(Accept(m)) => [Accepted(m)]
    case Producer(TimeOut(m)) => [Dropped(m.lane, EnqueueTimeout)]
    case Producer(Overflow(m)) => [Dropped(m.lane, QueueFull)]
    case Producer(Refuse(m)) => [Dropped(m.lane, UnknownLaneName)]
    case Producer(FailMarshal(lane)) => [Dropped(lane, MarshalError)]
    case Write(WriteOk) => [Written(s.pump.msg)]
    case Write(WriteFail(_)) => [WriteFailed(s.pump.msg)]
    case _ => []
  }

  lemma LogNext(s: State, step: Step)
    requires Enabled(s, step)
    ensures Next(s, step).log == s.log + Logged(s, step)
  {
  }

  /** The critical messages that a step accepts, and those whose delivery it confirms. */
  function Arriving(step: Step): seq<Message> {
    if step.Producer? && step.p.Accept? && step.p.msg.lane == Critical then [step.p.msg] else []
  }

  function Confirmed(s: State, step: Step): seq<Message>
    requires Enabled(s, step)
  {
    if step == Write(WriteOk) && s.pump.msg.lane == Critical then [s.pump.msg] else []
  }

  /** Only an acceptance adds an undelivered message, and only a confirmed write removes one. */
  lemma UndeliveredNext(s: State, step: Step)
    requires Shape(s) && Enabled(s, step)
    ensures Confirmed(s, step) + Undelivered(Next(s, step)) == Undelivered(s) + Arriving(step)
  {
    match step
    case Producer(p) => ProducerUndelivered(s, p);
    case Loop(l) =>
    case Write(w) => PumpUndelivered(s, w);
  }

  lemma ProducerUndelivered(s: State, p: ProducerStep)
    requires ProducerEnabled(s, p)
    ensures Undelivered(ProducerNext(s, p)) == Undelivered(s) + Arriving(Producer(p))
  {
  }

  lemma PumpUndelivered(s: State, w: PumpStep)
    requires Shape(s) && PumpEnabled(s, w)
    ensures Confirmed(s, Write(w)) + Undelivered(PumpNext(s, w)) == Undelivered(s)
  {
    if w == PollCritical || w == SelectCritical {
      TakenIsHead(s);
    } else if w == Advance {
      AdvanceKeeps(s);
    } else {
      HandsKeep(s, w);
      Regroup(Confirmed(s, Write(w)), InFlight(PumpNext(s, w).pump) + Slot(PumpNext(s, w).pending), s.critical);
    }
  }

  lemma Regroup(a: seq<Message>, b: seq<Message>, c: seq<Message>)
    ensures a + (b + c) == (a + b) + c
  {
  }

  lemma HandsKeep(s: State, w: PumpStep)
    requires Shape(s) && PumpEnabled(s, w) && w != PollCritical && w != SelectCritical && w != Advance
    ensures var s' := PumpNext(s, w);
      && s'.critical == s.critical
      && Confirmed(s, Write(w)) + (InFlight(s'.pump) + Slot(s'.pending)) == InFlight(s.pump) + Slot(s.pending)
  {
  }

  lemma AdvanceKeeps(s: State)
    requires Shape(s) && PumpEnabled(s, Advance)
    ensures Undelivered(AdvancePump(s)) == Undelivered(s)
  {
  }

  lemma TakenIsHead(s: State)
    requires Shape(s) && (s.pump == Poll || s.pump == Select)
    ensures s.critical != [] ==> Undelivered(TakeCritical(s)) == Undelivered(s)
  {
  }

  lemma FifoNext(s: State, step: Step)
    requires Shape(s) && Fifo(s) && Enabled(s, step)
    ensures Fifo(Next(s, step))
  {
    var s' := Next(s, step);
    var written, accepted := Of(s.log, WasWritten, Critical), Of(s.log, WasAccepted, Critical);
    LogNext(s, step);
    OfLogged(s.log, Logged(s, step), WasWritten, Critical);
    OfLogged(s.log, Logged(s, step), WasAccepted, Critical);
    UndeliveredNext(s, step);
    FifoAlgebra(written, Confirmed(s, step), Undelivered(s), Arriving(step), Undelivered(s'));
  }

  lemma FifoAlgebra(written: seq<Message>, confirmed: seq<Message>, before: seq<Message>, arriving: seq<Message>, after: seq<Message>)
    requires confirmed + after == before + arriving
    ensures (written + confirmed) + after == (written + before) + arriving
  {
    assert (written + confirmed) + after == written + (confirmed + after);
    assert (written + before) + arriving == written + (before + arriving);
  }

  /* ----- Bounded bypass: how much telemetry may overtake a critical message ----- */

  function Tally(log: seq<Event>, fate: Fate, lane: Lane): nat {
    |Of(log, fate, lane)|
  }

  /** Entry i accepts a critical message that is not yet written just before entry j. */
  ghost predicate Waiting(log: seq<Event>, i: nat, j: nat)
    requires i < j <= |log|
  {
    && Matches(log[i], WasAccepted, Critical)
    && Tally(log[..j], WasWritten, Critical) <= Tally(log[..i], WasAccepted, Critical)
  }

  /** Between the acceptance of a critical message and its write at most one telemetry write completes. */
  ghost predicate BoundedBypass(log: seq<Event>) {
    forall i: nat, j: nat :: i < j <= |log| && Waiting(log, i, j) ==>
      Tally(log[..j], WasWritten, Telemetry) <= Tally(log[..i], WasWritten, Telemetry) + 1
  }

  /** While the pump may still write telemetry before it polls again, nothing has overtaken yet. */
  function Allowance(pump: Pump): nat {
    if pump == Select || (pump.Writing? && pump.msg.lane == Telemetry) then 0 else 1
  }

  ghost predicate Overtaking(s: State) {
    forall i: nat :: i < |s.log| && Waiting(s.log, i, |s.log|) ==>
      Tally(s.log, WasWritten, Telemetry) <= Tally(s.log[..i], WasWritten, Telemetry) + Allowance(s.pump)
  }

  lemma TallyGrows(log: seq<Event>, i: nat, fate: Fate, lane: Lane)
    requires i <= |log|
    ensures Tally(log[..i], fate, lane) <= Tally(log, fate, lane)
    ensures i < |log| && Matches(log[i], fate, lane) ==> Tally(log[..i], fate, lane) < Tally(log, fate, lane)
  {
    if i < |log| {
      var shorter := log[..|log| - 1];
      assert shorter[..i] == log[..i];
      TallyGrows(shorter, i, fate, lane);
    } else {
      assert log[..i] == log;
    }
  }

  /** A poll that finds nothing leaves no accepted critical message waiting. */
  lemma NothingWaits(s: State, i: nat)
    requires Shape(s) && Fifo(s) && s.pump == Poll && s.critical == [] && i < |s.log|
    ensures !Waiting(s.log, i, |s.log|)
  {
    assert s.log[..|s.log|] == s.log;
    assert Undelivered(s) == [];
    TallyGrows(s.log, i, WasAccepted, Critical);
  }

  lemma AllowanceNext(s: State, step: Step)
    requires Shape(s) && Enabled(s, step)
    ensures Allowance(Next(s, step).pump) < Allowance(s.pump) ==> step == Write(PollCritical) && s.critical == []
    ensures step == Write(WriteOk) && s.pump.msg.lane == Telemetry ==>
      Allowance(s.pump) == 0 && Allowance(Next(s, step).pump) == 1
  {
    match step
    case Producer(p) =>
    case Loop(l) =>
    case Write(w) =>
      if w == PollCritical && s.critical != [] {
        assert s.critical[0].lane == Critical;
      }
  }

  lemma OvertakingNext(s: State, step: Step)
    requires Shape(s) && Fifo(s) && Overtaking(s) && Enabled(s, step)
    ensures Overtaking(Next(s, step))
  {
    var s' := Next(s, step);
    LogNext(s, step);
    AllowanceNext(s, step);
    forall i: nat | i < |s'.log| && Waiting(s'.log, i, |s'.log|)
      ensures Tally(s'.log, WasWritten, Telemetry) <= Tally(s'.log[..i], WasWritten, Telemetry) + Allowance(s'.pump)
    {
      OvertakingAt(s, step, i);
    }
  }

  lemma OvertakingAt(s: State, step: Step, i: nat)
    requires Shape(s) && Fifo(s) && Overtaking(s) && Enabled(s, step)
    requires i < |Next(s, step).log| && Waiting(Next(s, step).log, i, |Next(s, step).log|)
    ensures var s' := Next(s, step);
      Tally(s'.log, WasWritten, Telemetry) <= Tally(s'.log[..i], WasWritten, Telemetry) + Allowance(s'.pump)
  {
    var s' := Next(s, step);
    LogNext(s, step);
    AllowanceNext(s, step);
    OfLogged(s.log, Logged(s, step), WasWritten, Telemetry);
    if i < |s.log| {
      WaitedBefore(s.log, Logged(s, step), s'.log, i);
      if step == Write(PollCritical) && s.critical == [] {
        NothingWaits(s, i);
        assert false;
      }
    } else {
      assert s'.log[..|s.log|] == s.log;
    }
  }

  /** What waits now and was accepted before has been waiting all along. */
  lemma WaitedBefore(log: seq<Event>, events: seq<Event>, log': seq<Event>, i: nat)
    requires log' == log + events && |events| <= 1 && i < |log| && Waiting(log', i, |log'|)
    ensures Waiting(log, i, |log|) && log'[..i] == log[..i]
  {
    OfLogged(log, events, WasWritten, Critical);
    assert log'[..|log'|] == log' && log[..|log|] == log && log'[..i] == log[..i];
  }

  lemma BypassNext(s: State, step: Step)
    requires Shape(s) && Fifo(s) && Overtaking(s) && BoundedBypass(s.log) && Enabled(s, step)
    ensures BoundedBypass(Next(s, step).log)
  {
    var log, log' := s.log, Next(s, step).log;
    OvertakingNext(s, step);
    LogNext(s, step);
    assert log'[..|log'|] == log';
    forall i: nat, j: nat | i < j <= |log'| && Waiting(log', i, j)
      ensures Tally(log'[..j], WasWritten, Telemetry) <= Tally(log'[..i], WasWritten, Telemetry) + 1
    {
      if j <= |log| {
        assert log'[..j] == log[..j] && log'[..i] == log[..i];
        assert Waiting(log, i, j);
      } else {
        assert j == |log'|;
      }
    }
  }
}
