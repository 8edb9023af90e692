/**
 The outbound transport of the agent as a step machine: any number of producers,
 one connection loop, one reader and at most one write pump, interleaved.

 Every field that several goroutines share is updated by steps of its own, so a
 run of the machine is one possible interleaving of those goroutines.
 */
module Transport {
  import opened Wire

  /* ----- State ----- */

  datatype Counter =
    | QueuedCritical | QueuedTelemetry | SentCritical | SentTelemetry | RetriedCritical
    | DroppedCritical | DroppedTelemetry | DroppedMarshal | DroppedQueueFull
    | DroppedTimeout | DroppedWriteErr

  /** How often each counter has been incremented. */
  type Counts = Counter -> nat

  const NO_COUNTS: Counts := c => 0

  function Bump(counts: Counts, c: Counter): Counts {
    d => if d == c then counts(d) + 1 else counts(d)
  }

  function Settle(counts: Counts, c: Counter): Counts
    requires counts(c) > 0
  {
    d => if d == c then if counts(d) > 0 then counts(d) - 1 else 0 else counts(d)
  }

  datatype DropReason = MarshalError | QueueFull | EnqueueTimeout | UnknownLaneName

  /** The connection field: nil, usable, or closed by one of its users. */
  datatype Conn = Absent | Open | Closed

  /** The connection loop: dialling, inside readPump, waiting for the pump to finish, or stopped for good. */
  datatype Runner = Dialing | Reading | Joining | Halted

  /** The program counter of the pump, with the message it holds. */
  datatype Pump =
    | Stopped                // not running
    | Top                    // about to look at the pending slot
    | Poll                   // about to poll the critical queue
    | Select                 // waiting on both queues and the ticker
    | Writing(msg: Message)  // inside writeOne, write not yet attempted
    | Acked(lane: Lane)      // written, about to count it as sent
    | Erred(msg: Message)    // write failed, about to count the error
    | Parking(msg: Message)  // about to put the critical message in the pending slot
    | Retrying               // about to count the retry
    | Losing(noConn: bool)   // about to count the lost telemetry message
    | Lost                   // about to count the write failure a second time
    | Closing                // about to close the connection

  /** History: what has been accepted, written and lost, in order. */
  datatype Event =
    | Accepted(msg: Message)
    | Written(msg: Message)
    | WriteFailed(msg: Message)
    | Dropped(lane: Lane, reason: DropReason)

  datatype State = State(
    criticalCap: nat,
    telemetryCap: nat,
    critical: seq<Message>,
    telemetry: seq<Message>,
    pending: Option<Message>,
    conn: Conn,
    runner: Runner,
    revoked: bool,
    pump: Pump,
    counted: Counts, // the counters
    owed: Counts,    // increments that producers have yet to perform
    log: seq<Event>,
    wire: seq<Message>)         // what has reached Central

  function Init(criticalCap: nat, telemetryCap: nat): State {
    State(criticalCap, telemetryCap, [], [], None, Absent, Dialing, false, Stopped,
          NO_COUNTS, NO_COUNTS, [], [])
  }

  /* ----- Steps ----- */

  datatype ProducerStep =
    | Accept(msg: Message)
    | TimeOut(msg: Message)
    | Overflow(msg: Message)
    | Refuse(msg: Message)
    | FailMarshal(lane: Lane)
    | CountOwed(counter: Counter)

  datatype LoopStep =
    | Dial
    | ReadEnd(revoked: bool)
    | Join

  datatype PumpStep =
    | TakePending
    | PollCritical
    | SelectCritical
    | SelectTelemetry
    | SelectTick(pingOk: bool)
    | WriteOk
    | WriteFail(delivered: bool)
    | WriteNoConn
    | Advance

  datatype Step = Producer(p: ProducerStep) | Loop(l: LoopStep) | Write(w: PumpStep)

  /** The two counters that recordDrop increments; a bad lane name has no counter of its own. */
  function LaneDropped(lane: Lane): Counter {
    if lane == Critical then DroppedCritical else DroppedTelemetry
  }

  function ReasonDropped(reason: DropReason): Option<Counter> {
    match reason
    case MarshalError => Some(DroppedMarshal)
    case QueueFull => Some(DroppedQueueFull)
    case EnqueueTimeout => Some(DroppedTimeout)
    case UnknownLaneName => None
  }

  predicate Enabled(s: State, step: Step) {
    match step
    case Producer(p) => ProducerEnabled(s, p)
    case Loop(l) => LoopEnabled(s, l)
    case Write(w) => PumpEnabled(s, w)
  }

  function Next(s: State, step: Step): State
    requires Enabled(s, step)
  {
    match step
    case Producer(p) => ProducerNext(s, p)
    case Loop(l) => LoopNext(s, l)
    case Write(w) => PumpNext(s, w)
  }

  /* ----- Producers: enqueue and recordDrop ----- */

  /**
   A send needs room. The timer of a critical message may win whether or not there is room;
   a telemetry message is only dropped when its queue is full.
   */
  predicate ProducerEnabled(s: State, p: ProducerStep) {
    match p
    case Accept(m) =>
      || (m.lane == Critical && |s.critical| < s.criticalCap)
      || (m.lane == Telemetry && |s.telemetry| < s.telemetryCap)
    case TimeOut(m) => m.lane == Critical
    case Overflow(m) => m.lane == Telemetry && |s.telemetry| >= s.telemetryCap
    case Refuse(m) => m.lane.UnknownLane?
    case FailMarshal(_) => true
    case CountOwed(c) => s.owed(c) > 0
  }

  function ProducerNext(s: State, p: ProducerStep): State
    requires ProducerEnabled(s, p)
  {
    match p
    case Accept(m) =>
      var s := s.(log := s.log + [Accepted(m)]);
      if m.lane == Critical then
        s.(critical := s.critical + [m], owed := Bump(s.owed, QueuedCritical))
      else
        s.(telemetry := s.telemetry + [m], owed := Bump(s.owed, QueuedTelemetry))
    case TimeOut(m) => Drop(s, m.lane, EnqueueTimeout)
    case Overflow(m) => Drop(s, m.lane, QueueFull)
    case Refuse(m) => Drop(s, m.lane, UnknownLaneName)
    case FailMarshal(lane) => Drop(s, lane, MarshalError)
    case CountOwed(c) => Count(s, c).(owed := Settle(s.owed, c))
  }

  function Drop(s: State, lane: Lane, reason: DropReason): State {
    var owed := Bump(s.owed, LaneDropped(lane));
    var counter := ReasonDropped(reason);
    s.(log := s.log + [Dropped(lane, reason)],
       owed := if counter.Some? then Bump(owed, counter.value) else owed)
  }

  function Count(s: State, c: Counter): State {
    s.(counted := Bump(s.counted, c))
  }

  /* ----- Connection loop: run and readPump ----- */

  predicate LoopEnabled(s: State, l: LoopStep) {
    match l
    case Dial => s.runner == Dialing && !s.revoked
    case ReadEnd(_) => s.runner == Reading
    case Join => s.runner == Joining && s.pump == Stopped
  }

  function LoopNext(s: State, l: LoopStep): State
    requires LoopEnabled(s, l)
  {
    match l
    case Dial => s.(conn := Open, runner := Reading, pump := Top)
    case ReadEnd(revoked) => s.(conn := Closed, runner := Joining, revoked := s.revoked || revoked)
    case Join => s.(conn := Absent, runner := if s.revoked then Halted else Dialing)
  }

  /* ----- Write pump: writePump and writeOne ----- */

  predicate PumpEnabled(s: State, w: PumpStep) {
    match w
    case TakePending => s.pump == Top
    case PollCritical => s.pump == Poll
    case SelectCritical => s.pump == Select && s.critical != []
    case SelectTelemetry => s.pump == Select && s.telemetry != []
    case SelectTick(pingOk) => s.pump == Select && (pingOk ==> s.conn != Closed)
    case WriteOk => s.pump.Writing? && s.conn == Open
    case WriteFail(_) => s.pump.Writing? && s.conn != Absent
    case WriteNoConn => s.pump.Writing? && s.conn == Absent
    case Advance =>
      s.pump.Acked? || s.pump.Erred? || s.pump.Parking? || s.pump.Retrying? || s.pump.Losing? || s.pump.Lost? || s.pump.Closing?
  }

  function PumpNext(s: State, w: PumpStep): State
    requires PumpEnabled(s, w)
  {
    match w
    case TakePending =>
      if s.pending.Some? then s.(pending := None, pump := Writing(s.pending.value))
      else s.(pump := Poll)
    case PollCritical => if s.critical != [] then TakeCritical(s) else s.(pump := Select)
    case SelectCritical => TakeCritical(s)
    case SelectTelemetry => s.(telemetry := s.telemetry[1..], pump := Writing(s.telemetry[0]))
    case SelectTick(pingOk) => s.(pump := if s.conn == Absent || pingOk then Top else Stopped)
    case WriteOk =>
      var m := s.pump.msg;
      s.(log := s.log + [Written(m)], wire := s.wire + [m], pump := Acked(m.lane))
    case WriteFail(delivered) =>
      var m := s.pump.msg;
      s.(log := s.log + [WriteFailed(m)],
         wire := if delivered then s.wire + [m] else s.wire,
         pump := Erred(m))
    case WriteNoConn =>
      s.(pump := if s.pump.msg.lane == Critical then Parking(s.pump.msg) else Losing(true))
    case Advance => AdvancePump(s)
  }

  function TakeCritical(s: State): State
    requires s.critical != []
  {
    s.(critical := s.critical[1..], pump := Writing(s.critical[0]))
  }

  /** The rest of writeOne, one shared update at a time. */
  function AdvancePump(s: State): State
    requires PumpEnabled(s, Advance)
  {
    match s.pump
    case Acked(lane) => Count(s, if lane == Critical then SentCritical else SentTelemetry).(pump := Top)
    case Erred(m) => Count(s, DroppedWriteErr).(pump := if m.lane == Critical then Parking(m) else Losing(false))
    case Parking(m) => s.(pending := Some(m), pump := Retrying)
    case Retrying => Count(s, RetriedCritical).(pump := Closing)
    case Losing(noConn) => Count(s, DroppedTelemetry).(pump := if noConn then Closing else Lost)
    case Lost => Count(s, DroppedWriteErr).(pump := Closing)
    case Closing => s.(conn := if s.conn == Absent then Absent else Closed, pump := Stopped)
  }

  /* ----- Runs ----- */

  /** A finite run: consecutive states joined by enabled steps, starting from an idle transport. */
  ghost predicate IsRun(states: seq<State>, steps: seq<Step>) {
    && |states| == |steps| + 1
    && (exists c: nat, t: nat :: states[0] == Init(c, t))
    && forall i :: 0 <= i < |steps| ==> Enabled(states[i], steps[i]) && states[i + 1] == Next(states[i], steps[i])
  }
}
