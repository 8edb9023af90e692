/**
 The upstream client as an object. Every method performs, on the real fields, an uninterrupted
 series of steps of the transport machine, which its contract names.
 */
module UpstreamClients {
  import opened Wire
  import opened Transport
  import opened TransportRuns

  /* ----- Series of steps ----- */

  lemma {:induction false} LeadsStaySafe(s: State, steps: seq<Step>, s': State)
    requires Safe(s) && Leads(s, steps, s')
    ensures Safe(s')
    decreases steps
  {
    if steps != [] {
      SafeNext(s, steps[0]);
      LeadsStaySafe(Next(s, steps[0]), steps[1..], s');
    }
  }

  /* ----- What each operation performs ----- */

  function DropSteps(lane: Lane, reason: DropReason): seq<Step> {
    [Producer(CountOwed(LaneDropped(lane)))]
    + match ReasonDropped(reason)
      case Some(c) => [Producer(CountOwed(c))]
      case None => []
  }

  /** An enqueue that meets a full queue drops the message: at once, or when its timer runs out. */
  function EnqueueSteps(s: State, m: Message): seq<Step> {
    match m.lane
    case Critical =>
      if |s.critical| < s.criticalCap then [Producer(Accept(m)), Producer(CountOwed(QueuedCritical))]
      else [Producer(TimeOut(m))] + DropSteps(m.lane, EnqueueTimeout)
    case Telemetry =>
      if |s.telemetry| < s.telemetryCap then [Producer(Accept(m)), Producer(CountOwed(QueuedTelemetry))]
      else [Producer(Overflow(m))] + DropSteps(m.lane, QueueFull)
    case UnknownLane(_) => [Producer(Refuse(m))] + DropSteps(m.lane, UnknownLaneName)
  }

  datatype WriteOutcome = Succeeds | Fails(delivered: bool)

  function Advances(n: nat): seq<Step> {
    seq(n, i => Write(Advance))
  }

  function WriteOneSteps(conn: Conn, lane: Lane, outcome: WriteOutcome): seq<Step> {
    if conn == Absent then [Write(WriteNoConn)] + Advances(if lane == Critical then 3 else 2)
    else if conn == Open && outcome == Succeeds then [Write(WriteOk), Write(Advance)]
    else [Write(WriteFail(outcome.Fails? && outcome.delivered))] + Advances(4)
  }

  lemma Leads1(s: State, a: Step)
    requires Enabled(s, a)
    ensures Leads(s, [a], Next(s, a))
  {
  }

  lemma Leads2(s: State, a: Step, b: Step)
    requires Enabled(s, a) && Enabled(Next(s, a), b)
    ensures Leads(s, [a, b], Next(Next(s, a), b))
  {
    Leads1(Next(s, a), b);
    assert [a, b][1..] == [b];
  }

  /** Why a message is dropped: its producer could not queue it, or the pump could not write it. */
  datatype Reason = NotQueued(reason: DropReason) | WriteFailure | ConnUnavailable

  function ReasonCounter(reason: Reason): Option<Counter> {
    match reason
    case NotQueued(r) => ReasonDropped(r)
    case WriteFailure => Some(DroppedWriteErr)
    case ConnUnavailable => None
  }

  /** A drop counts the message under its lane and, if its reason has a counter, under its reason. */
  function Recorded(counts: Counts, lane: Lane, reason: Reason): Counts {
    var first := Bump(counts, LaneDropped(lane));
    match ReasonCounter(reason)
    case Some(c) => Bump(first, c)
    case None => first
  }

  /** Which counters each kind of drop ticks; an unknown lane counts as telemetry. */
  lemma DropTicks(counts: Counts, lane: Lane)
    ensures var first := Bump(counts, if lane == Critical then DroppedCritical else DroppedTelemetry);
      && Recorded(counts, lane, NotQueued(EnqueueTimeout)) == Bump(first, DroppedTimeout)
      && Recorded(counts, lane, NotQueued(QueueFull)) == Bump(first, DroppedQueueFull)
      && Recorded(counts, lane, NotQueued(MarshalError)) == Bump(first, DroppedMarshal)
      && Recorded(counts, lane, WriteFailure) == Bump(first, DroppedWriteErr)
      && Recorded(counts, lane, NotQueued(UnknownLaneName)) == Recorded(counts, lane, ConnUnavailable) == first
    ensures forall c, d :: Bump(counts, c)(d) == counts(d) + if d == c then 1 else 0
  {
  }

  function Dropping(counts: Counts, lane: Lane, reason: DropReason): Counts {
    Recorded(counts, lane, NotQueued(reason))
  }

  lemma DropRuns(s: State, lane: Lane, reason: DropReason)
    ensures var dropped := Drop(s, lane, reason); var steps := DropSteps(lane, reason);
      CanRun(dropped, steps)
      && After(dropped, steps) == s.(counted := Dropping(s.counted, lane, reason),
                                     log := s.log + [Dropped(lane, reason)], owed := After(dropped, steps).owed)
  {
    CountDrop(Drop(s, lane, reason), lane, reason);
  }

  lemma CountDrop(s: State, lane: Lane, reason: DropReason)
    requires s.owed(LaneDropped(lane)) > 0
    requires ReasonDropped(reason).Some? ==> s.owed(ReasonDropped(reason).value) > 0
    ensures CanRun(s, DropSteps(lane, reason))
    ensures var s' := After(s, DropSteps(lane, reason));
      s' == s.(counted := Dropping(s.counted, lane, reason), owed := s'.owed)
  {
    var first := LaneDropped(lane);
    match ReasonDropped(reason)
    case Some(c) =>
      assert DropSteps(lane, reason) == [Producer(CountOwed(first)), Producer(CountOwed(c))];
      CountTwo(s, first, c);
    case None =>
      assert DropSteps(lane, reason) == [Producer(CountOwed(first))];
      Leads1(s, Producer(CountOwed(first)));
  }

  lemma CountTwo(s: State, a: Counter, b: Counter)
    requires a != b && s.owed(a) > 0 && s.owed(b) > 0
    ensures var steps := [Producer(CountOwed(a)), Producer(CountOwed(b))];
      CanRun(s, steps) && After(s, steps) == s.(counted := Bump(Bump(s.counted, a), b), owed := After(s, steps).owed)
  {
    Leads2(s, Producer(CountOwed(a)), Producer(CountOwed(b)));
  }

  /** What an enqueue leaves on the queues and the counters. */
  lemma EnqueueRuns(s: State, m: Message)
    ensures CanRun(s, EnqueueSteps(s, m))
    ensures var s' := After(s, EnqueueSteps(s, m));
      match m.lane
      case Critical =>
        if |s.critical| < s.criticalCap then
          s' == s.(critical := s.critical + [m], counted := Bump(s.counted, QueuedCritical), log := s'.log, owed := s'.owed)
        else s' == s.(counted := Dropping(s.counted, m.lane, EnqueueTimeout), log := s'.log, owed := s'.owed)
      case Telemetry =>
        if |s.telemetry| < s.telemetryCap then
          s' == s.(telemetry := s.telemetry + [m], counted := Bump(s.counted, QueuedTelemetry), log := s'.log, owed := s'.owed)
        else s' == s.(counted := Dropping(s.counted, m.lane, QueueFull), log := s'.log, owed := s'.owed)
      case UnknownLane(_) => s' == s.(counted := Dropping(s.counted, m.lane, UnknownLaneName), log := s'.log, owed := s'.owed)
  {
    match m.lane
    case Critical =>
      if |s.critical| < s.criticalCap {
        Leads2(s, Producer(Accept(m)), Producer(CountOwed(QueuedCritical)));
      } else {
        DropRuns(s, m.lane, EnqueueTimeout);
        Prepend(s, Producer(TimeOut(m)), DropSteps(m.lane, EnqueueTimeout));
      }
    case Telemetry =>
      if |s.telemetry| < s.telemetryCap {
        Leads2(s, Producer(Accept(m)), Producer(CountOwed(QueuedTelemetry)));
      } else {
        DropRuns(s, m.lane, QueueFull);
        Prepend(s, Producer(Overflow(m)), DropSteps(m.lane, QueueFull));
      }
    case UnknownLane(_) => DropRuns(s, m.lane, UnknownLaneName);
        Prepend(s, Producer(Refuse(m)), DropSteps(m.lane, UnknownLaneName));
  }

  /** Which counters an enqueue ticks: for a message that is accepted one, for a dropped one its lane's and its reason's. */
  lemma EnqueueTicks(s: State, m: Message)
    ensures CanRun(s, EnqueueSteps(s, m)) &&
      var counted := After(s, EnqueueSteps(s, m)).counted;
      match m.lane
      case Critical =>
        counted == if |s.critical| < s.criticalCap then Bump(s.counted, QueuedCritical) else Bump(Bump(s.counted, DroppedCritical), DroppedTimeout)
      case Telemetry =>
        counted == if |s.telemetry| < s.telemetryCap then Bump(s.counted, QueuedTelemetry) else Bump(Bump(s.counted, DroppedTelemetry), DroppedQueueFull)
      case UnknownLane(_) => counted == Bump(s.counted, DroppedTelemetry)
  {
    EnqueueRuns(s, m);
    DropTicks(s.counted, m.lane);
  }

  /**
   What the environment does during one iteration of the pump: messages that other goroutines
   enqueue between the poll and the select, which ready case the select takes, and the outcome
   of the write or ping.
   */
  datatype Turn = Turn(arrivals: seq<Message>, preferTelemetry: bool, tick: bool, outcome: WriteOutcome)

  /** One connection: what happens while the pump runs, the turn after the reader has ended, and how it ended. */
  datatype Session = Session(turns: seq<Turn>, last: Turn, revoked: bool)

  /** How often a series of steps starts an iteration of the pump. */
  function Iterations(steps: seq<Step>): nat {
    if steps == [] then 0
    else Iterations(steps[..|steps| - 1]) + if steps[|steps| - 1] == Write(TakePending) then 1 else 0
  }

  lemma {:induction false} IterationsAppend(a: seq<Step>, b: seq<Step>)
    ensures Iterations(a + b) == Iterations(a) + Iterations(b)
  {
    if b == [] {
      assert a + b == a;
    } else {
      assert (a + b)[..|a + b| - 1] == a + b[..|b| - 1];
      IterationsAppend(a, b[..|b| - 1]);
    }
  }

  lemma {:induction false} NoIteration(steps: seq<Step>)
    requires forall i :: 0 <= i < |steps| ==> steps[i] != Write(TakePending)
    ensures Iterations(steps) == 0
  {
    if steps != [] {
      NoIteration(steps[..|steps| - 1]);
    }
  }

  /** Joins two series of steps, with the iterations that they start. */
  lemma Join2(s: State, first: seq<Step>, mid: State, second: seq<Step>, s': State)
    requires Leads(s, first, mid) && Leads(mid, second, s')
    ensures Leads(s, first + second, s') && Iterations(first + second) == Iterations(first) + Iterations(second)
  {
    LeadsFurther(s, first, mid, second, s');
    IterationsAppend(first, second);
  }

  class UpstreamClient {
    const criticalCap: nat
    const telemetryCap: nat
    var critical: seq<Message>
    var telemetry: seq<Message>
    var pendingCritical: Option<Message>
    var conn: Conn
    var counters: Counts
    ghost var model: State

    /** The object agrees with the machine it stands for. */
    ghost predicate Valid()
      reads this
    {
      && model.criticalCap == criticalCap && model.telemetryCap == telemetryCap
      && model.critical == critical && model.telemetry == telemetry && model.pending == pendingCritical
      && model.conn == conn && model.counted == counters
    }

    constructor (criticalCap: nat, telemetryCap: nat)
      ensures Valid() && model == Init(criticalCap, telemetryCap)
    {
      this.criticalCap := criticalCap;
      this.telemetryCap := telemetryCap;
      critical := [];
      telemetry := [];
      pendingCritical := None;
      conn := Absent;
      counters := NO_COUNTS;
      model := Init(criticalCap, telemetryCap);
    }

    method Add(c: Counter)
      modifies this`counters
      ensures counters == Bump(old(counters), c)
    {
      counters := Bump(counters, c);
    }

    method RecordDrop(lane: Lane, reason: Reason)
      modifies this`counters
      ensures counters == Recorded(old(counters), lane, reason)
      ensures var first := Bump(old(counters), if lane == Critical then DroppedCritical else DroppedTelemetry);
        match reason
        case WriteFailure => counters == Bump(first, DroppedWriteErr)
        case ConnUnavailable => counters == first
        case NotQueued(EnqueueTimeout) => counters == Bump(first, DroppedTimeout)
        case NotQueued(QueueFull) => counters == Bump(first, DroppedQueueFull)
        case NotQueued(MarshalError) => counters == Bump(first, DroppedMarshal)
        case NotQueued(UnknownLaneName) => counters == first
    {
      DropTicks(counters, lane);
      Add(LaneDropped(lane));
      match ReasonCounter(reason)
      case Some(c) => Add(c);
      case None =>
    }

    /**
     Queues a message or drops it. Whether a critical message finds room before its timer runs
     out is decided here by the room there is now.
     */
    method Enqueue(m: Message) returns (queued: bool)
      requires Valid()
      modifies this
      ensures Valid()
      ensures Leads(old(model), EnqueueSteps(old(model), m), model)
      ensures queued <==> (m.lane == Critical && |old(critical)| < criticalCap) || (m.lane == Telemetry && |old(telemetry)| < telemetryCap)
      ensures critical == old(critical) + if queued && m.lane == Critical then [m] else []
      ensures telemetry == old(telemetry) + if queued && m.lane == Telemetry then [m] else []
    {
      EnqueueRuns(model, m);
      ghost var next := After(model, EnqueueSteps(model, m));
      match m.lane {
        case Critical =>
          queued := |critical| < criticalCap;
          if queued {
            critical := critical + [m];
            Add(QueuedCritical);
          } else {
            RecordDrop(m.lane, NotQueued(EnqueueTimeout));
          }
        case Telemetry =>
          queued := |telemetry| < telemetryCap;
          if queued {
            telemetry := telemetry + [m];
            Add(QueuedTelemetry);
          } else {
            RecordDrop(m.lane, NotQueued(QueueFull));
          }
        case UnknownLane(_) =>
          queued := false;
          RecordDrop(m.lane, NotQueued(UnknownLaneName));
      }
      model := next;
    }

    method TakePendingCritical() returns (m: Option<Message>)
      requires Valid() && model.pump == Top
      modifies this`pendingCritical, this`model
      ensures Valid() && m == old(pendingCritical)
      ensures Leads(old(model), [Write(TakePending)], model)
    {
      Leads1(model, Write(TakePending));
      m := pendingCritical;
      pendingCritical := None;
      model := Next(model, Write(TakePending));
    }

    /** One write attempt, with what follows from its outcome; afterwards a failed connection is closed. */
    method WriteOne(m: Message, outcome: WriteOutcome) returns (alive: bool)
      requires Valid() && model.pump == Writing(m)
      modifies this
      ensures Valid()
      ensures Leads(old(model), WriteOneSteps(old(conn), m.lane, outcome), model)
      ensures alive <==> old(conn) == Open && outcome == Succeeds
      ensures model.pump == if alive then Top else Stopped
      ensures pendingCritical == if !alive && m.lane == Critical then Some(m) else old(pendingCritical)
      ensures conn == (if alive || old(conn) == Absent then old(conn) else Closed) && critical == old(critical) && telemetry == old(telemetry)
    {
      WriteOneRuns(model, m, outcome);
      ghost var next := After(model, WriteOneSteps(conn, m.lane, outcome));
      if conn == Absent {
        if m.lane == Critical {
          pendingCritical := Some(m);
          Add(RetriedCritical);
        } else {
          RecordDrop(m.lane, ConnUnavailable);
        }
        alive := false;
      } else if conn == Open && outcome == Succeeds {
        Add(if m.lane == Critical then SentCritical else SentTelemetry);
        alive := true;
      } else {
        Add(DroppedWriteErr);
        if m.lane == Critical {
          pendingCritical := Some(m);
          Add(RetriedCritical);
        } else {
          // this counts the write failure a second time
          RecordDrop(m.lane, WriteFailure);
        }
        conn := Closed;
        alive := false;
      }
      model := next;
    }

    method EnqueueAll(messages: seq<Message>) returns (ghost steps: seq<Step>)
      requires Valid()
      modifies this
      ensures Valid() && Leads(old(model), steps, model)
      ensures Iterations(steps) == 0
      ensures model.pump == old(model.pump) && model.runner == old(model.runner) && model.revoked == old(model.revoked)
      ensures conn == old(conn) && pendingCritical == old(pendingCritical)
    {
      steps := [];
      for k := 0 to |messages|
        invariant Valid() && Leads(old(model), steps, model)
        invariant Iterations(steps) == 0
        invariant model.pump == old(model.pump) && model.runner == old(model.runner) && model.revoked == old(model.revoked)
        invariant conn == old(conn) && pendingCritical == old(pendingCritical)
      {
        ghost var before := model;
        EnqueueRuns(model, messages[k]);
        var _ := Enqueue(messages[k]);
        NoIteration(EnqueueSteps(before, messages[k]));
        Join2(old(model), steps, before, EnqueueSteps(before, messages[k]), model);
        steps := steps + EnqueueSteps(before, messages[k]);
      }
    }

    /** Writes the message that the pump has just taken with the given step. */
    method WriteTaken(m: Message, outcome: WriteOutcome, ghost start: State, ghost before: seq<Step>)
      returns (alive: bool, ghost steps: seq<Step>)
      requires Valid() && model.pump == Writing(m) && Leads(start, before, model) && Iterations(before) == 1
      modifies this
      ensures Valid() && Leads(start, steps, model) && Iterations(steps) == 1
      ensures model.pump == if alive then Top else Stopped
      ensures alive ==> old(conn) == Open
      ensures model.runner == old(model.runner) && model.revoked == old(model.revoked)
      ensures conn == if alive || old(conn) == Absent then old(conn) else Closed
    {
      ghost var mid, written := model, WriteOneSteps(conn, m.lane, outcome);
      WriteOneRuns(model, m, outcome);
      alive := WriteOne(m, outcome);
      NoIteration(written);
      Join2(start, before, mid, written, model);
      steps := before + written;
    }

    /** One iteration of writePump: the pending slot, then a poll of the critical queue, then the select. */
    method PumpTurn(turn: Turn) returns (alive: bool, ghost steps: seq<Step>)
      requires Valid() && model.pump == Top && conn != Absent
      modifies this
      ensures Valid() && Leads(old(model), steps, model) && Iterations(steps) == 1
      ensures model.pump == if alive then Top else Stopped
      ensures alive ==> old(conn) == Open
      ensures model.runner == old(model.runner) && model.revoked == old(model.revoked)
      ensures conn != Absent && (alive ==> conn == Open)
    {
      var pending := TakePendingCritical();
      steps := [Write(TakePending)];
      if pending.Some? {
        alive, steps := WriteTaken(pending.value, turn.outcome, old(model), steps);
        return;
      }
      ghost var polled := model;
      Leads1(model, Write(PollCritical));
      Join2(old(model), steps, model, [Write(PollCritical)], Next(model, Write(PollCritical)));
      steps := steps + [Write(PollCritical)];
      model := Next(model, Write(PollCritical));
      if critical != [] {
        var m := critical[0];
        critical := critical[1..];
        alive, steps := WriteTaken(m, turn.outcome, old(model), steps);
        return;
      }
      ghost var mid := model;
      ghost var arrived := EnqueueAll(turn.arrivals);
      Join2(old(model), steps, mid, arrived, model);
      steps := steps + arrived;
      alive, steps := SelectTurn(turn, old(model), steps);
    }

    /** The select: any ready queue, or the ticker, which pings. */
    method SelectTurn(turn: Turn, ghost start: State, ghost before: seq<Step>) returns (alive: bool, ghost steps: seq<Step>)
      requires Valid() && model.pump == Select && conn != Absent
      requires Leads(start, before, model) && Iterations(before) == 1
      modifies this
      ensures Valid() && Leads(start, steps, model) && Iterations(steps) == 1
      ensures model.pump == if alive then Top else Stopped
      ensures alive ==> old(conn) == Open
      ensures model.runner == old(model.runner) && model.revoked == old(model.revoked)
      ensures conn != Absent && (alive ==> conn == Open)
    {
      ghost var step: Step;
      if telemetry != [] && !turn.tick && (turn.preferTelemetry || critical == []) {
        var m := telemetry[0];
        step := Write(SelectTelemetry);
        JoinOne(start, before, model, step);
        telemetry := telemetry[1..];
        model := Next(model, step);
        alive, steps := WriteTaken(m, turn.outcome, start, before + [step]);
      } else if critical != [] && !turn.tick {
        var m := critical[0];
        step := Write(SelectCritical);
        JoinOne(start, before, model, step);
        critical := critical[1..];
        model := Next(model, step);
        alive, steps := WriteTaken(m, turn.outcome, start, before + [step]);
      } else {
        alive := conn == Open && turn.outcome == Succeeds;
        step := Write(SelectTick(alive));
        JoinOne(start, before, model, step);
        model := Next(model, step);
        steps := before + [step];
      }
    }

    /** The pump: iterations until a write or ping fails, or the given turns are over. */
    method WritePump(turns: seq<Turn>) returns (alive: bool, done: nat, ghost steps: seq<Step>)
      requires Valid() && model.pump == Top && conn == Open
      modifies this
      ensures Valid() && Leads(old(model), steps, model) && Iterations(steps) == done <= |turns|
      ensures model.pump == if alive then Top else Stopped
      ensures alive ==> conn == Open && done == |turns|
      ensures model.runner == old(model.runner) && model.revoked == old(model.revoked) && conn != Absent
    {
      steps := [];
      alive, done := true, 0;
      while done < |turns|
        invariant done <= |turns|
        invariant Valid() && Leads(old(model), steps, model) && Iterations(steps) == done
        invariant alive && model.pump == Top && conn == Open
        invariant model.runner == old(model.runner) && model.revoked == old(model.revoked)
      {
        ghost var mid := model;
        ghost var more: seq<Step>;
        alive, more := PumpTurn(turns[done]);
        Join2(old(model), steps, mid, more, model);
        steps := steps + more;
        done := done + 1;
        if !alive {
          return;
        }
      }
    }

    /**
     Queues a critical message. While there is no room it waits and the pump takes turns; if there
     still is none after the turns that its timer leaves, or after the pump has stopped, it is dropped.
     Without a pump there are no turns to take.
     */
    method EnqueueCritical(m: Message, turns: seq<Turn>) returns (queued: bool, waited: nat, ghost steps: seq<Step>)
      requires Valid() && m.lane == Critical && (turns != [] ==> model.pump == Top && conn == Open)
      modifies this
      ensures Valid() && Leads(old(model), steps, model) && Iterations(steps) == waited <= |turns|
      ensures queued ==> critical != [] && critical[|critical| - 1] == m
      ensures |old(critical)| < criticalCap ==> queued && waited == 0
      ensures !queued ==> |critical| >= criticalCap && (waited == |turns| || model.pump == Stopped)
    {
      steps, waited := [], 0;
      var alive := turns != [];
      while |critical| >= criticalCap && waited < |turns| && alive
        invariant waited <= |turns| && Valid() && Leads(old(model), steps, model) && Iterations(steps) == waited
        invariant if alive then model.pump == Top && conn == Open else turns == [] || model.pump == Stopped
        invariant |old(critical)| < criticalCap ==> waited == 0 && critical == old(critical)
        decreases |turns| - waited
      {
        ghost var before := model;
        ghost var more: seq<Step>;
        alive, more := PumpTurn(turns[waited]);
        Join2(old(model), steps, before, more, model);
        steps := steps + more;
        waited := waited + 1;
      }
      ghost var mid := model;
      EnqueueRuns(model, m);
      NoIteration(EnqueueSteps(model, m));
      queued := Enqueue(m);
      Join2(old(model), steps, mid, EnqueueSteps(mid, m), model);
      steps := steps + EnqueueSteps(mid, m);
    }

    method Connect() returns (ghost steps: seq<Step>)
      requires Valid() && conn == Absent && model.runner == Dialing && !model.revoked
      modifies this`conn, this`model
      ensures Valid() && conn == Open && Leads(old(model), steps, model) && steps == [Loop(Dial)]
      ensures model.pump == Top && model.runner == Reading && !model.revoked
    {
      Leads1(model, Loop(Dial));
      steps := [Loop(Dial)];
      conn := Open;
      model := Next(model, Loop(Dial));
    }

    /** readPump ends and closes the connection. */
    method EndReading(revoked: bool) returns (ghost steps: seq<Step>)
      requires Valid() && model.runner == Reading && !model.revoked
      modifies this`conn, this`model
      ensures Valid() && conn == Closed && Leads(old(model), steps, model) && steps == [Loop(ReadEnd(revoked))]
      ensures model.pump == old(model.pump) && model.runner == Joining && model.revoked == revoked
    {
      Leads1(model, Loop(ReadEnd(revoked)));
      steps := [Loop(ReadEnd(revoked))];
      conn := Closed;
      model := Next(model, Loop(ReadEnd(revoked)));
    }

    /** One connection, from dialling until the pump has finished. */
    method RunSession(session: Session) returns (ghost steps: seq<Step>)
      requires Valid() && conn == Absent && model.runner == Dialing && !model.revoked
      modifies this
      ensures Valid() && Leads(old(model), steps, model)
      ensures conn == Absent && model.pump == Stopped && model.revoked == session.revoked
      ensures model.runner == if session.revoked then Halted else Dialing
    {
      steps := Connect();
      ghost var mid := model;
      var alive: bool;
      var done: nat;
      ghost var more: seq<Step>;
      alive, done, more := WritePump(session.turns);
      Join2(old(model), steps, mid, more, model);
      steps := steps + more;
      mid := model;
      more := EndReading(session.revoked);
      Join2(old(model), steps, mid, more, model);
      steps := steps + more;
      if alive {
        mid := model;
        alive, more := PumpTurn(session.last);
        Join2(old(model), steps, mid, more, model);
        steps := steps + more;
      }
      JoinOne(old(model), steps, model, Loop(Join));
      steps := steps + [Loop(Join)];
      conn := Absent;
      model := Next(model, Loop(Join));
    }

    /** The connection loop over a series of sessions: one pump at a time, until the agent is revoked. */
    method Run(sessions: seq<Session>) returns (ghost steps: seq<Step>)
      requires Valid() && conn == Absent && model.runner == Dialing && !model.revoked && model.pump == Stopped
      modifies this
      ensures Valid() && Leads(old(model), steps, model)
      ensures conn == Absent && model.pump == Stopped
      ensures model.runner == if model.revoked then Halted else Dialing
      ensures model.revoked <==> exists k :: 0 <= k < |sessions| && sessions[k].revoked
      ensures Safe(old(model)) ==> Safe(model)
    {
      steps := [];
      for k := 0 to |sessions|
        invariant Valid() && Leads(old(model), steps, model)
        invariant conn == Absent && model.pump == Stopped && model.runner == Dialing && !model.revoked
        invariant forall i :: 0 <= i < k ==> !sessions[i].revoked
      {
        ghost var mid := model;
        ghost var more := RunSession(sessions[k]);
        LeadsFurther(old(model), steps, mid, more, model);
        steps := steps + more;
        if sessions[k].revoked {
          break;
        }
      }
      if Safe(old(model)) {
        LeadsStaySafe(old(model), steps, model);
      }
    }
  }

  lemma JoinOne(start: State, before: seq<Step>, s: State, step: Step)
    requires Leads(start, before, s) && Enabled(s, step)
    ensures Leads(start, before + [step], Next(s, step))
    ensures Iterations(before + [step]) == Iterations(before) + if step == Write(TakePending) then 1 else 0
  {
    Leads1(s, step);
    Join2(start, before, s, [step], Next(s, step));
  }

  /** What one write attempt leaves in the slot, the connection and the counters. */
  lemma WriteOneRuns(s: State, m: Message, outcome: WriteOutcome)
    requires s.pump == Writing(m)
    ensures CanRun(s, WriteOneSteps(s.conn, m.lane, outcome))
    ensures var s' := After(s, WriteOneSteps(s.conn, m.lane, outcome));
      if s.conn == Absent then
        s' == s.(pending := if m.lane == Critical then Some(m) else s.pending,
                 counted := Bump(s.counted, if m.lane == Critical then RetriedCritical else DroppedTelemetry),
                 pump := Stopped)
      else if s.conn == Open && outcome == Succeeds then
        s' == s.(counted := Bump(s.counted, if m.lane == Critical then SentCritical else SentTelemetry),
                 pump := Top, log := s.log + [Written(m)], wire := s.wire + [m])
      else
        s' == s.(pending := if m.lane == Critical then Some(m) else s.pending,
                 counted := if m.lane == Critical then Bump(Bump(s.counted, DroppedWriteErr), RetriedCritical)
                            else Bump(Bump(Bump(s.counted, DroppedWriteErr), DroppedTelemetry), DroppedWriteErr),
                 conn := Closed, pump := Stopped, log := s.log + [WriteFailed(m)],
                 wire := if outcome.Fails? && outcome.delivered then s.wire + [m] else s.wire)
  {
    if s.conn == Absent {
      AdvancesRun(Next(s, Write(WriteNoConn)), if m.lane == Critical then 3 else 2);
      Prepend(s, Write(WriteNoConn), Advances(if m.lane == Critical then 3 else 2));
    } else if s.conn == Open && outcome == Succeeds {
      Leads2(s, Write(WriteOk), Write(Advance));
    } else {
      var fail := Write(WriteFail(outcome.Fails? && outcome.delivered));
      AdvancesRun(Next(s, fail), 4);
      Prepend(s, fail, Advances(4));
    }
  }

  lemma Prepend(s: State, a: Step, rest: seq<Step>)
    requires Enabled(s, a) && CanRun(Next(s, a), rest)
    ensures CanRun(s, [a] + rest) && After(s, [a] + rest) == After(Next(s, a), rest)
  {
  }

  lemma Advance1(s: State, n: nat)
    requires n > 0 && PumpEnabled(s, Advance) && CanRun(AdvancePump(s), Advances(n - 1))
    ensures CanRun(s, Advances(n)) && After(s, Advances(n)) == After(AdvancePump(s), Advances(n - 1))
  {
    assert Advances(n)[1..] == Advances(n - 1);
  }

  /** The pump's way from a failed write to its end. */
  lemma AdvancesRun(s: State, n: nat)
    requires || (s.pump.Erred? && n == 4) || (s.pump.Parking? && n == 3)
             || (s.pump == Losing(true) && n == 2) || (s.pump == Losing(false) && n == 3)
             || (s.pump == Retrying && n == 2) || (s.pump == Lost && n == 2) || (s.pump == Closing && n == 1)
    ensures CanRun(s, Advances(n))
    ensures After(s, Advances(n)) == Ending(s)
    decreases n
  {
    if n == 1 {
      assert Advances(0) == [];
      Advance1(s, 1);
    } else {
      AdvancesRun(AdvancePump(s), n - 1);
      Advance1(s, n);
    }
  }

  /** Where the pump ends up when nothing else happens meanwhile. */
  function Ending(s: State): State {
    var closed := s.(conn := if s.conn == Absent then Absent else Closed, pump := Stopped);
    match s.pump
    case Erred(m) =>
      if m.lane == Critical then
        closed.(pending := Some(m), counted := Bump(Bump(s.counted, DroppedWriteErr), RetriedCritical))
      else closed.(counted := Bump(Bump(Bump(s.counted, DroppedWriteErr), DroppedTelemetry), DroppedWriteErr))
    case Parking(m) => closed.(pending := Some(m), counted := Bump(s.counted, RetriedCritical))
    case Retrying => closed.(counted := Bump(s.counted, RetriedCritical))
    case Losing(noConn) =>
      closed.(counted := if noConn then Bump(s.counted, DroppedTelemetry) else Bump(Bump(s.counted, DroppedTelemetry), DroppedWriteErr))
    case Lost => closed.(counted := Bump(s.counted, DroppedWriteErr))
    case _ => closed
  }
}
