/** From every state of a run, unless the agent was revoked, what is undelivered can be delivered. */
module TransportProgress {
  import opened Wire
  import opened Transport
  import opened TransportSafety
  import opened TransportRuns

  /**
   An enqueue is always decided: by room in the lane; for a critical message also by its timer, room or
   not; for telemetry by a full queue only; for an unknown lane at once. Marshalling may fail any time.
   */
  lemma EnqueueIsDecided(s: State, m: Message)
    ensures Enabled(s, Producer(Accept(m))) <==>
      (m.lane == Critical && |s.critical| < s.criticalCap) || (m.lane == Telemetry && |s.telemetry| < s.telemetryCap)
    ensures Enabled(s, Producer(TimeOut(m))) <==> m.lane == Critical
    ensures Enabled(s, Producer(Overflow(m))) <==> m.lane == Telemetry && !Enabled(s, Producer(Accept(m)))
    ensures Enabled(s, Producer(Refuse(m))) <==> m.lane.UnknownLane?
    ensures Enabled(s, Producer(FailMarshal(m.lane)))
  {
  }

  /** The pump lives on a connection that has not failed. */
  predicate Sending(s: State) {
    s.runner == Reading && s.conn == Open && (s.pump in {Top, Poll, Select} || s.pump.Writing? || s.pump.Acked?)
  }

  /** What happens next if writes succeed wherever they can, and the connection is renewed when it has failed. */
  function Onward(s: State): Step {
    match s.pump
    case Stopped =>
      if s.runner == Reading then Loop(ReadEnd(false)) else if s.runner == Joining then Loop(Join) else Loop(Dial)
    case Top => Write(TakePending)
    case Poll => Write(PollCritical)
    case Select =>
      if s.critical != [] then Write(SelectCritical) else if s.telemetry != [] then Write(SelectTelemetry) else Write(SelectTick(false))
    case Writing(_) => if Sending(s) then Write(WriteOk) else Write(WriteFail(false))
    case _ => Write(Advance)
  }

  /** How far the pump, or else the connection loop, has come. */
  function Rank(s: State): nat {
    match s.pump
    case Acked(_) => 14
    case Top => 13
    case Poll => 12
    case Select => 11
    case Writing(_) => 10
    case Erred(_) => 9
    case Losing(_) => 8
    case Lost => 7
    case Parking(_) => 8
    case Retrying => 7
    case Closing => 6
    case Stopped => if s.runner == Reading then 3 else if s.runner == Joining then 2 else 1
  }

  ghost predicate MayGoOn(s: State) {
    Shape(s) && !s.revoked && s.runner != Halted
  }

  lemma InitMayGoOn(criticalCap: nat, telemetryCap: nat)
    ensures MayGoOn(Init(criticalCap, telemetryCap))
  {
  }

  /** An agent that is not revoked stays so, except by a reader that ends with a revocation. */
  lemma StaysUnrevoked(s: State, step: Step)
    requires MayGoOn(s) && Enabled(s, step)
    ensures MayGoOn(Next(s, step)) <==> step != Loop(ReadEnd(true))
  {
    ShapeNext(s, step);
  }

  /** The messages that are yet to be written, the one that the pump is about to write included. */
  function Backlog(s: State): nat {
    |Undelivered(s)| + |s.telemetry| + if s.pump.Writing? && s.pump.msg.lane != Critical then 1 else 0
  }

  /** Each such step brings the delivery nearer: by a step, by a message, or by a new connection. */
  lemma OnwardAdvances(s: State)
    requires MayGoOn(s) && (Undelivered(s) != [] || s.telemetry != [])
    ensures Enabled(s, Onward(s)) && Onward(s) != Loop(ReadEnd(true)) && !Onward(s).Producer?
    ensures var s' := Next(s, Onward(s));
      && MayGoOn(s') && (Sending(s) ==> Sending(s'))
      && (Sending(s) ==> Backlog(s') < Backlog(s) || (Backlog(s') == Backlog(s) && Rank(s') < Rank(s)))
      && (!Sending(s) ==> Sending(s') || Rank(s') < Rank(s))
      && s'.criticalCap == s.criticalCap
  {
    ShapeNext(s, Onward(s));
  }

  /**
   Without any further message and without a single failing write on a new connection, everything that
   is queued or undelivered is written after finitely many steps.
   */
  lemma {:induction false} CanDeliver(s: State) returns (steps: seq<Step>, s': State)
    requires MayGoOn(s)
    ensures Leads(s, steps, s') && MayGoOn(s') && Undelivered(s') == [] && s'.telemetry == [] && s'.criticalCap == s.criticalCap
    ensures forall i :: 0 <= i < |steps| ==> !steps[i].Producer?
    decreases !Sending(s), if Sending(s) then Backlog(s) else 0, Rank(s)
  {
    if Undelivered(s) == [] && s.telemetry == [] {
      steps, s' := [], s;
    } else {
      OnwardAdvances(s);
      var rest;
      rest, s' := CanDeliver(Next(s, Onward(s)));
      steps := [Onward(s)] + rest;
      assert steps[1..] == rest;
    }
  }
}
