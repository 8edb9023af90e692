/** Central can always catch up: what is sent and what is undelivered can reach it. */
module ReplicaProgress {
  import opened Wire
  import N = TransportProgress
  import opened Replica

  ghost predicate CanRun(s: System, steps: seq<Step>)
    decreases steps
  {
    steps == [] || (Enabled(s, steps[0]) && CanRun(Next(s, steps[0]), steps[1..]))
  }

  function After(s: System, steps: seq<Step>): System
    requires CanRun(s, steps)
    decreases steps
  {
    if steps == [] then s else After(Next(s, steps[0]), steps[1..])
  }

  ghost predicate Leads(s: System, steps: seq<Step>, s': System) {
    CanRun(s, steps) && After(s, steps) == s'
  }

  lemma {:induction false} LeadsFurther(s: System, first: seq<Step>, mid: System, second: seq<Step>, s': System)
    requires Leads(s, first, mid) && Leads(mid, second, s')
    ensures Leads(s, first + second, s')
    decreases first
  {
    if first == [] {
      assert first + second == second;
    } else {
      assert (first + second)[1..] == first[1..] + second;
      LeadsFurther(Next(s, first[0]), first[1..], mid, second, s');
    }
  }

  lemma {:induction false} LeadsStaySound(s: System, steps: seq<Step>, s': System)
    requires Sound(s) && Leads(s, steps, s')
    ensures Sound(s')
    decreases steps
  {
    if steps != [] {
      SoundNext(s, steps[0]);
      LeadsStaySound(Next(s, steps[0]), steps[1..], s');
    }
  }

  function AsSteps(steps: seq<T.Step>): seq<Step> {
    if steps == [] then [] else [Transport(steps[0])] + AsSteps(steps[1..])
  }

  /** The connection loop and the pump take their steps while everything else stands still. */
  lemma {:induction false} TransportLeads(s: System, steps: seq<T.Step>, transport: T.State)
    requires L.Leads(s.transport, steps, transport) && forall i :: 0 <= i < |steps| ==> !steps[i].Producer?
    ensures Leads(s, AsSteps(steps), s.(transport := transport)) && AllSend(AsSteps(steps))
    decreases steps
  {
    if steps != [] {
      TransportLeads(s.(transport := T.Next(s.transport, steps[0])), steps[1..], transport);
      assert AsSteps(steps)[0] == Transport(steps[0]) && AsSteps(steps)[1..] == AsSteps(steps[1..]);
    } else {
      assert s.(transport := transport) == s;
    }
  }

  /** Steps that send: an event is accepted, or the transport goes on. */
  predicate Sends(step: Step) {
    step == SendEvent(true) || (step.Transport? && !step.t.Producer?)
  }

  ghost predicate AllSend(steps: seq<Step>) {
    forall i :: 0 <= i < |steps| ==> Sends(steps[i])
  }

  function Keys(events: seq<R.Event>): set<ContainerKey> {
    set i | 0 <= i < |events| :: events[i].key
  }

  ghost predicate MayCatchUp(s: System) {
    Sound(s) && !s.transport.revoked && s.transport.runner != T.Halted && s.transport.criticalCap > 0
  }

  /** Sending alone leads from one state to the other. */
  ghost predicate Reaches(s: System, s': System) {
    exists steps :: AllSend(steps) && Leads(s, steps, s')
  }

  lemma ReachesFurther(s: System, mid: System, s': System)
    requires Reaches(s, mid) && Reaches(mid, s')
    ensures Reaches(s, s')
  {
    var first :| AllSend(first) && Leads(s, first, mid);
    var second :| AllSend(second) && Leads(mid, second, s');
    LeadsFurther(s, first, mid, second, s');
    assert AllSend(first + second);
  }

  /** Nothing is queued or undelivered. */
  ghost predicate Drained(s: System) {
    S.Undelivered(s.transport) == [] && s.transport.telemetry == []
  }

  lemma CanDrain(s: System) returns (s': System)
    requires MayCatchUp(s)
    ensures Reaches(s, s') && MayCatchUp(s') && Drained(s') && s' == s.(transport := s'.transport)
  {
    var steps, transport := N.CanDeliver(s.transport);
    TransportLeads(s, steps, transport);
    s' := s.(transport := transport);
    LeadsStaySound(s, AsSteps(steps), s');
  }

  lemma StepReaches(s: System, step: Step)
    requires Enabled(s, step) && Sends(step)
    ensures Reaches(s, Next(s, step))
  {
    var steps := [step];
    assert steps[1..] == [] && CanRun(Next(s, step), []);
    assert AllSend(steps) && Leads(s, steps, Next(s, step));
  }

  /** There is room for an event once nothing is queued. */
  lemma CanOffer(s: System)
    requires s.outbox != [] && s.transport.critical == [] && s.transport.criticalCap > 0
    ensures Enabled(s, SendEvent(true))
    ensures var s' := Next(s, SendEvent(true));
      && s'.outbox == s.outbox[1..] && s'.states == s.states && s'.stale == s.stale - {s.outbox[0].key}
      && s'.transport.revoked == s.transport.revoked && s'.transport.runner == s.transport.runner
      && s'.transport.criticalCap == s.transport.criticalCap
  {
  }

  lemma CanSend(s: System)
    requires MayCatchUp(s) && Drained(s) && s.outbox != []
    ensures Enabled(s, SendEvent(true)) && Reaches(s, Next(s, SendEvent(true)))
    ensures var s' := Next(s, SendEvent(true));
      && MayCatchUp(s') && s'.outbox == s.outbox[1..] && s'.states == s.states && s'.stale == s.stale - {s.outbox[0].key}
  {
    CanOffer(s);
    SoundNext(s, SendEvent(true));
    StepReaches(s, SendEvent(true));
  }

  /** One more event is sent. */
  lemma CanDrainAndSend(s: System) returns (s': System)
    requires MayCatchUp(s) && s.outbox != []
    ensures Reaches(s, s') && MayCatchUp(s')
    ensures s'.outbox == s.outbox[1..] && s'.states == s.states && s'.stale == s.stale - {s.outbox[0].key}
  {
    var mid := CanDrain(s);
    CanSend(mid);
    s' := Next(mid, SendEvent(true));
    ReachesFurther(s, mid, s');
  }

  lemma {:induction false} CanSendAll(s: System) returns (s': System)
    requires MayCatchUp(s)
    ensures Reaches(s, s') && MayCatchUp(s') && Drained(s') && s'.outbox == []
    ensures s'.states == s.states && s'.stale == s.stale - Keys(s.outbox)
    decreases |s.outbox|
  {
    if s.outbox == [] {
      s' := CanDrain(s);
    } else {
      var mid := CanDrainAndSend(s);
      s' := CanSendAll(mid);
      ReachesFurther(s, mid, s');
      HeadKey(s.outbox);
    }
  }

  lemma HeadKey(events: seq<R.Event>)
    requires events != []
    ensures Keys(events) == {events[0].key} + Keys(events[1..])
    ensures forall keys: set<ContainerKey> :: keys - {events[0].key} - Keys(events[1..]) == keys - Keys(events)
  {
    forall key | key in Keys(events) ensures key in {events[0].key} + Keys(events[1..]) {
      var i :| 0 <= i < |events| && events[i].key == key;
      assert i > 0 ==> events[1..][i - 1].key == key;
    }
  }

  /**
   From every state of every run in which the agent has not been revoked, sending alone can lead to a
   state in which the events of the last reconcile are sent and nothing is undelivered. What Central has
   received by then is the agent's view of every container, except those whose latest event was dropped
   and to which the reconcile sent no other.
   */
  lemma CentralCanCatchUp(states: seq<System>, steps: seq<Step>, k: nat) returns (s': System)
    requires IsRun(states, steps) && k < |states|
    requires !states[k].transport.revoked && states[k].transport.runner != T.Halted && states[k].transport.criticalCap > 0
    ensures Reaches(states[k], s') && Drained(s') && s'.outbox == [] && s'.states == states[k].states
    ensures forall key: ContainerKey :: M.BAR !in key.name && key !in states[k].stale - Keys(states[k].outbox) ==>
      R.Lookup(L.Fold(Receive, NO_BELIEF, L.OnCritical(s'.transport.wire)).table, key) == R.PublicView(states[k].states, key)
  {
    RunIsSound(states, steps, k);
    s' := CanSendAll(states[k]);
    forall key: ContainerKey | M.BAR !in key.name && key !in s'.stale
      ensures R.Lookup(L.Fold(Receive, NO_BELIEF, L.OnCritical(s'.transport.wire)).table, key) == R.PublicView(s'.states, key)
    {
      assert Tracks(s', key) && !R.Mentions(s'.outbox, key);
      assert Eventual(s'.transport) == Accepted(s'.transport);
    }
  }

  /* ----- Which keys are stale ----- */

  /** The latest event about a key, up to state k, was dropped at enqueue. */
  ghost predicate LatestDropped(states: seq<System>, steps: seq<Step>, k: nat, key: ContainerKey) {
    && k < |states| == |steps| + 1
    && exists j :: 0 <= j < k && Dropped(states[j], steps[j], key)
                   && forall i :: j < i < k ==> !SendsOf(states[i], steps[i], key)
  }

  ghost predicate SendsOf(s: System, step: Step, key: ContainerKey) {
    step.SendEvent? && s.outbox != [] && s.outbox[0].key == key
  }

  ghost predicate Dropped(s: System, step: Step, key: ContainerKey) {
    SendsOf(s, step, key) && !step.accepted
  }

  lemma {:induction false} StaleIff(states: seq<System>, steps: seq<Step>, k: nat, key: ContainerKey)
    requires IsRun(states, steps) && k < |states|
    ensures key in states[k].stale <==> LatestDropped(states, steps, k, key)
  {
    if k > 0 {
      StaleIff(states, steps, k - 1, key);
      assert Enabled(states[k - 1], steps[k - 1]) && states[k] == Next(states[k - 1], steps[k - 1]);
      if Dropped(states[k - 1], steps[k - 1], key) {
        assert LatestDropped(states, steps, k, key);
      }
    }
  }

  /** The latest health report, up to state k, was dropped at enqueue. */
  ghost predicate LatestReportDropped(steps: seq<Step>, k: nat) {
    && k <= |steps|
    && exists j :: 0 <= j < k && steps[j].SendHealth? && !steps[j].accepted && forall i :: j < i < k ==> !steps[i].SendHealth?
  }

  lemma {:induction false} HealthStaleIff(states: seq<System>, steps: seq<Step>, k: nat)
    requires IsRun(states, steps) && k < |states|
    ensures states[k].healthStale <==> LatestReportDropped(steps, k)
  {
    if k > 0 {
      HealthStaleIff(states, steps, k - 1);
      assert Enabled(states[k - 1], steps[k - 1]) && states[k] == Next(states[k - 1], steps[k - 1]);
      if steps[k - 1].SendHealth? && !steps[k - 1].accepted {
        assert LatestReportDropped(steps, k);
      }
    }
  }

  /** The parts of the system move together only where something is sent. */
  lemma PartsMove(s: System, step: Step)
    requires Enabled(s, step)
    ensures step.Transport? ==> Next(s, step) == s.(transport := T.Next(s.transport, step.t))
    ensures step.Health? ==> Next(s, step) == s.(health := H.Next(s.health, step.h))
    ensures step.SendHealth? ==> Next(s, step).health.reports == s.health.reports + [s.health.phases[step.i].value]
  {
  }
}
