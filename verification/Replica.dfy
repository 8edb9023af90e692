/**
 The agent and Central together: reconciles, health callbacks, other producers and the
 transport, interleaved. What Central believes, once the undelivered messages arrive, is
 what the agent would tell it now.
 */
module Replica {
  import opened Wire
  import T = Transport
  import S = TransportSafety
  import L = TransportRuns
  import H = Health
  import M = Monitoring
  import P = LogPlans
  import R = Reconcile

  /* ----- Central ----- */

  datatype Belief = Belief(table: R.Table, healthy: bool)

  const NO_BELIEF := Belief(map[], false)

  function Receive(b: Belief, m: Message): Belief {
    match m.body
    case LogCollectionChanged(key, report) => b.(table := R.Receive(b.table, R.Event(key, report)))
    case TelemetryHealth(healthy) => b.(healthy := healthy)
    case Other(_) => b
  }

  lemma ReceiveIsIdempotent()
    ensures L.Idempotent(Receive)
  {
  }

  /* ----- The whole system ----- */

  datatype System = System(
    transport: T.State,
    health: H.State,
    states: R.States,
    outbox: seq<R.Event>,       // events of the current reconcile that are yet to be sent
    stale: set<ContainerKey>,   // keys whose latest event was dropped at enqueue
    healthStale: bool)          // the latest health report was dropped at enqueue

  datatype Step =
    | Transport(t: T.Step)
    | Health(h: H.Step)
    | Reconcile(plans: seq<P.Plan>, events: seq<R.Event>)
    | SendEvent(accepted: bool)
    | SendHealth(i: nat, accepted: bool)

  function Init(criticalCap: nat, telemetryCap: nat, supervisors: nat): System {
    System(T.Init(criticalCap, telemetryCap), H.Init(supervisors), map[], [], {}, false)
  }

  function EventMessage(e: R.Event): Message {
    Message("log_collection_state_changed", Critical, LogCollectionChanged(e.key, e.report))
  }

  function HealthMessage(healthy: bool): Message {
    Message("telemetry_health", Critical, TelemetryHealth(healthy))
  }

  /** Both kinds of message travel on the critical lane. */
  lemma StateMessagesAreCritical(e: R.Event, healthy: bool)
    ensures EventMessage(e).msgType == "log_collection_state_changed" && HealthMessage(healthy).msgType == "telemetry_health"
    ensures EventMessage(e).lane == LaneForMessageType(EventMessage(e).msgType) == Critical
    ensures HealthMessage(healthy).lane == LaneForMessageType(HealthMessage(healthy).msgType) == Critical
  {
  }

  /** The attempt to put a message on the critical lane: it is accepted, or its timer wins. */
  function Offer(m: Message, accepted: bool): T.Step {
    T.Producer(if accepted then T.Accept(m) else T.TimeOut(m))
  }

  /** Transport steps of everyone else; only the telemetry manager sends state events and health reports. */
  predicate Foreign(step: T.Step) {
    step.Producer? && step.p.Accept? ==> step.p.msg.body.Other?
  }

  ghost predicate Enabled(s: System, step: Step) {
    match step
    case Transport(t) => Foreign(t) && T.Enabled(s.transport, t)
    case Health(h) => !h.Report? && H.Enabled(s.health, h)
    case Reconcile(plans, events) => s.outbox == [] && P.Reconcilable(plans) && R.Emits(s.states, plans, events)
    case SendEvent(accepted) => s.outbox != [] && T.Enabled(s.transport, Offer(EventMessage(s.outbox[0]), accepted))
    case SendHealth(i, accepted) =>
      H.Enabled(s.health, H.Report(i)) && T.Enabled(s.transport, Offer(HealthMessage(s.health.phases[i].value), accepted))
  }

  function Next(s: System, step: Step): System
    requires Enabled(s, step)
  {
    match step
    case Transport(t) => s.(transport := T.Next(s.transport, t))
    case Health(h) => s.(health := H.Next(s.health, h))
    case Reconcile(plans, events) => s.(states := R.NextStates(plans), outbox := events)
    case SendEvent(accepted) =>
      var e := s.outbox[0];
      s.(transport := T.Next(s.transport, Offer(EventMessage(e), accepted)),
         outbox := s.outbox[1..],
         stale := if accepted then s.stale - {e.key} else s.stale + {e.key})
    case SendHealth(i, accepted) =>
      s.(transport := T.Next(s.transport, Offer(HealthMessage(s.health.phases[i].value), accepted)),
         health := H.Next(s.health, H.Report(i)),
         healthStale := !accepted)
  }

  ghost predicate IsRun(states: seq<System>, steps: seq<Step>) {
    && |states| == |steps| + 1
    && (exists c: nat, t: nat, n: nat :: n > 0 && states[0] == Init(c, t, n))
    && forall i :: 0 <= i < |steps| ==> Enabled(states[i], steps[i]) && states[i + 1] == Next(states[i], steps[i])
  }

  /* ----- What the accepted messages amount to ----- */

  /** The belief that the accepted messages lead to. */
  function Accepted(transport: T.State): Belief {
    L.Fold(Receive, NO_BELIEF, S.Of(transport.log, S.WasAccepted, Critical))
  }

  /** The belief that Central reaches once everything undelivered has arrived. */
  function Eventual(transport: T.State): Belief {
    L.Fold(Receive, L.Fold(Receive, NO_BELIEF, L.OnCritical(transport.wire)), S.Undelivered(transport))
  }

  lemma AcceptedNext(transport: T.State, step: T.Step)
    requires T.Enabled(transport, step)
    ensures Accepted(T.Next(transport, step)) == L.Fold(Receive, Accepted(transport), S.Arriving(step))
  {
    L.AcceptedNext(transport, step);
    L.FoldAppend(Receive, NO_BELIEF, S.Of(transport.log, S.WasAccepted, Critical), S.Arriving(step));
  }

  lemma ForeignStepsTeachNothing(transport: T.State, step: T.Step)
    requires T.Enabled(transport, step) && Foreign(step)
    ensures Accepted(T.Next(transport, step)) == Accepted(transport)
  {
    AcceptedNext(transport, step);
  }

  lemma OfferTeaches(transport: T.State, m: Message, accepted: bool)
    requires T.Enabled(transport, Offer(m, accepted)) && m.lane == Critical
    ensures Accepted(T.Next(transport, Offer(m, accepted)))
      == if accepted then Receive(Accepted(transport), m) else Accepted(transport)
  {
    AcceptedNext(transport, Offer(m, accepted));
    if accepted {
      assert S.Arriving(Offer(m, accepted)) == [m];
      assert L.Fold(Receive, Accepted(transport), [m]) == Receive(Accepted(transport), m);
    }
  }

  /* ----- Invariants ----- */

  /** A key awaiting its event will be told the truth; any other key has been, unless its event was dropped. */
  ghost predicate Tracks(s: System, key: ContainerKey) {
    && (forall i :: 0 <= i < |s.outbox| && s.outbox[i].key == key ==> s.outbox[i].report == R.PublicView(s.states, key))
    && (key !in s.stale && !R.Mentions(s.outbox, key) ==>
          R.Lookup(Accepted(s.transport).table, key) == R.PublicView(s.states, key))
  }

  ghost predicate TracksAll(s: System) {
    && R.WellKept(s.states) && R.DistinctKeys(s.outbox)
    && forall key: ContainerKey :: M.BAR !in key.name ==> Tracks(s, key)
  }

  ghost predicate TracksHealth(s: System) {
    && H.Consistent(s.health) && H.Reported(s.health)
    && (!s.healthStale ==> Accepted(s.transport).healthy == H.LastReported(s.health.reports))
  }

  lemma TracksAllNext(s: System, step: Step)
    requires TracksAll(s) && Enabled(s, step)
    ensures TracksAll(Next(s, step))
  {
    match step
    case Transport(t) =>
      ForeignStepsTeachNothing(s.transport, t);
      SameTableTracks(s, Next(s, step));
    case Health(h) => SameTableTracks(s, Next(s, step));
    case Reconcile(plans, events) => ReconcileTracks(s, plans, events);
    case SendEvent(accepted) => SendEventTracks(s, accepted);
    case SendHealth(i, accepted) => SendHealthTracks(s, i, accepted);
  }

  lemma SameTableTracks(s: System, s': System)
    requires TracksAll(s) && s'.states == s.states && s'.outbox == s.outbox && s'.stale == s.stale
    requires Accepted(s'.transport).table == Accepted(s.transport).table
    ensures TracksAll(s')
  {
  }

  lemma ReconcileTracks(s: System, plans: seq<P.Plan>, events: seq<R.Event>)
    requires TracksAll(s) && Enabled(s, Reconcile(plans, events))
    ensures TracksAll(Next(s, Reconcile(plans, events)))
  {
    var s' := Next(s, Reconcile(plans, events));
    R.EmittedIsDiff(s.states, plans, events);
    forall key: ContainerKey | M.BAR !in key.name ensures Tracks(s', key) {
      assert Tracks(s, key) && !R.Mentions(s.outbox, key);
      if !R.Mentions(events, key) {
        UnmentionedIsUnchanged(s.states, s'.states, events, key);
      }
    }
  }

  lemma UnmentionedIsUnchanged(before: R.States, after: R.States, events: seq<R.Event>, key: ContainerKey)
    requires R.WellKept(before) && R.WellKept(after) && R.IsDiff(before, after, events)
    requires M.BAR !in key.name && !R.Mentions(events, key)
    ensures R.PublicView(before, key) == R.PublicView(after, key)
  {
    var raw := M.KeyString(key);
    if R.Change(before, after, raw).Some? {
      var i :| 0 <= i < |events| && M.KeyString(events[i].key) == raw;
      M.KeyRoundTrip(key);
      M.KeyRoundTrip(events[i].key);
      assert false;
    }
  }

  lemma SendEventTracks(s: System, accepted: bool)
    requires TracksAll(s) && Enabled(s, SendEvent(accepted))
    ensures TracksAll(Next(s, SendEvent(accepted)))
  {
    forall key: ContainerKey | M.BAR !in key.name ensures Tracks(Next(s, SendEvent(accepted)), key) {
      SendEventTracksKey(s, accepted, key);
    }
  }

  lemma SendEventTracksKey(s: System, accepted: bool, key: ContainerKey)
    requires Tracks(s, key) && R.DistinctKeys(s.outbox) && Enabled(s, SendEvent(accepted))
    ensures Tracks(Next(s, SendEvent(accepted)), key)
  {
    var s', e := Next(s, SendEvent(accepted)), s.outbox[0];
    OfferTeaches(s.transport, EventMessage(e), accepted);
    HeadIsTold(s.outbox, key);
    if e.key == key && accepted {
      assert R.Lookup(Accepted(s'.transport).table, key) == e.report;
    }
  }

  /** Taking the first event off leaves the events about other keys, and none about its own. */
  lemma HeadIsTold(outbox: seq<R.Event>, key: ContainerKey)
    requires outbox != [] && R.DistinctKeys(outbox)
    ensures R.Mentions(outbox, key) <==> outbox[0].key == key || R.Mentions(outbox[1..], key)
    ensures outbox[0].key == key ==> !R.Mentions(outbox[1..], key)
    ensures forall i :: 0 <= i < |outbox[1..]| ==> outbox[1..][i] == outbox[i + 1]
  {
  }

  lemma SendHealthTracks(s: System, i: nat, accepted: bool)
    requires TracksAll(s) && Enabled(s, SendHealth(i, accepted))
    ensures TracksAll(Next(s, SendHealth(i, accepted)))
  {
    OfferTeaches(s.transport, HealthMessage(s.health.phases[i].value), accepted);
    SameTableTracks(s, Next(s, SendHealth(i, accepted)));
  }

  lemma TracksHealthNext(s: System, step: Step)
    requires TracksHealth(s) && Enabled(s, step)
    ensures TracksHealth(Next(s, step))
  {
    match step
    case Transport(t) => ForeignStepsTeachNothing(s.transport, t);
    case Health(h) =>
      H.ConsistentNext(s.health, h);
      H.ReportedNext(s.health, h);
    case Reconcile(_, _) =>
    case SendEvent(accepted) => OfferTeaches(s.transport, EventMessage(s.outbox[0]), accepted);
    case SendHealth(i, accepted) =>
      H.ConsistentNext(s.health, H.Report(i));
      H.ReportedNext(s.health, H.Report(i));
      OfferTeaches(s.transport, HealthMessage(s.health.phases[i].value), accepted);
  }

  ghost predicate Sound(s: System) {
    && TracksAll(s) && TracksHealth(s)
    && L.Safe(s.transport) && L.Delivers(s.transport, Receive, NO_BELIEF)
  }

  lemma TransportNext(transport: T.State, step: T.Step)
    requires L.Safe(transport) && L.Delivers(transport, Receive, NO_BELIEF) && T.Enabled(transport, step)
    ensures L.Safe(T.Next(transport, step)) && L.Delivers(T.Next(transport, step), Receive, NO_BELIEF)
  {
    ReceiveIsIdempotent();
    L.SafeNext(transport, step);
    L.DeliversNext(transport, step, Receive, NO_BELIEF);
  }

  lemma SoundNext(s: System, step: Step)
    requires Sound(s) && Enabled(s, step)
    ensures Sound(Next(s, step))
  {
    TracksAllNext(s, step);
    TracksHealthNext(s, step);
    match step
    case Transport(t) => TransportNext(s.transport, t);
    case Health(_) =>
    case Reconcile(_, _) =>
    case SendEvent(accepted) => TransportNext(s.transport, Offer(EventMessage(s.outbox[0]), accepted));
    case SendHealth(i, accepted) => TransportNext(s.transport, Offer(HealthMessage(s.health.phases[i].value), accepted));
  }

  lemma InitSound(criticalCap: nat, telemetryCap: nat, supervisors: nat)
    requires supervisors > 0
    ensures Sound(Init(criticalCap, telemetryCap, supervisors))
  {
    L.InitSafe(criticalCap, telemetryCap);
    L.InitDelivers(criticalCap, telemetryCap, Receive, NO_BELIEF);
    InitTracks(criticalCap, telemetryCap, supervisors);
  }

  lemma InitTracks(criticalCap: nat, telemetryCap: nat, supervisors: nat)
    requires supervisors > 0
    ensures var s := Init(criticalCap, telemetryCap, supervisors); TracksAll(s) && TracksHealth(s)
  {
    assert !H.Init(supervisors).flags[0];
    assert Accepted(T.Init(criticalCap, telemetryCap)) == NO_BELIEF;
  }

  lemma {:induction false} RunIsSound(states: seq<System>, steps: seq<Step>, k: nat)
    requires IsRun(states, steps) && k < |states|
    ensures Sound(states[k])
  {
    if k == 0 {
      var c: nat, t: nat, n: nat :| n > 0 && states[0] == Init(c, t, n);
      InitSound(c, t, n);
    } else {
      RunIsSound(states, steps, k - 1);
      SoundNext(states[k - 1], steps[k - 1]);
    }
  }

  /* ----- The theorem ----- */

  /**
   In every state of every run between two reconciles: take what Central has received, across
   any number of reconnects and of writes that failed or only seemed to fail, and add what is
   still undelivered. For every container whose latest event was not dropped at enqueue, the
   result is the agent's current public view; and once no health callback is under way, it
   holds the conjunction of the supervisors' flags, if the latest report was not dropped.
   */
  lemma CentralBelievesTheAgent(states: seq<System>, steps: seq<Step>, k: nat, key: ContainerKey)
    requires IsRun(states, steps) && k < |states|
    requires M.BAR !in key.name
    ensures var s := states[k];
      s.outbox == [] && key !in s.stale ==>
        R.Lookup(Eventual(s.transport).table, key) == R.PublicView(s.states, key)
    ensures var s := states[k];
      (forall i :: 0 <= i < |s.health.phases| ==> s.health.phases[i] == H.Idle) && !s.healthStale ==>
        (Eventual(s.transport).healthy <==> H.AllTrue(s.health.flags))
  {
    RunIsSound(states, steps, k);
    assert Tracks(states[k], key);
    assert Eventual(states[k].transport) == Accepted(states[k].transport);
  }
}
