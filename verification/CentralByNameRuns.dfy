/** What Central's table by name shows over whole runs of agent and transport, with drops and reconnects. */
module CentralByNameRuns {
  import opened Wire
  import C = CentralByName
  import opened Replica

  function ReceiveByName(table: C.NameTable, m: Message): C.NameTable {
    match m.body
    case LogCollectionChanged(key, report) => C.Store(table, R.Event(key, report))
    case TelemetryHealth(_) => table
    case Other(_) => table
  }

  const NO_ENTRIES: C.NameTable := map[]

  lemma ByNameIsIdempotent()
    ensures L.Idempotent(ReceiveByName)
  {
    forall table, m ensures ReceiveByName(ReceiveByName(table, m), m) == ReceiveByName(table, m) {
      if m.body.LogCollectionChanged? {
        var n := C.Place(m.body.key);
        assert table[n := m.body.report][n := m.body.report] == table[n := m.body.report];
      }
    }
  }

  /** The table that the accepted messages lead to, and the one that Central reaches once everything undelivered has arrived. */
  function AcceptedByName(transport: T.State): C.NameTable {
    L.Fold(ReceiveByName, NO_ENTRIES, S.Of(transport.log, S.WasAccepted, Critical))
  }

  function EventualByName(transport: T.State): C.NameTable {
    L.Fold(ReceiveByName, L.Fold(ReceiveByName, NO_ENTRIES, L.OnCritical(transport.wire)), S.Undelivered(transport))
  }

  /** A step takes the entry along: no event about it is dropped, and no reconcile loses its report. */
  ghost predicate Follows(s: System, step: Step, n: string) {
    match step
    case SendEvent(accepted) => s.outbox != [] && C.Place(s.outbox[0].key) == n && C.Heard(s.outbox[0].key) ==> accepted
    case Reconcile(plans, events) =>
      var after := R.NextStates(plans);
      && C.OneOf(s.states, n) && C.OneOf(after, n)
      && !C.ImageSwap(s.states, after, n) && (C.Unheard(s.states, after, n) ==> SameReport(s.states, after, n))
    case _ => true
  }

  ghost predicate SameReport(before: R.States, after: R.States, n: string) {
    forall r :: C.Reports(before, n, r) <==> C.Reports(after, n, r)
  }

  /** Once the outbox is sent, the accepted messages amount to the agent's report about the entry. */
  ghost predicate TracksEntry(s: System, n: string) {
    C.Reports(s.states, n, C.Shown(C.StoreAll(AcceptedByName(s.transport), s.outbox), n))
  }

  lemma AcceptedByNameNext(transport: T.State, step: T.Step)
    requires T.Enabled(transport, step)
    ensures AcceptedByName(T.Next(transport, step)) == L.Fold(ReceiveByName, AcceptedByName(transport), S.Arriving(step))
  {
    L.AcceptedNext(transport, step);
    L.FoldAppend(ReceiveByName, NO_ENTRIES, S.Of(transport.log, S.WasAccepted, Critical), S.Arriving(step));
  }

  lemma OfferByName(transport: T.State, m: Message, accepted: bool)
    requires T.Enabled(transport, Offer(m, accepted)) && m.lane == Critical
    ensures AcceptedByName(T.Next(transport, Offer(m, accepted)))
      == if accepted then ReceiveByName(AcceptedByName(transport), m) else AcceptedByName(transport)
  {
    AcceptedByNameNext(transport, Offer(m, accepted));
    if accepted {
      assert S.Arriving(Offer(m, accepted)) == [m];
      assert L.Fold(ReceiveByName, AcceptedByName(transport), [m]) == ReceiveByName(AcceptedByName(transport), m);
    }
  }

  lemma ForeignByName(transport: T.State, step: T.Step)
    requires T.Enabled(transport, step) && Foreign(step)
    ensures AcceptedByName(T.Next(transport, step)) == AcceptedByName(transport)
  {
    AcceptedByNameNext(transport, step);
  }

  /** Whether an event about another entry is stored makes no difference to this one. */
  lemma {:induction false} OtherEntry(table: C.NameTable, e: R.Event, rest: seq<R.Event>, n: string)
    requires C.Place(e.key) != n || !C.Heard(e.key)
    ensures C.Shown(C.StoreAll(C.Store(table, e), rest), n) == C.Shown(C.StoreAll(table, rest), n)
  {
    SameShown(C.Store(table, e), table, rest, n);
  }

  lemma {:induction false} SameShown(a: C.NameTable, b: C.NameTable, events: seq<R.Event>, n: string)
    requires C.Shown(a, n) == C.Shown(b, n)
    ensures C.Shown(C.StoreAll(a, events), n) == C.Shown(C.StoreAll(b, events), n)
    decreases events
  {
    if events != [] {
      SameShown(C.Store(a, events[0]), C.Store(b, events[0]), events[1..], n);
    }
  }

  lemma TracksEntryNext(s: System, step: Step, n: string)
    requires TracksEntry(s, n) && TracksAll(s) && Enabled(s, step) && Follows(s, step, n) && n != ""
    ensures TracksEntry(Next(s, step), n)
  {
    match step
    case Transport(t) => ForeignByName(s.transport, t);
    case Health(_) =>
    case Reconcile(plans, events) => ReconcileTracksEntry(s, plans, events, n);
    case SendEvent(accepted) => SendTracksEntry(s, accepted, n);
    case SendHealth(i, accepted) => OfferByName(s.transport, HealthMessage(s.health.phases[i].value), accepted);
  }

  lemma SendTracksEntry(s: System, accepted: bool, n: string)
    requires TracksEntry(s, n) && Enabled(s, SendEvent(accepted)) && Follows(s, SendEvent(accepted), n)
    ensures TracksEntry(Next(s, SendEvent(accepted)), n)
  {
    var e := s.outbox[0];
    OfferByName(s.transport, EventMessage(e), accepted);
    if !accepted {
      OtherEntry(AcceptedByName(s.transport), e, s.outbox[1..], n);
    }
  }

  lemma ReconcileTracksEntry(s: System, plans: seq<P.Plan>, events: seq<R.Event>, n: string)
    requires TracksEntry(s, n) && TracksAll(s) && n != ""
    requires Enabled(s, Reconcile(plans, events)) && Follows(s, Reconcile(plans, events), n)
    ensures TracksEntry(Next(s, Reconcile(plans, events)), n)
  {
    var after, table := R.NextStates(plans), AcceptedByName(s.transport);
    assert C.StoreAll(table, []) == table;
    var r := ReportOf(after, n);
    C.NameTableFollowsIff(s.states, plans, events, table, n, r);
  }

  /** Where there is one state at most, there is one report. */
  lemma ReportOf(states: R.States, n: string) returns (r: Report)
    requires C.OneOf(states, n)
    ensures C.Reports(states, n, r)
  {
    if raw :| raw in states && C.Place(M.ParseKey(raw)) == n {
      r := states[raw].report;
    } else {
      r := NO_ISSUE;
    }
  }

  /* ----- Runs ----- */

  lemma {:induction false} RunDeliversByName(states: seq<System>, steps: seq<Step>, k: nat)
    requires IsRun(states, steps) && k < |states|
    ensures L.Delivers(states[k].transport, ReceiveByName, NO_ENTRIES)
  {
    if k == 0 {
      var c: nat, t: nat, n: nat :| n > 0 && states[0] == Init(c, t, n);
      L.InitDelivers(c, t, ReceiveByName, NO_ENTRIES);
    } else {
      RunDeliversByName(states, steps, k - 1);
      RunIsSound(states, steps, k - 1);
      DeliversByNameNext(states[k - 1], steps[k - 1]);
    }
  }

  lemma DeliversByNameNext(s: System, step: Step)
    requires Sound(s) && L.Delivers(s.transport, ReceiveByName, NO_ENTRIES) && Enabled(s, step)
    ensures L.Delivers(Next(s, step).transport, ReceiveByName, NO_ENTRIES)
  {
    ByNameIsIdempotent();
    match step
    case Transport(t) => L.DeliversNext(s.transport, t, ReceiveByName, NO_ENTRIES);
    case Health(_) =>
    case Reconcile(_, _) =>
    case SendEvent(accepted) =>
      L.DeliversNext(s.transport, Offer(EventMessage(s.outbox[0]), accepted), ReceiveByName, NO_ENTRIES);
    case SendHealth(i, accepted) =>
      L.DeliversNext(s.transport, Offer(HealthMessage(s.health.phases[i].value), accepted), ReceiveByName, NO_ENTRIES);
  }

  /** At the start nothing is monitored and nothing is shown. */
  lemma InitTracksEntry(states: seq<System>, steps: seq<Step>, n: string)
    requires IsRun(states, steps)
    ensures TracksEntry(states[0], n)
  {
    var c: nat, t: nat, m: nat :| m > 0 && states[0] == Init(c, t, m);
    assert AcceptedByName(T.Init(c, t)) == NO_ENTRIES;
  }

  ghost predicate FollowsFrom(states: seq<System>, steps: seq<Step>, j: nat, k: nat, n: string) {
    k <= |steps| && k <= |states| && forall i :: j <= i < k ==> Follows(states[i], steps[i], n)
  }

  lemma SoundTracksEntryNext(s: System, step: Step, n: string)
    requires Sound(s) && TracksEntry(s, n) && Enabled(s, step) && Follows(s, step, n) && n != ""
    ensures TracksEntry(Next(s, step), n)
  {
    TracksEntryNext(s, step, n);
  }

  lemma {:induction false} RunTracksEntry(states: seq<System>, steps: seq<Step>, j: nat, k: nat, n: string)
    requires IsRun(states, steps) && j <= k < |states| && n != "" && TracksEntry(states[j], n)
    requires FollowsFrom(states, steps, j, k, n)
    ensures TracksEntry(states[k], n)
    decreases k - j
  {
    if j < k {
      RunIsSound(states, steps, j);
      StepTracksEntry(states, steps, j, n);
      RunTracksEntry(states, steps, j + 1, k, n);
    }
  }

  lemma StepTracksEntry(states: seq<System>, steps: seq<Step>, j: nat, n: string)
    requires IsRun(states, steps) && j < |steps| && n != "" && Sound(states[j])
    requires TracksEntry(states[j], n) && Follows(states[j], steps[j], n)
    ensures TracksEntry(states[j + 1], n)
  {
    SoundTracksEntryNext(states[j], steps[j], n);
  }

  /**
   In every state of every run between two reconciles: if since the beginning, or since some state in
   which the entry was right, no event about it has been dropped at enqueue and no reconcile has lost its
   report, then the table by name shows, once what is undelivered has arrived, the agent's report.
   */
  lemma CentralShowsTheEntry(states: seq<System>, steps: seq<Step>, j: nat, k: nat, n: string)
    requires IsRun(states, steps) && j <= k < |states| && n != "" && states[k].outbox == []
    requires j == 0 || TracksEntry(states[j], n)
    requires FollowsFrom(states, steps, j, k, n)
    ensures C.Reports(states[k].states, n, C.Shown(EventualByName(states[k].transport), n))
  {
    InitTracksEntry(states, steps, n);
    RunTracksEntry(states, steps, j, k, n);
    RunDeliversByName(states, steps, k);
    assert EventualByName(states[k].transport) == AcceptedByName(states[k].transport);
  }
}
