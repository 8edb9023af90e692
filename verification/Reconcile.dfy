/** Turning a change of log-collection plans into the events that bring Central up to date. */
module Reconcile {
  import opened Wire
  import opened Monitoring
  import opened LogPlans

  datatype Event = Event(key: ContainerKey, report: Report)

  /** The remembered states, keyed by the key string. */
  type States = map<string, LogState>

  /* ----- The public view ----- */

  /** What Central should believe about a key: an absent state means there is nothing to report. */
  function PublicView(states: States, key: ContainerKey): Report {
    if KeyString(key) in states then states[KeyString(key)].report else NO_ISSUE
  }

  /** Central's table, folded from the events in the order of arrival. */
  type Table = map<ContainerKey, Report>

  function Receive(table: Table, e: Event): Table {
    table[e.key := e.report]
  }

  function ReceiveAll(table: Table, events: seq<Event>): Table
    decreases events
  {
    if events == [] then table else ReceiveAll(Receive(table, events[0]), events[1..])
  }

  function Lookup(table: Table, key: ContainerKey): Report {
    if key in table then table[key] else NO_ISSUE
  }

  /** The states that the agent keeps: parsable strings, and an issue for exactly the unavailable ones. */
  ghost predicate WellKept(states: States) {
    forall raw :: raw in states ==>
      BAR in raw && (states[raw].report.available <==> states[raw].report == NO_ISSUE)
  }

  /* ----- The specification of the diff ----- */

  function NextStates(plans: seq<Plan>): States {
    if plans == [] then map[]
    else
      var last := plans[|plans| - 1];
      NextStates(plans[..|plans| - 1])[KeyString(last.key) := last.State()]
  }

  /** The event that a change of one key calls for, if any. */
  function Change(before: States, after: States, raw: string): Option<Report> {
    if raw in after then
      if raw !in before || before[raw].report != after[raw].report then Some(after[raw].report) else None
    else if raw in before && !before[raw].report.available then Some(NO_ISSUE)
    else None
  }

  ghost predicate DistinctKeys(events: seq<Event>) {
    forall i, j :: 0 <= i < j < |events| ==> events[i].key != events[j].key
  }

  /** The events are exactly the changes, one per changed key, in any order. */
  ghost predicate IsDiff(before: States, after: States, events: seq<Event>) {
    && (forall i :: 0 <= i < |events| ==>
          BAR !in events[i].key.name && Change(before, after, KeyString(events[i].key)) == Some(events[i].report))
    && DistinctKeys(events)
    && (forall raw :: Change(before, after, raw).Some? ==> exists i :: 0 <= i < |events| && KeyString(events[i].key) == raw)
  }

  /* ----- Folding a diff turns the old view into the new one ----- */

  ghost predicate Mentions(events: seq<Event>, key: ContainerKey) {
    exists i :: 0 <= i < |events| && events[i].key == key
  }

  /** With distinct keys the fold gives each mentioned key its one report and leaves the others alone. */
  lemma {:induction false} FoldOfDistinct(table: Table, events: seq<Event>, key: ContainerKey)
    requires DistinctKeys(events)
    decreases events
    ensures !Mentions(events, key) ==> Lookup(ReceiveAll(table, events), key) == Lookup(table, key)
    ensures forall i :: 0 <= i < |events| && events[i].key == key ==>
      Lookup(ReceiveAll(table, events), key) == events[i].report
  {
    if events != [] {
      FoldOfDistinct(Receive(table, events[0]), events[1..], key);
      if events[0].key == key {
        assert !Mentions(events[1..], key);
      } else if Mentions(events[1..], key) {
        var i :| 0 <= i < |events[1..]| && events[1..][i].key == key;
        assert events[i + 1].key == key;
      }
    }
  }

  /** Whatever the order of the events, a table that shows the old view comes to show the new one. */
  lemma DiffUpdatesView(before: States, after: States, events: seq<Event>, table: Table, key: ContainerKey)
    requires WellKept(before) && WellKept(after) && IsDiff(before, after, events)
    requires BAR !in key.name && Lookup(table, key) == PublicView(before, key)
    ensures Lookup(ReceiveAll(table, events), key) == PublicView(after, key)
  {
    var raw := KeyString(key);
    KeyRoundTrip(key);
    FoldOfDistinct(table, events, key);
    if Change(before, after, raw).Some? {
      var i :| 0 <= i < |events| && KeyString(events[i].key) == raw;
      KeyRoundTrip(events[i].key);
      assert events[i].key == key;
    } else {
      assert !Mentions(events, key);
    }
  }

  /** Two orders of one diff lead to the same view. */
  lemma DiffOrderIsIrrelevant(before: States, after: States, events: seq<Event>, reordered: seq<Event>, table: Table, key: ContainerKey)
    requires IsDiff(before, after, events) && multiset(reordered) == multiset(events)
    ensures IsDiff(before, after, reordered)
    ensures Lookup(ReceiveAll(table, reordered), key) == Lookup(ReceiveAll(table, events), key)
  {
    PermutedIsDiff(before, after, events, reordered);
    FoldOfDistinct(table, events, key);
    FoldOfDistinct(table, reordered, key);
    if Mentions(events, key) {
      var i :| 0 <= i < |events| && events[i].key == key;
      assert events[i] in multiset(reordered);
      var j :| 0 <= j < |reordered| && reordered[j] == events[i];
    } else {
      assert forall j :: 0 <= j < |reordered| ==> reordered[j] in multiset(events);
    }
  }

  lemma PermutedIsDiff(before: States, after: States, events: seq<Event>, reordered: seq<Event>)
    requires IsDiff(before, after, events) && multiset(reordered) == multiset(events)
    ensures IsDiff(before, after, reordered)
  {
    forall i | 0 <= i < |reordered|
      ensures BAR !in reordered[i].key.name && Change(before, after, KeyString(reordered[i].key)) == Some(reordered[i].report)
    {
      assert reordered[i] in multiset(events);
    }
    forall i, j | 0 <= i < j < |reordered| ensures reordered[i].key != reordered[j].key {
      if reordered[i] == reordered[j] {
        RepeatedTwice(reordered, i, j);
        DistinctOccursOnce(events, reordered[i]);
      } else {
        assert reordered[i] in multiset(events) && reordered[j] in multiset(events);
      }
    }
    forall raw | Change(before, after, raw).Some? ensures exists i :: 0 <= i < |reordered| && KeyString(reordered[i].key) == raw {
      var k :| 0 <= k < |events| && KeyString(events[k].key) == raw;
      assert events[k] in multiset(reordered);
    }
  }

  lemma RepeatedTwice(events: seq<Event>, i: int, j: int)
    requires 0 <= i < j < |events| && events[i] == events[j]
    ensures multiset(events)[events[i]] >= 2
  {
    assert events == events[..j] + [events[j]] + events[j + 1..];
    assert events[i] in events[..j];
  }

  lemma {:induction false} DistinctOccursOnce(events: seq<Event>, x: Event)
    requires DistinctKeys(events)
    ensures multiset(events)[x] <= 1
  {
    if events != [] {
      var rest := events[1..];
      assert events == [events[0]] + rest;
      DistinctOccursOnce(rest, x);
      if events[0] == x {
        assert x !in rest;
      }
    }
  }

  /* ----- What the telemetry manager emits ----- */

  /** The events of the first loop: each plan against the remembered states. */
  function PlanEvents(before: States, plans: seq<Plan>): seq<Event> {
    if plans == [] then []
    else
      var last := plans[|plans| - 1];
      var raw := KeyString(last.key);
      PlanEvents(before, plans[..|plans| - 1])
      + if raw !in before || before[raw].report != last.State().report then [Event(last.key, last.State().report)] else []
  }

  /** The events of the second loop, in an arbitrary order: unavailable containers that are gone. */
  ghost predicate IsRemovals(before: States, after: States, events: seq<Event>, raws: seq<string>) {
    && |events| == |raws|
    && (forall i :: 0 <= i < |events| ==> events[i] == Event(ParseKey(raws[i]), NO_ISSUE))
    && (forall raw :: raw in raws <==> raw in before && raw !in after && !before[raw].report.available)
    && (forall i, j :: 0 <= i < j < |raws| ==> raws[i] != raws[j])
  }

  /** What one reconcile emits: the plan events, then the removals. */
  ghost predicate Emits(before: States, plans: seq<Plan>, events: seq<Event>) {
    exists removals: seq<Event>, raws: seq<string> ::
      events == PlanEvents(before, plans) + removals && IsRemovals(before, NextStates(plans), removals, raws)
  }

  /* ----- What is emitted is the diff ----- */

  lemma {:induction false} NextStatesHas(plans: seq<Plan>, i: nat)
    requires Reconcilable(plans) && i < |plans|
    ensures KeyString(plans[i].key) in NextStates(plans)
    ensures NextStates(plans)[KeyString(plans[i].key)] == plans[i].State()
  {
    var n := |plans| - 1;
    if i < n {
      NextStatesHas(plans[..n], i);
      KeyRoundTrip(plans[i].key);
      KeyRoundTrip(plans[n].key);
    }
  }

  lemma {:induction false} NextStatesFrom(plans: seq<Plan>, raw: string) returns (i: nat)
    requires raw in NextStates(plans)
    ensures i < |plans| && KeyString(plans[i].key) == raw && NextStates(plans)[raw] == plans[i].State()
  {
    var n := |plans| - 1;
    if KeyString(plans[n].key) == raw {
      i := n;
    } else {
      i := NextStatesFrom(plans[..n], raw);
    }
  }

  lemma NextStatesWellKept(plans: seq<Plan>)
    requires Reconcilable(plans)
    ensures WellKept(NextStates(plans))
  {
  }

  /** The plan disagrees with what is remembered about its key. */
  ghost predicate Announces(before: States, plan: Plan) {
    KeyString(plan.key) !in before || before[KeyString(plan.key)].report != plan.State().report
  }

  lemma {:induction false} PlanEventFrom(before: States, plans: seq<Plan>, i: nat) returns (k: nat)
    requires i < |PlanEvents(before, plans)|
    ensures k < |plans| && Announces(before, plans[k])
    ensures PlanEvents(before, plans)[i] == Event(plans[k].key, plans[k].State().report)
  {
    var n := |plans| - 1;
    if i < |PlanEvents(before, plans[..n])| {
      k := PlanEventFrom(before, plans[..n], i);
    } else {
      k := n;
    }
  }

  lemma {:induction false} PlanEventOf(before: States, plans: seq<Plan>, k: nat) returns (i: nat)
    requires k < |plans| && Announces(before, plans[k])
    ensures i < |PlanEvents(before, plans)|
    ensures PlanEvents(before, plans)[i] == Event(plans[k].key, plans[k].State().report)
  {
    var n := |plans| - 1;
    if k < n {
      i := PlanEventOf(before, plans[..n], k);
    } else {
      i := |PlanEvents(before, plans)| - 1;
    }
  }

  lemma {:induction false} PlanEventsDistinct(before: States, plans: seq<Plan>)
    requires Reconcilable(plans)
    ensures DistinctKeys(PlanEvents(before, plans))
  {
    if plans != [] {
      var n := |plans| - 1;
      var earlier := PlanEvents(before, plans[..n]);
      PlanEventsDistinct(before, plans[..n]);
      forall i | 0 <= i < |earlier| ensures earlier[i].key != plans[n].key {
        var k := PlanEventFrom(before, plans[..n], i);
        assert plans[..n][k] == plans[k];
      }
      var events := PlanEvents(before, plans);
      assert events == earlier || events == earlier + [Event(plans[n].key, plans[n].State().report)];
    }
  }

  lemma PlanEventIsChange(before: States, plans: seq<Plan>, i: nat)
    requires Reconcilable(plans) && i < |PlanEvents(before, plans)|
    ensures var e, after := PlanEvents(before, plans)[i], NextStates(plans);
      BAR !in e.key.name && KeyString(e.key) in after && Change(before, after, KeyString(e.key)) == Some(e.report)
  {
    var k := PlanEventFrom(before, plans, i);
    NextStatesHas(plans, k);
  }

  lemma RemovalIsChange(before: States, after: States, removals: seq<Event>, raws: seq<string>, i: nat)
    requires WellKept(before) && IsRemovals(before, after, removals, raws) && i < |removals|
    ensures BAR !in removals[i].key.name && KeyString(removals[i].key) == raws[i]
    ensures raws[i] !in after && Change(before, after, raws[i]) == Some(removals[i].report)
  {
    assert raws[i] in raws;
    ParsedNameHasNoBar(raws[i]);
    StringRoundTrip(raws[i]);
  }

  lemma ChangeIsEmitted(before: States, plans: seq<Plan>, removals: seq<Event>, raws: seq<string>, raw: string) returns (i: nat)
    requires WellKept(before) && Reconcilable(plans) && IsRemovals(before, NextStates(plans), removals, raws)
    requires Change(before, NextStates(plans), raw).Some?
    ensures var events := PlanEvents(before, plans) + removals;
      i < |events| && KeyString(events[i].key) == raw
  {
    if raw in NextStates(plans) {
      var k := NextStatesFrom(plans, raw);
      i := PlanEventOf(before, plans, k);
    } else {
      assert raw in raws;
      var j :| 0 <= j < |raws| && raws[j] == raw;
      RemovalIsChange(before, NextStates(plans), removals, raws, j);
      i := |PlanEvents(before, plans)| + j;
    }
  }

  /** For plans with distinct keys the emitted events are exactly the diff, one event for each changed key. */
  lemma EmittedIsDiff(before: States, plans: seq<Plan>, events: seq<Event>)
    requires WellKept(before) && Reconcilable(plans) && Emits(before, plans, events)
    ensures WellKept(NextStates(plans)) && IsDiff(before, NextStates(plans), events)
  {
    var after, announced := NextStates(plans), PlanEvents(before, plans);
    var removals: seq<Event>, raws: seq<string> :| events == announced + removals && IsRemovals(before, after, removals, raws);
    NextStatesWellKept(plans);
    PlanEventsDistinct(before, plans);
    forall i | 0 <= i < |events|
      ensures BAR !in events[i].key.name && Change(before, after, KeyString(events[i].key)) == Some(events[i].report)
      ensures i < |announced| <==> KeyString(events[i].key) in after
      ensures i >= |announced| ==> KeyString(events[i].key) == raws[i - |announced|]
    {
      if i < |announced| {
        PlanEventIsChange(before, plans, i);
      } else {
        RemovalIsChange(before, after, removals, raws, i - |announced|);
      }
    }
    forall raw | Change(before, after, raw).Some? ensures exists i :: 0 <= i < |events| && KeyString(events[i].key) == raw {
      var i := ChangeIsEmitted(before, plans, removals, raws, raw);
    }
  }

  /** One reconcile turns a table that shows the old view into one that shows the new view. */
  lemma ReconcileUpdatesView(before: States, plans: seq<Plan>, events: seq<Event>, table: Table, key: ContainerKey)
    requires WellKept(before) && Reconcilable(plans) && Emits(before, plans, events)
    requires BAR !in key.name && Lookup(table, key) == PublicView(before, key)
    ensures Lookup(ReceiveAll(table, events), key) == PublicView(NextStates(plans), key)
  {
    EmittedIsDiff(before, plans, events);
    DiffUpdatesView(before, NextStates(plans), events, table, key);
  }
}
