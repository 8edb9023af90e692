/**
 Plans that share a key. A sync may enable two images of one name, and inspection may report the
 same image for both; the reconcile then compares each plan with what was remembered before.
 */
module Duplicates {
  import opened Wire
  import opened Strings
  import opened Monitoring
  import opened LogPlans
  import opened Reconcile

  /** Plan j is the last one of its key. */
  ghost predicate IsLast(plans: seq<Plan>, j: nat) {
    j < |plans| && forall m :: j < m < |plans| ==> plans[m].key != plans[j].key
  }

  /** The last plan of the key agrees with what was remembered, while an earlier one does not. */
  ghost predicate Overruled(before: States, plans: seq<Plan>, key: ContainerKey) {
    exists i: nat, j: nat ::
      && i < j && IsLast(plans, j) && plans[i].key == key && plans[j].key == key
      && Announces(before, plans[i]) && !Announces(before, plans[j])
  }

  /** The report of the last event about a key, if the plans lead to one. */
  ghost function LastReport(before: States, plans: seq<Plan>, key: ContainerKey): Option<Report> {
    if plans == [] then None
    else
      var last := plans[|plans| - 1];
      if last.key == key && Announces(before, last) then Some(last.State().report)
      else LastReport(before, plans[..|plans| - 1], key)
  }

  lemma {:induction false} ReceiveAppend(table: Table, a: seq<Event>, b: seq<Event>)
    ensures ReceiveAll(table, a + b) == ReceiveAll(ReceiveAll(table, a), b)
    decreases a
  {
    if a == [] {
      assert a + b == b;
    } else {
      assert (a + b)[1..] == a[1..] + b;
      ReceiveAppend(Receive(table, a[0]), a[1..], b);
    }
  }

  /** The events of the plans leave the last report about a key, or what the table showed before. */
  lemma {:induction false} LastReportIsShown(before: States, plans: seq<Plan>, table: Table, key: ContainerKey)
    ensures var last := LastReport(before, plans, key);
      Lookup(ReceiveAll(table, PlanEvents(before, plans)), key) == if last.Some? then last.value else Lookup(table, key)
  {
    if plans != [] {
      var rest, last := plans[..|plans| - 1], plans[|plans| - 1];
      LastReportIsShown(before, rest, table, key);
      if Announces(before, last) {
        var e := Event(last.key, last.State().report);
        ReceiveAppend(table, PlanEvents(before, rest), [e]);
        assert ReceiveAll(ReceiveAll(table, PlanEvents(before, rest)), [e]) == Receive(ReceiveAll(table, PlanEvents(before, rest)), e);
      } else {
        assert PlanEvents(before, plans) == PlanEvents(before, rest);
      }
    }
  }

  /** The next state of a key is that of its last plan. */
  lemma {:induction false} LastPlanIsKept(plans: seq<Plan>, j: nat)
    requires Inspectable(plans) && IsLast(plans, j)
    ensures KeyString(plans[j].key) in NextStates(plans) && NextStates(plans)[KeyString(plans[j].key)] == plans[j].State()
  {
    var n := |plans| - 1;
    if j < n {
      assert IsLast(plans[..n], j);
      LastPlanIsKept(plans[..n], j);
      KeyRoundTrip(plans[j].key);
      KeyRoundTrip(plans[n].key);
    }
  }

  lemma {:induction false} LastOf(plans: seq<Plan>, i: nat) returns (j: nat)
    requires i < |plans|
    ensures i <= j && IsLast(plans, j) && plans[j].key == plans[i].key
    decreases |plans| - i
  {
    if m: nat :| i < m < |plans| && plans[m].key == plans[i].key {
      j := LastOf(plans, m);
    } else {
      j := i;
    }
  }

  /** An event about a key comes from the last of its plans that announces something. */
  lemma {:induction false} LastReportFrom(before: States, plans: seq<Plan>, key: ContainerKey) returns (i: nat)
    requires LastReport(before, plans, key).Some?
    ensures i < |plans| && plans[i].key == key && Announces(before, plans[i])
    ensures LastReport(before, plans, key) == Some(plans[i].State().report)
    ensures forall m :: i < m < |plans| && plans[m].key == key ==> !Announces(before, plans[m])
  {
    var n := |plans| - 1;
    if plans[n].key == key && Announces(before, plans[n]) {
      i := n;
    } else {
      i := LastReportFrom(before, plans[..n], key);
    }
  }

  lemma {:induction false} NoReport(before: States, plans: seq<Plan>, key: ContainerKey, i: nat)
    requires LastReport(before, plans, key) == None && i < |plans| && plans[i].key == key
    ensures !Announces(before, plans[i])
  {
    var n := |plans| - 1;
    if i < n {
      NoReport(before, plans[..n], key, i);
      assert plans[..n][i] == plans[i];
    }
  }

  /** The removals do not touch a key that has a plan, and clear one that has none. */
  lemma RemovalsShow(before: States, plans: seq<Plan>, removals: seq<Event>, raws: seq<string>, table: Table, key: ContainerKey)
    requires WellKept(before) && BAR !in key.name && IsRemovals(before, NextStates(plans), removals, raws)
    ensures var raw := KeyString(key);
      Lookup(ReceiveAll(table, removals), key)
      == if raw in before && raw !in NextStates(plans) && !before[raw].report.available then NO_ISSUE else Lookup(table, key)
  {
    var raw := KeyString(key);
    KeyRoundTrip(key);
    forall i | 0 <= i < |removals| ensures KeyString(removals[i].key) == raws[i] {
      RemovalIsChange(before, NextStates(plans), removals, raws, i);
    }
    FoldOfDistinct(table, removals, key);
    if raw in before && raw !in NextStates(plans) && !before[raw].report.available {
      assert raw in raws;
      var i :| 0 <= i < |raws| && raws[i] == raw;
      assert removals[i].key == key;
    } else {
      assert !Mentions(removals, key);
    }
  }

  /**
   For any plans, with or without shared keys: a table that showed the old view of a key fails to
   show the new one exactly if the key's last plan agrees with what was remembered while an earlier
   plan of the same key does not.
   */
  lemma MisreportedIffOverruled(before: States, plans: seq<Plan>, events: seq<Event>, table: Table, key: ContainerKey)
    requires WellKept(before) && Inspectable(plans) && Emits(before, plans, events)
    requires BAR !in key.name && Lookup(table, key) == PublicView(before, key)
    ensures Lookup(ReceiveAll(table, events), key) != PublicView(NextStates(plans), key) <==> Overruled(before, plans, key)
  {
    var announced := PlanEvents(before, plans);
    var removals: seq<Event>, raws: seq<string> :| events == announced + removals && IsRemovals(before, NextStates(plans), removals, raws);
    ReceiveAppend(table, announced, removals);
    LastReportIsShown(before, plans, table, key);
    RemovalsShow(before, plans, removals, raws, ReceiveAll(table, announced), key);
    if i: nat :| i < |plans| && plans[i].key == key {
      var j := LastOf(plans, i);
      LastPlanIsKept(plans, j);
      PlannedIff(before, plans, key, j);
    } else {
      UnplannedIsAbsent(before, plans, key);
    }
  }

  lemma PlannedIff(before: States, plans: seq<Plan>, key: ContainerKey, j: nat)
    requires IsLast(plans, j) && plans[j].key == key
    ensures var last := LastReport(before, plans, key); var shown := if last.Some? then last.value else PublicView(before, key);
      shown != plans[j].State().report <==> Overruled(before, plans, key)
  {
    if LastReport(before, plans, key).Some? {
      var i := LastReportFrom(before, plans, key);
      assert i <= j;
      if i == j {
        forall k: nat | IsLast(plans, k) && plans[k].key == key ensures k == j {
        }
      } else {
        assert Overruled(before, plans, key);
      }
    } else {
      NoReport(before, plans, key, j);
      forall i: nat | i < |plans| && plans[i].key == key ensures !Announces(before, plans[i]) {
        NoReport(before, plans, key, i);
      }
    }
  }

  lemma {:induction false} UnplannedIsAbsent(before: States, plans: seq<Plan>, key: ContainerKey)
    requires Inspectable(plans) && BAR !in key.name && forall i :: 0 <= i < |plans| ==> plans[i].key != key
    ensures KeyString(key) !in NextStates(plans) && LastReport(before, plans, key) == None
  {
    if plans != [] {
      var n := |plans| - 1;
      UnplannedIsAbsent(before, plans[..n], key);
      KeyRoundTrip(key);
      KeyRoundTrip(plans[n].key);
    }
  }

  /* ----- An example ----- */

  /** A container that is inspected twice in a row; its log file appears in between. */
  function FileAppears(key: ContainerKey): Inspection {
    Inspected(Some(("x", false)), key.name, "", Some(LogConfig("json-file", false)), "/log", if key.image == "b" then "/log" else "")
  }

  function PlanOf(n: string, image: string): Plan {
    InspectPlan(ContainerKey(n, image), FileAppears(ContainerKey(n, image)), false)
  }

  lemma PlansOfTheExample(n: string)
    ensures PlanOf(n, "a").key == PlanOf(n, "b").key == ContainerKey(n, "x")
    ensures PlanOf(n, "a").State().report == Report(false, MISSING_LOG_PATH)
    ensures PlanOf(n, "b").State().report == NO_ISSUE
  {
    assert TrimLeft("x") == "x" && TrimSpace("x") == "x";
    assert TrimLeft("/log") == "/log" && TrimSpace("/log") == "/log";
  }

  lemma BothImagesMonitored(n: string)
    requires BAR !in n
    ensures AfterSync([Entry(n, "a", true), Entry(n, "b", true)]).Keys == {KeyString(ContainerKey(n, "a")), KeyString(ContainerKey(n, "b"))}
  {
    var entries := [Entry(n, "a", true), Entry(n, "b", true)];
    assert entries[0].enabled && entries[1].enabled;
  }

  lemma SecondOverrulesFirst(before: States, first: Plan, second: Plan)
    requires first.key == second.key && Announces(before, first) && !Announces(before, second)
    ensures Overruled(before, [first, second], first.key)
  {
    var plans := [first, second];
    assert IsLast(plans, 1) && plans[0].key == first.key && plans[1].key == first.key;
  }

  /**
   Both images of a name are monitored and the container runs under one of them. Its logs were
   collected before; the first inspection misses the file, and the second finds it. Central is told
   of the first only.
   */
  lemma TwoImagesMisreport(n: string, events: seq<Event>)
    requires BAR !in n
    requires Emits(map[KeyString(ContainerKey(n, "x")) := PlanOf(n, "b").State()], [PlanOf(n, "a"), PlanOf(n, "b")], events)
    ensures AfterSync([Entry(n, "a", true), Entry(n, "b", true)]).Keys == {KeyString(ContainerKey(n, "a")), KeyString(ContainerKey(n, "b"))}
    ensures Lookup(ReceiveAll(map[], events), ContainerKey(n, "x")) != PublicView(NextStates([PlanOf(n, "a"), PlanOf(n, "b")]), ContainerKey(n, "x"))
  {
    BothImagesMonitored(n);
    PlansOfTheExample(n);
    var key := ContainerKey(n, "x");
    var before: States := map[KeyString(key) := PlanOf(n, "b").State()];
    SecondOverrulesFirst(before, PlanOf(n, "a"), PlanOf(n, "b"));
    HealthyIffNoIssue(ContainerKey(n, "a"), FileAppears(ContainerKey(n, "a")), false);
    HealthyIffNoIssue(ContainerKey(n, "b"), FileAppears(ContainerKey(n, "b")), false);
    MisreportedIffOverruled(before, [PlanOf(n, "a"), PlanOf(n, "b")], events, map[], key);
  }
}
