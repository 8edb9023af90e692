/**
 The same events as Central stores them: under the container's name alone, the image being
 only a field of the entry. A container that changes its image is then one entry, not two.
 */
module CentralByName {
  import opened Wire
  import opened Strings
  import opened Monitoring
  import opened LogPlans
  import opened Reconcile

  type NameTable = map<string, Report>

  /* ----- Central's table ----- */

  /** Central strips what its language takes for white space, the four separators included. */
  predicate IsBlank(c: char) {
    IsSpace(c) || 0x1C <= c as int <= 0x1F
  }

  function StripLeft(s: string): string {
    if s != "" && IsBlank(s[0]) then StripLeft(s[1..]) else s
  }

  function StripRight(s: string): string {
    if s != "" && IsBlank(s[|s| - 1]) then StripRight(s[..|s| - 1]) else s
  }

  function StripSlashes(s: string): string {
    if s != "" && s[0] == '/' then StripSlashes(s[1..]) else s
  }

  function Strip(s: string): string {
    StripRight(StripLeft(s))
  }

  lemma BlankIff(c: char)
    ensures IsBlank(c) <==> IsSpace(c) || c as int in {0x1C, 0x1D, 0x1E, 0x1F}
  {
  }

  predicate AllBlank(s: string) {
    forall i :: 0 <= i < |s| ==> IsBlank(s[i])
  }

  lemma {:induction false} StripLeftCuts(s: string) returns (a: string)
    ensures s == a + StripLeft(s) && AllBlank(a)
    ensures StripLeft(s) != "" ==> !IsBlank(StripLeft(s)[0])
  {
    a := "";
    if s != "" && IsBlank(s[0]) {
      var rest := StripLeftCuts(s[1..]);
      a := [s[0]] + rest;
    }
  }

  lemma {:induction false} StripRightCuts(s: string) returns (b: string)
    ensures s == StripRight(s) + b && AllBlank(b)
    ensures StripRight(s) != "" ==> !IsBlank(StripRight(s)[|StripRight(s)| - 1])
  {
    b := "";
    if s != "" && IsBlank(s[|s| - 1]) {
      var rest := StripRightCuts(s[..|s| - 1]);
      b := rest + [s[|s| - 1]];
    }
  }

  lemma {:induction false} SlashesAreCut(s: string) returns (a: string)
    ensures s == a + StripSlashes(s) && forall i :: 0 <= i < |a| ==> a[i] == '/'
    ensures StripSlashes(s) != "" ==> StripSlashes(s)[0] != '/'
  {
    a := "";
    if s != "" && s[0] == '/' {
      var rest := SlashesAreCut(s[1..]);
      a := [s[0]] + rest;
    }
  }

  /** White space is taken off at both ends, and nothing else is. */
  lemma StripCuts(s: string) returns (a: string, b: string)
    ensures s == a + Strip(s) + b && AllBlank(a) && AllBlank(b)
    ensures Strip(s) != "" ==> !IsBlank(Strip(s)[0]) && !IsBlank(Strip(s)[|Strip(s)| - 1])
  {
    a := StripLeftCuts(s);
    b := StripRightCuts(StripLeft(s));
  }

  /** The entry that an event about a key belongs to. */
  function Place(key: ContainerKey): string {
    StripSlashes(Strip(key.name))
  }

  /** An event without a name or without an image is ignored. */
  predicate Heard(key: ContainerKey) {
    Place(key) != "" && Strip(key.image) != ""
  }

  /** The entry of a name is what is left of it without white space around it and slashes before it. */
  lemma PlaceOf(key: ContainerKey) returns (a: string, slashes: string, b: string)
    ensures key.name == a + slashes + Place(key) + b && AllBlank(a) && AllBlank(b)
    ensures (forall i :: 0 <= i < |slashes| ==> slashes[i] == '/') && (Place(key) != "" ==> Place(key)[0] != '/')
    ensures slashes + Place(key) != "" ==>
      !IsBlank((slashes + Place(key))[0]) && !IsBlank((slashes + Place(key))[|slashes + Place(key)| - 1])
  {
    a, b := StripCuts(key.name);
    slashes := SlashesAreCut(Strip(key.name));
  }

  /** An event is heard exactly if there is more to its name than slashes, and its image is not blank. */
  lemma HeardIff(key: ContainerKey)
    ensures Heard(key) <==> !AllBlank(key.image) && exists i :: 0 <= i < |Strip(key.name)| && Strip(key.name)[i] != '/'
  {
    var a, b := StripCuts(key.image);
    var slashes := SlashesAreCut(Strip(key.name));
    if Place(key) != "" {
      assert Strip(key.name)[|slashes|] != '/';
    }
    if Strip(key.image) != "" {
      assert key.image[|a|] == Strip(key.image)[0];
    }
  }

  function Store(table: NameTable, e: Event): NameTable {
    if Heard(e.key) then table[Place(e.key) := e.report] else table
  }

  function StoreAll(table: NameTable, events: seq<Event>): NameTable
    decreases events
  {
    if events == [] then table else StoreAll(Store(table, events[0]), events[1..])
  }

  function Shown(table: NameTable, n: string): Report {
    if n in table then table[n] else NO_ISSUE
  }

  /* ----- What it should show ----- */

  /** The agent remembers one state at most that belongs to the entry. */
  ghost predicate OneOf(states: States, n: string) {
    forall a, b :: a in states && b in states && Place(ParseKey(a)) == n && Place(ParseKey(b)) == n ==> a == b
  }

  /** The agent's report about an entry, whatever its image. */
  ghost predicate Reports(states: States, n: string, r: Report) {
    && (forall raw :: raw in states && Place(ParseKey(raw)) == n ==> states[raw].report == r)
    && ((forall raw :: raw in states ==> Place(ParseKey(raw)) != n) ==> r == NO_ISSUE)
  }

  /** An unavailable container of the entry is gone, and Central hears of it. */
  ghost predicate Cleared(before: States, after: States, n: string) {
    exists raw :: raw in before && raw !in after && Place(ParseKey(raw)) == n && Heard(ParseKey(raw)) && !before[raw].report.available
  }

  /** An unavailable container has come back under another image and is still unavailable. */
  ghost predicate ImageSwap(before: States, after: States, n: string) {
    && Cleared(before, after, n)
    && (exists raw :: raw in after && Place(ParseKey(raw)) == n && !after[raw].report.available)
  }

  /** Events about the entry would be ignored, as its key has no image. */
  ghost predicate Unheard(before: States, after: States, n: string) {
    && !Cleared(before, after, n)
    && forall raw :: raw in after && Place(ParseKey(raw)) == n ==> !Heard(ParseKey(raw))
  }

  lemma {:induction false} StoreAppend(table: NameTable, a: seq<Event>, b: seq<Event>)
    ensures StoreAll(table, a + b) == StoreAll(StoreAll(table, a), b)
    decreases a
  {
    if a == [] {
      assert a + b == b;
    } else {
      assert (a + b)[1..] == a[1..] + b;
      StoreAppend(Store(table, a[0]), a[1..], b);
    }
  }

  /** Some event about the entry is heard. */
  ghost predicate Tells(events: seq<Event>, n: string) {
    exists i :: 0 <= i < |events| && Place(events[i].key) == n && Heard(events[i].key)
  }

  /** If all events about an entry carry one report, that report is what the table comes to show. */
  lemma {:induction false} StoredReport(table: NameTable, events: seq<Event>, n: string, r: Report)
    requires forall i :: 0 <= i < |events| && Place(events[i].key) == n ==> events[i].report == r
    ensures Shown(StoreAll(table, events), n) == if Tells(events, n) then r else Shown(table, n)
    decreases events
  {
    if events != [] {
      var e, rest := events[0], events[1..];
      StoredReport(Store(table, e), rest, n, r);
      assert Tells(events, n) <==> (Place(e.key) == n && Heard(e.key)) || Tells(rest, n) by {
        if Tells(events, n) && !(Place(e.key) == n && Heard(e.key)) {
          var i :| 0 <= i < |events| && Place(events[i].key) == n && Heard(events[i].key);
          assert rest[i - 1] == events[i];
        }
        if Tells(rest, n) {
          var i :| 0 <= i < |rest| && Place(rest[i].key) == n && Heard(rest[i].key);
          assert events[i + 1] == rest[i];
        }
      }
    }
  }

  /* ----- One reconcile ----- */

  /**
   A table by name that showed the old report of an entry shows the new one after a reconcile,
   unless the image of an unavailable container was swapped, in which case the event that clears
   the old image comes last and clears the new one as well; or the report has changed and the
   entry's key has no image. In these two cases it does not.
   */
  lemma NameTableFollowsIff(before: States, plans: seq<Plan>, events: seq<Event>, table: NameTable, n: string, r: Report)
    requires WellKept(before) && Reconcilable(plans) && Emits(before, plans, events)
    requires n != "" && OneOf(before, n) && OneOf(NextStates(plans), n)
    requires Reports(before, n, Shown(table, n)) && Reports(NextStates(plans), n, r)
    ensures Shown(StoreAll(table, events), n) == r
      <==> !ImageSwap(before, NextStates(plans), n) && !(Unheard(before, NextStates(plans), n) && Shown(table, n) != r)
  {
    var after, announced := NextStates(plans), PlanEvents(before, plans);
    var removals: seq<Event>, raws: seq<string> :| events == announced + removals && IsRemovals(before, after, removals, raws);
    NextStatesWellKept(plans);
    StoreAppend(table, announced, removals);
    AnnouncedReport(before, plans, table, n, r);
    RemovedReport(before, after, removals, raws, StoreAll(table, announced), n);
    if raw :| raw in after && Place(ParseKey(raw)) == n {
      assert after[raw].report == r && (r.available <==> r == NO_ISSUE);
    }
  }

  /** The first loop alone brings the table up to date, unless the entry's key has no image. */
  lemma AnnouncedReport(before: States, plans: seq<Plan>, table: NameTable, n: string, r: Report)
    requires WellKept(before) && Reconcilable(plans)
    requires n != "" && OneOf(before, n) && OneOf(NextStates(plans), n)
    requires Reports(before, n, Shown(table, n)) && Reports(NextStates(plans), n, r)
    ensures var heard := exists raw :: raw in NextStates(plans) && Place(ParseKey(raw)) == n && Heard(ParseKey(raw));
      Shown(StoreAll(table, PlanEvents(before, plans)), n) == if heard then r else Shown(table, n)
  {
    var after, events := NextStates(plans), PlanEvents(before, plans);
    forall i | 0 <= i < |events| && Place(events[i].key) == n
      ensures events[i].report == r && KeyString(events[i].key) in after && ParseKey(KeyString(events[i].key)) == events[i].key
    {
      PlanEventIsChange(before, plans, i);
      KeyRoundTrip(events[i].key);
    }
    StoredReport(table, events, n, r);
    if raw :| raw in after && Place(ParseKey(raw)) == n && Heard(ParseKey(raw)) {
      var k := NextStatesFrom(plans, raw);
      KeyRoundTrip(plans[k].key);
      if Announces(before, plans[k]) {
        var i := PlanEventOf(before, plans, k);
        assert events[i].key == ParseKey(raw);
      } else {
        assert before[raw].report == Shown(table, n);
      }
    }
  }

  lemma RemovedReport(before: States, after: States, removals: seq<Event>, raws: seq<string>, table: NameTable, n: string)
    requires IsRemovals(before, after, removals, raws)
    ensures Shown(StoreAll(table, removals), n) == if Cleared(before, after, n) then NO_ISSUE else Shown(table, n)
  {
    StoredReport(table, removals, n, NO_ISSUE);
    if Cleared(before, after, n) {
      var raw :| raw in before && raw !in after && Place(ParseKey(raw)) == n && Heard(ParseKey(raw)) && !before[raw].report.available;
      assert raw in raws;
      var i :| 0 <= i < |raws| && raws[i] == raw;
      assert removals[i].key == ParseKey(raw);
    }
    if Tells(removals, n) {
      var i :| 0 <= i < |removals| && Place(removals[i].key) == n && Heard(removals[i].key);
      assert raws[i] in raws;
    }
  }

  /* ----- The cases that fail ----- */

  /** A container that cannot be inspected keeps the image that it is monitored under. */
  function FailedPlan(n: string, image: string): Plan {
    InspectPlan(ContainerKey(n, image), InspectError, false)
  }

  lemma OneFailedState(n: string, image: string)
    requires BAR !in n
    ensures Reconcilable([FailedPlan(n, image)])
    ensures NextStates([FailedPlan(n, image)]) == map[KeyString(ContainerKey(n, image)) := FailedPlan(n, image).State()]
    ensures FailedPlan(n, image).State().report == Report(false, INSPECT_FAILED)
    ensures ParseKey(KeyString(ContainerKey(n, image))) == ContainerKey(n, image)
  {
    var plan := FailedPlan(n, image);
    assert [plan][..|[plan]| - 1] == [] && NextStates([]) == map[];
    KeyRoundTrip(plan.key);
  }

  /** A container that cannot be inspected is monitored under another image: it ends up shown as available. */
  lemma ImageSwapIsLost(n: string, image: string, image': string, table: NameTable, events: seq<Event>)
    requires BAR !in n && Heard(ContainerKey(n, image)) && image != image'
    requires Emits(NextStates([FailedPlan(n, image)]), [FailedPlan(n, image')], events)
    ensures PublicView(NextStates([FailedPlan(n, image')]), ContainerKey(n, image')) == Report(false, INSPECT_FAILED)
    ensures Shown(StoreAll(table, events), Place(ContainerKey(n, image))) == NO_ISSUE
  {
    OneFailedState(n, image);
    OneFailedState(n, image');
    var before, after := NextStates([FailedPlan(n, image)]), NextStates([FailedPlan(n, image')]);
    var announced := PlanEvents(before, [FailedPlan(n, image')]);
    var removals: seq<Event>, raws: seq<string> :| events == announced + removals && IsRemovals(before, after, removals, raws);
    StoreAppend(table, announced, removals);
    var raw := KeyString(ContainerKey(n, image));
    assert raw in before && raw !in after;
    RemovedReport(before, after, removals, raws, StoreAll(table, announced), Place(ContainerKey(n, image)));
  }

  /** A container that is monitored without an image and cannot be inspected is not reported at all. */
  lemma BlankImageIsLost(n: string, events: seq<Event>)
    requires BAR !in n && Place(ContainerKey(n, "")) != "" && Emits(map[], [FailedPlan(n, "")], events)
    ensures PublicView(NextStates([FailedPlan(n, "")]), ContainerKey(n, "")) == Report(false, INSPECT_FAILED)
    ensures Shown(StoreAll(map[], events), Place(ContainerKey(n, ""))) == NO_ISSUE
  {
    OneFailedState(n, "");
    var key := ContainerKey(n, "");
    var after := NextStates([FailedPlan(n, "")]);
    assert !Heard(key);
    NameTableFollowsIff(map[], [FailedPlan(n, "")], events, map[], Place(key), Report(false, INSPECT_FAILED));
    var announced := PlanEvents(map[], [FailedPlan(n, "")]);
    var removals: seq<Event>, raws: seq<string> :| events == announced + removals && IsRemovals(map[], after, removals, raws);
    StoreAppend(map[], announced, removals);
    AnnouncedReport(map[], [FailedPlan(n, "")], map[], Place(key), Report(false, INSPECT_FAILED));
    RemovedReport(map[], after, removals, raws, StoreAll(map[], announced), Place(key));
  }
}
