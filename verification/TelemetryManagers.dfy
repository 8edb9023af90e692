/** The telemetry manager: commands from Central in, configuration and reports out. */
module TelemetryManagers {
  import opened Wire
  import opened Monitoring
  import opened LogPlans
  import opened Reconcile
  import Debounce

  class TelemetryManager {
    const state: MonitoringState
    const debouncer: Debounce.ConfigDebouncer
    var logStates: States
    var lastHealthy: bool

    constructor (delay: nat)
      ensures fresh(state) && fresh(debouncer)
      ensures state.containers == map[] && debouncer.timer == None && debouncer.delay == delay
      ensures logStates == map[] && !lastHealthy
    {
      state := new MonitoringState();
      debouncer := new Debounce.ConfigDebouncer(delay);
      logStates := map[];
      lastHealthy := false;
    }

    /** Changes the monitoring state first and triggers the debouncer afterwards. */
    method HandleToggle(name: string, image: string, enabled: bool, now: nat)
      modifies state, debouncer`timer
      ensures state.containers == Apply(old(state.containers), Toggle(name, image, enabled))
      ensures debouncer.timer == Some(now + debouncer.delay)
    {
      state.SetEnabled(name, image, enabled);
      debouncer.Trigger(now);
    }

    method HandleSync(entries: seq<Entry>, now: nat)
      modifies state, debouncer`timer
      ensures state.containers == Apply(old(state.containers), Sync(entries))
      ensures debouncer.timer == Some(now + debouncer.delay)
    {
      var newState: Containers := map[];
      for k := 0 to |entries|
        invariant newState == AfterSync(entries[..k])
      {
        if entries[k].enabled {
          newState := newState[KeyString(ContainerKey(entries[k].name, entries[k].image)) := true];
        }
      }
      assert entries[..|entries|] == entries;
      state.ReplaceAll(newState);
      debouncer.Trigger(now);
    }

    /**
     What the debounced callback does with the monitoring state. If the monitored names are
     unique, the events are exactly the changes of the public view.
     */
    method RebuildLogCollectionConfig(inspect: ContainerKey -> Inspection, pushEnabled: bool)
      returns (plans: seq<Plan>, events: seq<Event>)
      modifies this`logStates
      ensures logStates == NextStates(plans) && Emits(old(logStates), plans, events)
      ensures UniqueNames(state.containers) && WellKept(old(logStates)) ==>
        WellKept(logStates) && IsDiff(old(logStates), logStates, events)
    {
      var keys := state.MonitoredKeys();
      plans := BuildLogCollectionPlan(keys, inspect, pushEnabled);
      events := ReconcileLogCollectionPlans(plans);
      if UniqueNames(state.containers) && WellKept(old(logStates)) {
        PlansOfUniqueNames(state.containers, keys, plans, inspect, pushEnabled);
        EmittedIsDiff(old(logStates), plans, events);
      }
    }

    method ReconcileLogCollectionPlans(plans: seq<Plan>) returns (events: seq<Event>)
      modifies this`logStates
      ensures logStates == NextStates(plans)
      ensures Emits(old(logStates), plans, events)
    {
      var next: States := map[];
      events := [];
      for k := 0 to |plans|
        invariant next == NextStates(plans[..k])
        invariant events == PlanEvents(logStates, plans[..k])
        invariant logStates == old(logStates)
      {
        assert plans[..k + 1][..k] == plans[..k];
        var plan := plans[k];
        var raw := KeyString(plan.key);
        next := next[raw := plan.State()];
        if raw !in logStates || logStates[raw].report != plan.State().report {
          events := events + [Event(plan.key, plan.State().report)];
        }
      }
      assert plans[..|plans|] == plans;
      var removals := RemovalEvents(next);
      events := events + removals;
      logStates := next;
    }

    method RemovalEvents(next: States) returns (removals: seq<Event>)
      ensures exists raws :: IsRemovals(logStates, next, removals, raws)
    {
      removals := [];
      ghost var raws: seq<string> := [];
      var todo := logStates.Keys;
      while todo != {}
        invariant todo <= logStates.Keys
        invariant |removals| == |raws|
        invariant forall i :: 0 <= i < |removals| ==> removals[i] == Event(ParseKey(raws[i]), NO_ISSUE)
        invariant forall raw :: raw in raws <==>
          raw in logStates && raw !in todo && raw !in next && !logStates[raw].report.available
        invariant forall i, j :: 0 <= i < j < |raws| ==> raws[i] != raws[j]
        decreases todo
      {
        var raw :| raw in todo;
        todo := todo - {raw};
        if raw !in next && !logStates[raw].report.available {
          removals := removals + [Event(ParseKey(raw), NO_ISSUE)];
          raws := raws + [raw];
        }
      }
      assert IsRemovals(logStates, next, removals, raws);
    }

    /** The health callback when no flag changes meanwhile; without a push supervisor two flags count. */
    method HandleHealthChange(otel: bool, tail: bool, push: Option<bool>) returns (report: Option<bool>)
      modifies this`lastHealthy
      ensures lastHealthy == (otel && tail && (push == None || push.value))
      ensures report == if lastHealthy == old(lastHealthy) then None else Some(lastHealthy)
    {
      var overallHealthy := otel && tail;
      if push.Some? {
        overallHealthy := overallHealthy && push.value;
      }
      if overallHealthy == lastHealthy {
        return None;
      }
      lastHealthy := overallHealthy;
      return Some(overallHealthy);
    }
  }
}
