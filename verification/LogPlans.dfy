/** How a container's logs will be collected, and what Central is told about it. */
module LogPlans {
  import opened Wire
  import opened Strings
  import opened Monitoring

  datatype SourceMode = Push | Tail | Unavailable

  datatype Plan = Plan(
    key: ContainerKey,
    containerName: string,
    dockerContainerID: string,
    image: string,
    logPath: string,
    usesTTY: bool,
    sourceMode: SourceMode,
    issue: string)
  {
    predicate IsHealthy() {
      sourceMode == Push || sourceMode == Tail
    }

    function State(): LogState {
      LogState(Report(IsHealthy(), issue), containerName, dockerContainerID, image)
    }
  }

  /** The remembered state of one container; only its report is compared and announced. */
  datatype LogState = LogState(report: Report, containerName: string, dockerContainerID: string, image: string)

  const INSPECT_FAILED := "inspect_failed"
  const MISSING_LOG_PATH := "missing_log_path"
  const UNSUPPORTED_SOURCE := "unsupported_source"

  datatype LogConfig = LogConfig(driver: string, fluentdIsLocal: bool)

  /**
   What inspecting a container yields. The driver is already lower-cased and trimmed; the
   accessible path is empty when no candidate location of the log file can be read.
   */
  datatype Inspection =
    | NoInspector
    | InspectError
    | Inspected(
        config: Option<(string, bool)>, // image and TTY flag
        name: string,
        id: string,
        host: Option<LogConfig>,
        logPath: string,
        accessiblePath: string)

  function InspectPlan(key: ContainerKey, inspection: Inspection, pushEnabled: bool): Plan {
    var bare := Plan(key, "", "", key.image, "", false, Unavailable, INSPECT_FAILED);
    match inspection
    case NoInspector => bare
    case InspectError => bare
    case Inspected(config, name, id, host, logPath, accessiblePath) =>
      var image := if config.Some? && TrimSpace(config.value.0) != "" then TrimSpace(config.value.0) else key.image;
      var plan := Plan(key.(image := image), NormalizeName(name), TrimSpace(id), image, "",
                       config.Some? && config.value.1, Unavailable, "");
      var driver := if host.Some? then host.value.driver else "";
      if driver == "fluentd" && pushEnabled && host.Some? && host.value.fluentdIsLocal then
        plan.(sourceMode := Push)
      else if TrimSpace(logPath) != "" then
        if accessiblePath == "" then plan.(issue := MISSING_LOG_PATH)
        else plan.(sourceMode := Tail, logPath := accessiblePath)
      else if driver != "" && driver != "json-file" && driver != "local" && driver != "fluentd" then
        plan.(issue := UNSUPPORTED_SOURCE)
      else
        plan.(issue := MISSING_LOG_PATH)
  }

  /** A plan carries no issue exactly when it is healthy, and inspecting never changes the name. */
  lemma HealthyIffNoIssue(key: ContainerKey, inspection: Inspection, pushEnabled: bool)
    ensures var plan := InspectPlan(key, inspection, pushEnabled);
      && (plan.IsHealthy() <==> plan.issue == "")
      && plan.key.name == key.name
      && (plan.IsHealthy() <==> plan.State().report == NO_ISSUE)
  {
  }

  /* ----- When a container is pushed, tailed or unavailable ----- */

  /** The container hands its lines to the agent's own fluentd. */
  predicate FeedsAgent(i: Inspection) {
    i.Inspected? && i.host.Some? && i.host.value.driver == "fluentd" && i.host.value.fluentdIsLocal
  }

  /** There is a log file at a place that can be read. */
  predicate HasFile(i: Inspection) {
    i.Inspected? && TrimSpace(i.logPath) != "" && i.accessiblePath != ""
  }

  /** A driver that leaves no file, and that is not the agent's own either. */
  predicate KeepsNoFile(i: Inspection) {
    i.Inspected? && i.host.Some? && i.host.value.driver !in {"", "json-file", "local", "fluentd"}
  }

  /** What is inspected decides how logs are collected: pushing comes first, then the file. */
  lemma ModeIff(key: ContainerKey, i: Inspection, pushEnabled: bool)
    ensures var plan := InspectPlan(key, i, pushEnabled);
      && (plan.sourceMode == Push <==> FeedsAgent(i) && pushEnabled)
      && (plan.sourceMode == Tail <==> HasFile(i) && !(FeedsAgent(i) && pushEnabled))
      && plan.logPath == (if plan.sourceMode == Tail then i.accessiblePath else "")
  {
  }

  /** The issue of an unavailable container tells what is wrong with it. */
  lemma IssueIff(key: ContainerKey, i: Inspection, pushEnabled: bool)
    ensures var plan := InspectPlan(key, i, pushEnabled); var collected := HasFile(i) || (FeedsAgent(i) && pushEnabled);
      && (plan.issue == "" <==> collected)
      && (plan.issue == "inspect_failed" <==> !i.Inspected?)
      && (plan.issue == "unsupported_source" <==> !collected && KeepsNoFile(i) && TrimSpace(i.logPath) == "")
      && (plan.issue == "missing_log_path" <==>
            i.Inspected? && !collected && (TrimSpace(i.logPath) != "" || !KeepsNoFile(i)))
  {
  }

  /** Enabling push never costs a container its logs, and helps exactly those that have no file. */
  lemma PushHelpsIff(key: ContainerKey, i: Inspection)
    ensures var without, with := InspectPlan(key, i, false), InspectPlan(key, i, true);
      && (without.IsHealthy() ==> with.IsHealthy())
      && (with.IsHealthy() && !without.IsHealthy() <==> FeedsAgent(i) && !HasFile(i))
      && (!FeedsAgent(i) ==> with == without)
  {
  }

  /** The image that a plan reports: as inspected, or as asked for where the inspection has nothing to say. */
  lemma PlanImage(key: ContainerKey, i: Inspection, pushEnabled: bool)
    ensures var plan := InspectPlan(key, i, pushEnabled);
      && plan.key == ContainerKey(key.name, plan.image)
      && (i.Inspected? && i.config.Some? && TrimSpace(i.config.value.0) != "" ==> plan.image == TrimSpace(i.config.value.0))
      && (!i.Inspected? || i.config == None || TrimSpace(i.config.value.0) == "" ==> plan.image == key.image)
  {
  }

  /** What else a plan reports of the container, and what is remembered of it. */
  lemma PlanIdentity(key: ContainerKey, i: Inspection, pushEnabled: bool)
    ensures var plan := InspectPlan(key, i, pushEnabled);
      && (plan.usesTTY <==> i.Inspected? && i.config.Some? && i.config.value.1)
      && plan.dockerContainerID == (if i.Inspected? then TrimSpace(i.id) else "")
      && plan.containerName == (if i.Inspected? then TrimSpace(if "/" <= i.name then i.name[1..] else i.name) else "")
      && plan.State() == LogState(Report(plan.issue == "", plan.issue), plan.containerName, plan.dockerContainerID, plan.image)
  {
    HealthyIffNoIssue(key, i, pushEnabled);
    if i.Inspected? {
      SlashPrefix(i.name);
    }
  }

  lemma SlashPrefix(s: string)
    ensures "/" <= s <==> s != [] && s[0] == '/'
  {
  }

  /** Plans as inspection makes them of listed keys: bar-free names, an issue exactly when unavailable. */
  ghost predicate Inspectable(plans: seq<Plan>) {
    forall i :: 0 <= i < |plans| ==> BAR !in plans[i].key.name && (plans[i].IsHealthy() <==> plans[i].issue == "")
  }

  /** Plans as the reconcile needs them: with distinct keys as well. */
  ghost predicate Reconcilable(plans: seq<Plan>) {
    && Inspectable(plans)
    && (forall i, j :: 0 <= i < j < |plans| ==> plans[i].key != plans[j].key)
  }

  /** One plan per key, in the same order. */
  method BuildLogCollectionPlan(keys: seq<ContainerKey>, inspect: ContainerKey -> Inspection, pushEnabled: bool)
    returns (plans: seq<Plan>)
    ensures |plans| == |keys|
    ensures forall i :: 0 <= i < |keys| ==> plans[i] == InspectPlan(keys[i], inspect(keys[i]), pushEnabled)
    ensures forall i :: 0 <= i < |keys| ==> (plans[i].sourceMode == Push <==> FeedsAgent(inspect(keys[i])) && pushEnabled)
    ensures forall i :: 0 <= i < |keys| ==>
      (plans[i].IsHealthy() <==> HasFile(inspect(keys[i])) || (FeedsAgent(inspect(keys[i])) && pushEnabled))
  {
    plans := [];
    for k := 0 to |keys|
      invariant |plans| == k
      invariant forall i :: 0 <= i < k ==> plans[i] == InspectPlan(keys[i], inspect(keys[i]), pushEnabled)
    {
      plans := plans + [InspectPlan(keys[k], inspect(keys[k]), pushEnabled)];
    }
  }

  /** Plans of listed keys are as inspection makes them, be the names unique or not. */
  lemma PlansAreInspectable(keys: seq<ContainerKey>, plans: seq<Plan>, inspect: ContainerKey -> Inspection, pushEnabled: bool)
    requires |plans| == |keys| && forall i :: 0 <= i < |keys| ==> BAR !in keys[i].name
    requires forall i :: 0 <= i < |keys| ==> plans[i] == InspectPlan(keys[i], inspect(keys[i]), pushEnabled)
    ensures Inspectable(plans) && forall i :: 0 <= i < |plans| ==> plans[i].key.name == keys[i].name
  {
    forall i | 0 <= i < |plans|
      ensures BAR !in plans[i].key.name && plans[i].key.name == keys[i].name
      ensures plans[i].IsHealthy() <==> plans[i].issue == ""
    {
      HealthyIffNoIssue(keys[i], inspect(keys[i]), pushEnabled);
    }
  }

  /** Uniquely named monitored containers lead to plans with distinct keys, whatever images inspection reports. */
  lemma PlansOfUniqueNames(m: Containers, keys: seq<ContainerKey>, plans: seq<Plan>, inspect: ContainerKey -> Inspection, pushEnabled: bool)
    requires UniqueNames(m) && ListsKeys(m, keys)
    requires |plans| == |keys|
    requires forall i :: 0 <= i < |keys| ==> plans[i] == InspectPlan(keys[i], inspect(keys[i]), pushEnabled)
    ensures Reconcilable(plans)
    ensures forall i, j :: 0 <= i < j < |plans| ==> plans[i].key.name != plans[j].key.name
  {
    ListedNames(m, keys);
    PlansAreInspectable(keys, plans, inspect, pushEnabled);
  }
}
