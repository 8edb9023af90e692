/** Many jobs in a row: what a job with a single fault hands to the next one. */
module UpdaterRuns {
  import opened Wire
  import opened DockerEngine
  import opened Updater
  import opened UpdaterSafety
  import opened UpdaterOutcomes

  /** The appliance that owns the appliance name is the only one that runs, and what is saved is another one. */
  ghost predicate Settled(w: World, u: UpdateState, current: Id, name: Name) {
    && Owns(w, current, name) && Calm(w, current) && SavedIsOther(w, u, current)
    && w.engine[current].kind == Appliance && w.engine[current].running
  }

  ghost predicate SettledAtAll(w: World, u: UpdateState, name: Name) {
    exists current :: Settled(w, u, current, name)
  }

  /** At most one call of the job fails, and that call is not the helper's stop of the old container. */
  ghost predicate Mild(w: World, u: UpdateState, job: Job, current: Id, name: Name)
    requires current in w.engine
  {
    var staged := Attempt(w, u, job, current, name);
    SingleFault(w) && (staged.handoff.Some? ==> !Fault(staged.world))
  }

  /* ----- Jobs that do not get to the hand-off ----- */

  lemma FailedStageStaysSettled(w: World, u: UpdateState, current: Id, name: Name, image: string)
    requires Settled(w, u, current, name) && SingleFault(w)
    requires StageReplacement(w, u, current, name, image).handoff == None
    ensures var s := StageReplacement(w, u, current, name, image); Settled(s.world, s.state, current, name)
  {
    StageIsSafe(w, u, current, name, image);
    StageCompensates(w, u, current, name, image);
    StageRemembersStamps(w, u, current, name, image);
  }

  lemma StageRemembersStamps(w: World, u: UpdateState, current: Id, name: Name, image: string)
    requires current in w.engine
    requires u.rollbackContainer.Some? ==> Known(w, u.rollbackContainer.value)
    ensures var s := StageReplacement(w, u, current, name, image);
      s.state.rollbackContainer.Some? ==> Known(s.world, s.state.rollbackContainer.value)
  {
  }

  lemma FailedRollbackStaysSettled(w: World, u: UpdateState, current: Id, name: Name)
    requires Settled(w, u, current, name) && SingleFault(w)
    requires Rollback(w, u, current, name).handoff == None
    ensures var s := Rollback(w, u, current, name); Settled(s.world, s.state, current, name)
  {
    var (w1, target) := RollbackTarget(w, u);
    if u.rollbackImage != "" {
      TargetIsSafe(w, u, current);
      TargetIsFree(w, u, current);
      if target.Some? {
        var spec := w.engine[current].spec;
        SwapBackIsSafe(w1, u, current, name, spec, target.value.0, target.value.1);
        SwapBackCompensates(w1, u, current, name, spec, target.value.0, target.value.1);
      }
    }
  }

  /** The container to roll back to goes by the name that it gets back if the rollback fails. */
  lemma TargetIsFree(w: World, u: UpdateState, current: Id)
    requires DistinctNames(w.engine) && FreshSupply(w) && SingleFault(w) && SavedIsOther(w, u, current)
    ensures var (w', target) := RollbackTarget(w, u);
      && SavedIsOther(w', u, current) && SingleFault(w') && w'.fails == w.fails && w'.calls >= w.calls
      && (target.Some? ==> target.value.0 in w'.engine && w'.engine[target.value.0].name == target.value.1)
  {
    var (w1, saved) := Saved(w, u);
    if saved == None && u.rollbackConfig.Some? {
      NamesAreFresh(w1, "rollback-restore");
    }
  }

  /* ----- Jobs that do ----- */

  /** How the hand-off begins when staging or rolling back has succeeded. */
  ghost predicate Launched(w: World, u: UpdateState, h: Handoff, name: Name) {
    && h.newName == name && Prepared(w, h) && MayHandOver(w, h) && SingleFault(w)
    && h.helper in w.engine && w.engine[h.helper].kind == Helper && w.engine[h.helper].name.Stamped?
    && u.rollbackContainer == h.oldName
    && h.newName != w.engine[h.helper].name
  }

  lemma StageLaunches(w: World, u: UpdateState, current: Id, name: Name, image: string)
    requires Settled(w, u, current, name) && SingleFault(w)
    requires StageReplacement(w, u, current, name, image).handoff.Some?
    ensures var s := StageReplacement(w, u, current, name, image); Launched(s.world, s.state, s.handoff.value, name)
  {
    StageIsSafe(w, u, current, name, image);
    StageRuns(w, u, current, name, image);
  }

  lemma RollbackLaunches(w: World, u: UpdateState, current: Id, name: Name)
    requires Settled(w, u, current, name) && SingleFault(w)
    requires Rollback(w, u, current, name).handoff.Some?
    ensures var s := Rollback(w, u, current, name); Launched(s.world, s.state, s.handoff.value, name)
  {
    var (w1, target) := RollbackTarget(w, u);
    TargetIsSafe(w, u, current);
    TargetIsFree(w, u, current);
    var spec := w.engine[current].spec;
    SwapBackIsSafe(w1, u, current, name, spec, target.value.0, target.value.1);
    SwapBackRuns(w1, u, current, name, spec, target.value.0, target.value.1);
    assert Rollback(w, u, current, name) == SwapBack(w1, u, current, name, spec, target.value.0, target.value.1);
  }

  /** A hand-off with at most one fault leaves the appliance settled exactly if the stop does not fail. */
  lemma HandoffSettlesIff(w: World, u: UpdateState, h: Handoff)
    requires Launched(w, u, h, h.newName)
    ensures var (w', u') := RunHandoff(w, u, h); SettledAtAll(w', u', h.newName) <==> !Fault(w)
  {
    if Fault(w) {
      StoppedOwnsName(w, u, h);
    } else if w.fails(w.calls + 1) {
      OldIsBack(w, u, h);
    } else {
      NewTakesOver(w, u, h);
    }
  }

  /** After a failed stop the stopped replacement owns the name, and so nothing is settled. */
  lemma StoppedOwnsName(w: World, u: UpdateState, h: Handoff)
    requires Launched(w, u, h, h.newName) && Fault(w)
    ensures var (w', u') := RunHandoff(w, u, h);
      && w'.engine == w.engine - {h.helper} && w'.calls == w.calls + 1 && w'.fails == w.fails && w'.clock == w.clock
      && SafeWorld(w') && u' == u.(lastError := true) && !SettledAtAll(w', u', h.newName)
  {
    StopFails(w, u, h);
    HandoffIsSafe(w, u, h);
    var (w', u') := RunHandoff(w, u, h);
    forall current ensures !Settled(w', u', current, h.newName) {
      assert h.new_ in w'.engine && w'.engine[h.new_].name == h.newName;
    }
  }

  lemma OldIsBack(w: World, u: UpdateState, h: Handoff)
    requires Launched(w, u, h, h.newName) && !Fault(w) && w.fails(w.calls + 1)
    ensures var (w', u') := RunHandoff(w, u, h); Settled(w', u', h.old_, h.newName)
  {
    HandoffIsSafe(w, u, h);
    StartFails(w, u, h);
    HandoffKeepsSupply(w, u, h);
  }

  lemma NewTakesOver(w: World, u: UpdateState, h: Handoff)
    requires Launched(w, u, h, h.newName) && !Fault(w) && !w.fails(w.calls + 1)
    ensures var (w', u') := RunHandoff(w, u, h); Settled(w', u', h.new_, h.newName)
  {
    HandoffIsSafe(w, u, h);
    StartSucceeds(w, u, h);
    HandoffKeepsSupply(w, u, h);
  }

  lemma HandoffKeepsSupply(w: World, u: UpdateState, h: Handoff)
    ensures var (w', u') := RunHandoff(w, u, h);
      && w'.clock >= w.clock && u'.rollbackContainer == u.rollbackContainer
      && w'.engine == HandOver(w, u, h).0.engine - {h.helper}
  {
  }

  /* ----- Any number of jobs ----- */

  /**
   A job that meets at most one fault leaves the appliance settled, so that the next job is as safe,
   exactly if it does not get to the hand-off or the helper's stop of the old container succeeds.
   */
  lemma JobSettlesIff(w: World, u: UpdateState, job: Job, current: Id, name: Name)
    requires Settled(w, u, current, name) && SingleFault(w)
    ensures var (w', u') := RunJob(w, u, job, current, name);
      SettledAtAll(w', u', name) <==> Mild(w, u, job, current, name)
  {
    AttemptSettlesOrLaunches(w, u, job, current, name);
    var s := Attempt(w, u, job, current, name);
    if s.handoff.Some? {
      HandoffSettlesIff(s.world, s.state, s.handoff.value);
    }
  }

  lemma AttemptSettlesOrLaunches(w: World, u: UpdateState, job: Job, current: Id, name: Name)
    requires Settled(w, u, current, name) && SingleFault(w)
    ensures var s := Attempt(w, u, job, current, name);
      if s.handoff == None then Settled(s.world, s.state, current, name) else Launched(s.world, s.state, s.handoff.value, name)
  {
    var s := Attempt(w, u, job, current, name);
    match job {
      case Update(image) =>
        if s.handoff == None { FailedStageStaysSettled(w, u, current, name, image); } else { StageLaunches(w, u, current, name, image); }
      case RollBack =>
        if s.handoff == None { FailedRollbackStaysSettled(w, u, current, name); } else { RollbackLaunches(w, u, current, name); }
    }
  }

  /**
   What a failed stop leads to: an update whose only fault is the helper's stop, and a rollback that
   meets no fault at all, leave two appliances running.
   */
  lemma FailedStopThenRollback(w: World, u: UpdateState, current: Id, name: Name, image: string)
    requires Settled(w, u, current, name) && w.engine[current].spec.image != ""
    requires forall c :: c >= w.calls ==> (w.fails(c) <==> c == w.calls + 6)
    ensures var (w', u') := RunJob(w, u, Update(image), current, name);
      && FindByName(w'.engine, name) == Some(w.nextId)
      && !Exclusive(RunJob(w', u', RollBack, w.nextId, name).0.engine)
  {
    StageCompensates(w, u, current, name, image);
    StageRuns(w, u, current, name, image);
    StageLaunches(w, u, current, name, image);
    var s := StageReplacement(w, u, current, name, image);
    StoppedOwnsName(s.world, s.state, s.handoff.value);
    var (w', u') := RunJob(w, u, Update(image), current, name);
    FoundByName(w'.engine, w.nextId);
    RollbackAfterFailedStop(w', u', w.nextId, current, name);
  }

  datatype Episode = Episode(job: Job, fails: nat -> bool)

  /** The current container of each job is the one that owns the appliance name. */
  ghost function RunAll(w: World, u: UpdateState, name: Name, episodes: seq<Episode>): (World, UpdateState)
    decreases |episodes|
  {
    var current := FindByName(w.engine, name);
    if episodes == [] || current == None then (w, u)
    else
      var (w', u') := RunJob(w.(fails := episodes[0].fails), u, episodes[0].job, current.value, name);
      RunAll(w', u', name, episodes[1..])
  }

  ghost predicate AllMild(w: World, u: UpdateState, name: Name, episodes: seq<Episode>)
    decreases |episodes|
  {
    var current := FindByName(w.engine, name);
    episodes == [] || current == None ||
    (var (w', u') := RunJob(w.(fails := episodes[0].fails), u, episodes[0].job, current.value, name);
     && Mild(w.(fails := episodes[0].fails), u, episodes[0].job, current.value, name)
     && AllMild(w', u', name, episodes[1..]))
  }

  /**
   After any run of updates and rollbacks, each of which meets at most one fault other than the
   helper's stop, exactly one appliance runs, under the appliance name; and at no point of the
   run did two appliances run or share a name.
   */
  lemma {:induction false} RunsStaySettled(w: World, u: UpdateState, name: Name, episodes: seq<Episode>)
    requires SettledAtAll(w, u, name) && AllMild(w, u, name, episodes)
    ensures var (w', u') := RunAll(w, u, name, episodes); SettledAtAll(w', u', name) && SafeWorld(w')
    decreases |episodes|
  {
    var current :| Settled(w, u, current, name);
    if episodes != [] {
      FoundByName(w.engine, current);
      var w0 := w.(fails := episodes[0].fails);
      assert Settled(w0, u, current, name);
      JobSettlesIff(w0, u, episodes[0].job, current, name);
      var (w', u') := RunJob(w0, u, episodes[0].job, current, name);
      RunsStaySettled(w', u', name, episodes[1..]);
    }
  }
}
