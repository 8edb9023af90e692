/** Whatever calls fail, the old and the new appliance never run together. */
module UpdaterSafety {
  import opened Wire
  import opened DockerEngine
  import opened Updater

  lemma StartHandoffKeeps(w: World, old_: Id, oldName: Name, new_: Id, newName: Name, image: string, id: Id)
    requires Calm(w, id)
    ensures var (w', h) := StartHandoff(w, old_, oldName, new_, newName, image);
      && Calm(w', id)
      && (h.Some? ==> h.value.old_ == old_ && h.value.new_ == new_ && h.value.newName == newName && h.value.oldName == Some(oldName)
                      && h.value.helper in w'.engine && h.value.helper !in w.engine)
      && (forall i :: i in w.engine ==> i in w'.engine && w'.engine[i] == w.engine[i])
      && w'.clock >= w.clock
  {
    NamesAreFresh(w, "handoff");
    var (w0, helperName) := UniqueName(w, "handoff");
    CreateKeeps(w0, helperName, Spec(image, ""), Helper, id);
    var (w1, helper) := Create(w0, helperName, Spec(image, ""), Helper);
    if helper.Some? {
      StartKeeps(w1, helper.value, id);
      RemoveKeeps(Start(w1, helper.value).0, helper.value, id);
    }
  }

  /** A name that uniqueContainerName will not make again. */
  predicate Known(w: World, name: Name) {
    name.Stamped? ==> name.stamp < w.clock
  }

  /** A hand-off may begin: only the old appliance may be running, and the new one is another one. */
  ghost predicate MayHandOver(w: World, h: Handoff) {
    && Calm(w, h.old_) && h.old_ != h.new_ && Known(w, h.newName)
    && h.old_ in w.engine && w.engine[h.old_].kind == Appliance
    && h.new_ in w.engine && w.engine[h.new_].kind == Appliance && !w.engine[h.new_].running
  }

  ghost predicate StagedWell(s: Staged, current: Id) {
    && Calm(s.world, current)
    && (s.handoff.Some? ==> s.handoff.value.old_ == current && MayHandOver(s.world, s.handoff.value))
  }

  lemma StageIsSafe(w: World, u: UpdateState, current: Id, currentName: Name, image: string)
    requires Calm(w, current) && Known(w, currentName) && current in w.engine && w.engine[current].kind == Appliance
    ensures StagedWell(StageReplacement(w, u, current, currentName, image), current)
  {
    var spec := w.engine[current].spec;
    NamesAreFresh(w, "update");
    var (w0, replacementName) := UniqueName(w, "update");
    CreateKeeps(w0, replacementName, spec.(image := image), Appliance, current);
    var (w1, created) := Create(w0, replacementName, spec.(image := image), Appliance);
    if created.Some? {
      InspectKeeps(w1, created.value, current);
      var (w2, inspected) := Inspect(w1, created.value);
      RemoveKeeps(w2, created.value, current);
      if inspected {
        SwapNamesIsSafe(w2, u, current, currentName, spec, created.value, replacementName, image);
      }
    }
  }

  lemma SwapNamesIsSafe(w: World, u: UpdateState, current: Id, currentName: Name, spec: Spec, id: Id, replacementName: Name, image: string)
    requires Calm(w, current) && Known(w, currentName) && Known(w, replacementName)
    requires current in w.engine && w.engine[current].kind == Appliance
    requires id in w.engine && w.engine[id].kind == Appliance && !w.engine[id].running && id != current
    ensures StagedWell(SwapNames(w, u, current, currentName, spec, id, replacementName, image), current)
  {
    NamesAreFresh(w, "rollback");
    var (w', rollbackName) := UniqueName(w, "rollback");
    SwapIsSafe(w', Exchange(current, rollbackName, currentName, id, replacementName, spec.image), true);
  }

  /** An exchange begins with the current container, which may be running, and a stopped one. */
  ghost predicate MayExchange(w: World, x: Exchange) {
    && Calm(w, x.current) && x.current != x.other && Known(w, x.aside) && Known(w, x.name) && Known(w, x.otherName)
    && x.current in w.engine && w.engine[x.current].kind == Appliance
    && x.other in w.engine && w.engine[x.other].kind == Appliance && !w.engine[x.other].running
  }

  ghost predicate ExchangedWell(w: World, x: Exchange, exchanged: Exchanged) {
    && Calm(w, x.current)
    && (exchanged.Underway? ==> exchanged.handoff.old_ == x.current && MayHandOver(w, exchanged.handoff))
  }

  lemma SwapIsSafe(w: World, x: Exchange, discard: bool)
    requires MayExchange(w, x)
    ensures var (w', exchanged) := Swap(w, x, discard); ExchangedWell(w', x, exchanged)
  {
    RenameKeeps(w, x.current, x.aside, x.current);
    var (w1, aside) := Rename(w, x.current, x.aside);
    if !aside {
      RemoveKeeps(w1, x.other, x.current);
    } else {
      RenameKeeps(w1, x.other, x.name, x.current);
      var (w2, named) := Rename(w1, x.other, x.name);
      if !named {
        RenameKeeps(w2, x.current, x.name, x.current);
        RemoveKeeps(Rename(w2, x.current, x.name).0, x.other, x.current);
      } else {
        StartHandoffKeeps(w2, x.current, x.aside, x.other, x.name, x.image, x.current);
        var w3 := StartHandoff(w2, x.current, x.aside, x.other, x.name, x.image).0;
        RenameKeeps(w3, x.other, x.otherName, x.current);
        RenameKeeps(Rename(w3, x.other, x.otherName).0, x.current, x.name, x.current);
      }
    }
  }

  /* ----- The hand-off ----- */

  /** At the end only the old, or only the new, appliance may be running. */
  ghost predicate HandedOver(w: World, h: Handoff) {
    SafeWorld(w) && (OnlyRuns(w.engine, h.old_) || OnlyRuns(w.engine, h.new_))
  }

  lemma HandOverIsSafe(w: World, u: UpdateState, h: Handoff)
    requires MayHandOver(w, h)
    ensures HandedOver(HandOver(w, u, h).0, h)
  {
    StopKeeps(w, h.old_, h.old_);
    var (w1, stopped) := Stop(w, h.old_);
    if stopped {
      assert Calm(w1, h.new_);
      StartKeeps(w1, h.new_, h.new_);
      var (w2, started) := Start(w1, h.new_);
      if started {
        InspectKeeps(w2, h.new_, h.new_);
      } else {
        RestoreIsSafe(w2, h);
      }
    }
  }

  lemma RestoreIsSafe(w: World, h: Handoff)
    requires Calm(w, h.old_) && Known(w, h.newName)
    ensures Calm(Restore(w, h), h.old_)
  {
    NamesAreFresh(w, "failed");
    var (w0, failedName) := UniqueName(w, "failed");
    RenameKeeps(w0, h.new_, failedName, h.old_);
    var w1 := Rename(w0, h.new_, failedName).0;
    RenameKeeps(w1, h.old_, h.newName, h.old_);
    var w2 := if h.oldName.Some? then Rename(w1, h.old_, h.newName).0 else w1;
    StartKeeps(w2, h.old_, h.old_);
  }

  lemma HandoffIsSafe(w: World, u: UpdateState, h: Handoff)
    requires MayHandOver(w, h)
    ensures HandedOver(RunHandoff(w, u, h).0, h)
  {
    HandOverIsSafe(w, u, h);
    var (w', _) := HandOver(w, u, h);
    assert SafeEngine(w'.engine - {h.helper});
  }

  ghost predicate NoFault(w: World) {
    forall i :: i >= w.calls ==> !w.fails(i)
  }

  /**
   If the container to be started is already running, the engine refuses to start it, the helper
   takes that for a failure and starts the other one: without any fault both run.
   */
  lemma HandoffToRunningContainer(w: World, u: UpdateState, h: Handoff)
    requires NoFault(w) && h.old_ != h.new_ && h.helper != h.old_ && h.helper != h.new_
    requires h.old_ in w.engine && w.engine[h.old_].kind == Appliance && !w.engine[h.old_].running
    requires h.new_ in w.engine && w.engine[h.new_].kind == Appliance && w.engine[h.new_].running
    ensures var e := RunHandoff(w, u, h).0.engine;
      h.old_ in e && h.new_ in e && e[h.old_].running && e[h.new_].running && !Exclusive(e)
  {
    var w1 := Stop(w, h.old_).0;
    var (w2, started) := Start(w1, h.new_);
    RestoreStartsOld(w2, h);
    var w3 := Restore(w2, h);
    assert !started && HandOver(w, u, h).0 == w3;
    BothRun(w3.engine - {h.helper}, h.old_, h.new_);
  }

  lemma RestoreStartsOld(w: World, h: Handoff)
    requires h.old_ in w.engine && h.new_ in w.engine && !w.engine[h.old_].running && h.old_ != h.new_
    requires NoFault(w)
    ensures var e := Restore(w, h).engine;
      && h.old_ in e && h.new_ in e && e[h.old_].running && e[h.new_].running == w.engine[h.new_].running
      && e[h.old_].kind == w.engine[h.old_].kind && e[h.new_].kind == w.engine[h.new_].kind
  {
  }

  lemma BothRun(e: Engine, i: Id, j: Id)
    requires i in e && j in e && i != j
    requires e[i].kind == e[j].kind == Appliance && e[i].running && e[j].running
    ensures !Exclusive(e)
  {
  }

  /**
   Suppose that no appliance but one of the two is running. Then the hand-off keeps them apart
   for every fault schedule exactly when the one to be started is not already running.
   */
  lemma HandoffIsSafeIff(w: World, u: UpdateState, h: Handoff)
    requires SafeWorld(w) && Known(w, h.newName)
    requires h.old_ != h.new_ && h.helper != h.old_ && h.helper != h.new_
    requires h.old_ in w.engine && w.engine[h.old_].kind == Appliance
    requires h.new_ in w.engine && w.engine[h.new_].kind == Appliance
    requires OnlyRuns(w.engine, h.old_) || OnlyRuns(w.engine, h.new_)
    ensures (forall fails: nat -> bool :: SafeWorld(RunHandoff(w.(fails := fails), u, h).0)) <==> !w.engine[h.new_].running
  {
    if w.engine[h.new_].running {
      var lucky := w.(fails := n => false);
      HandoffToRunningContainer(lucky, u, h);
      var (w', _) := RunHandoff(lucky, u, h);
      assert w'.history[|w'.history| - 1] == w'.engine;
      assert !SafeWorld(RunHandoff(w.(fails := n => false), u, h).0);
    } else {
      forall fails: nat -> bool ensures SafeWorld(RunHandoff(w.(fails := fails), u, h).0) {
        assert MayHandOver(w.(fails := fails), h);
        HandoffIsSafe(w.(fails := fails), u, h);
      }
    }
  }

  /* ----- Rolling back ----- */

  ghost predicate TargetFits(w: World, u: UpdateState, current: Id, w': World, target: Option<(Id, Name)>) {
    && Calm(w', current) && w'.clock >= w.clock
    && (forall i :: i in w.engine ==> i in w'.engine && w'.engine[i] == w.engine[i])
    && (target.Some? ==>
          && target.value.0 in w'.engine && Known(w', target.value.1)
          && if target.value.0 in w.engine then Some(w.engine[target.value.0].name) == u.rollbackContainer
             else w'.engine[target.value.0].kind == Appliance && !w'.engine[target.value.0].running)
  }

  lemma RebuiltFits(w: World, u: UpdateState, spec: Spec, current: Id)
    requires Calm(w, current)
    ensures var (w', target) := Rebuilt(w, spec); TargetFits(w, u, current, w', target)
  {
    NamesAreFresh(w, "rollback-restore");
    var (w2, tempName) := UniqueName(w, "rollback-restore");
    CreateKeeps(w2, tempName, spec, Appliance, current);
    var (w3, created) := Create(w2, tempName, spec, Appliance);
    if created.Some? {
      InspectKeeps(w3, created.value, current);
      RemoveKeeps(Inspect(w3, created.value).0, created.value, current);
    }
  }

  lemma TargetIsSafe(w: World, u: UpdateState, current: Id)
    requires Calm(w, current)
    requires u.rollbackContainer.Some? ==> Known(w, u.rollbackContainer.value)
    ensures var (w', target) := RollbackTarget(w, u); TargetFits(w, u, current, w', target)
  {
    var (w1, saved) := Saved(w, u);
    if saved == None && u.rollbackConfig.Some? {
      RebuiltFits(w1, u, u.rollbackConfig.value, current);
    }
  }

  /** The saved container, if it still exists, is an appliance other than the current one. */
  ghost predicate SavedIsOther(w: World, u: UpdateState, current: Id) {
    && (u.rollbackContainer.Some? ==> Known(w, u.rollbackContainer.value))
    && forall i :: i in w.engine && Some(w.engine[i].name) == u.rollbackContainer ==>
         i != current && w.engine[i].kind == Appliance
  }

  lemma SwapBackIsSafe(w: World, u: UpdateState, current: Id, currentName: Name, spec: Spec, target: Id, restoreName: Name)
    requires Calm(w, current) && Known(w, currentName) && Known(w, restoreName)
    requires current in w.engine && w.engine[current].kind == Appliance
    requires target in w.engine && w.engine[target].kind == Appliance && !w.engine[target].running && target != current
    ensures StagedWell(SwapBack(w, u, current, currentName, spec, target, restoreName), current)
  {
    NamesAreFresh(w, "rollback-current");
    var (w', backupName) := UniqueName(w, "rollback-current");
    SwapIsSafe(w', Exchange(current, backupName, currentName, target, restoreName, spec.image), false);
  }

  lemma RollbackIsSafe(w: World, u: UpdateState, current: Id, currentName: Name)
    requires Calm(w, current) && Known(w, currentName) && SavedIsOther(w, u, current)
    requires current in w.engine && w.engine[current].kind == Appliance
    ensures StagedWell(Rollback(w, u, current, currentName), current)
  {
    TargetIsSafe(w, u, current);
    var (w1, target) := RollbackTarget(w, u);
    if u.rollbackImage != "" && target.Some? {
      SwapBackIsSafe(w1, u, current, currentName, w.engine[current].spec, target.value.0, target.value.1);
    }
  }

  /* ----- Whole jobs ----- */

  datatype Job = Update(image: string) | RollBack

  ghost function Attempt(w: World, u: UpdateState, job: Job, current: Id, currentName: Name): Staged
    requires current in w.engine
  {
    match job
    case Update(image) => StageReplacement(w, u, current, currentName, image)
    case RollBack => Rollback(w, u, current, currentName)
  }

  /** A job with its hand-off, which is over before the next job begins. */
  ghost function RunJob(w: World, u: UpdateState, job: Job, current: Id, currentName: Name): (World, UpdateState)
    requires current in w.engine
  {
    var staged := Attempt(w, u, job, current, currentName);
    if staged.handoff == None then (staged.world, staged.state)
    else RunHandoff(staged.world, staged.state, staged.handoff.value)
  }

  /**
   For every fault schedule an update or a rollback with its hand-off never has two appliances
   running together and never lets two containers own one name, in any engine along the way.
   */
  lemma JobIsSafe(w: World, u: UpdateState, job: Job, current: Id, currentName: Name)
    requires Calm(w, current) && Known(w, currentName) && SavedIsOther(w, u, current)
    requires current in w.engine && w.engine[current].kind == Appliance
    ensures SafeWorld(RunJob(w, u, job, current, currentName).0)
    ensures exists id :: OnlyRuns(RunJob(w, u, job, current, currentName).0.engine, id)
  {
    var staged := Attempt(w, u, job, current, currentName);
    match job {
      case Update(image) => StageIsSafe(w, u, current, currentName, image);
      case RollBack => RollbackIsSafe(w, u, current, currentName);
    }
    if staged.handoff.Some? {
      HandoffIsSafe(staged.world, staged.state, staged.handoff.value);
    }
  }
}
