/** The self-update saga: stage a replacement, hand over to a helper, roll back, and compensate on the way. */
module Updater {
  import opened Wire
  import opened DockerEngine

  datatype CheckState = Unchecked | CheckOk | CheckFailed | NoSource

  datatype UpdateState = UpdateState(
    currentImage: string,
    trackedImage: string,
    checkState: CheckState,
    latestImage: string,
    updateAvailable: bool,
    rollbackImage: string,
    rollbackContainer: Option<Name>,
    rollbackConfig: Option<Spec>,
    lastError: bool)

  /** The arguments of the hand-off helper, and the helper itself. */
  datatype Handoff = Handoff(old_: Id, oldName: Option<Name>, new_: Id, newName: Name, helper: Id)

  /** How a job ends: with a helper on its way, or with an error. */
  datatype Staged = Staged(world: World, state: UpdateState, handoff: Option<Handoff>)

  /* ----- Staging a replacement ----- */

  /** Creates and starts the helper; a helper that does not start is removed. */
  function StartHandoff(w: World, old_: Id, oldName: Name, new_: Id, newName: Name, image: string): (r: (World, Option<Handoff>))
    ensures r.0.clock > w.clock
  {
    var (w0, helperName) := UniqueName(w, "handoff");
    var (w1, helper) := Create(w0, helperName, Spec(image, ""), Helper);
    if helper == None then (w1, None)
    else
      var (w2, started) := Start(w1, helper.value);
      if started then (w2, Some(Handoff(old_, Some(oldName), new_, newName, helper.value)))
      else (Remove(w2, helper.value), None)
  }

  function StageReplacement(w: World, u: UpdateState, current: Id, currentName: Name, image: string): Staged
    requires current in w.engine
  {
    var spec := w.engine[current].spec;
    var (w0, replacementName) := UniqueName(w, "update");
    var (w1, created) := Create(w0, replacementName, spec.(image := image), Appliance);
    if created == None then Staged(w1, u, None)
    else
      var id := created.value;
      var (w2, inspected) := Inspect(w1, id);
      if !inspected then Staged(Remove(w2, id), u, None)
      else SwapNames(w2, u, current, currentName, spec, id, replacementName, image)
  }

  /**
   What staging and rolling back have in common: the current container is set aside, the other one
   takes its name, and the helper is started.
   */
  datatype Exchange = Exchange(current: Id, aside: Name, name: Name, other: Id, otherName: Name, image: string)

  datatype Exchanged = NotRenamed | NotStarted | Underway(handoff: Handoff)

  /** Whatever fails, the renames done so far are undone; a container made for the exchange may be discarded. */
  function Swap(w: World, x: Exchange, discard: bool): (r: (World, Exchanged))
    ensures r.0.clock >= w.clock
  {
    var (w1, aside) := Rename(w, x.current, x.aside);
    if !aside then (if discard then Remove(w1, x.other) else w1, NotRenamed)
    else
      var (w2, named) := Rename(w1, x.other, x.name);
      if !named then
        var w3 := Rename(w2, x.current, x.name).0;
        (if discard then Remove(w3, x.other) else w3, NotRenamed)
      else
        var (w3, handoff) := StartHandoff(w2, x.current, x.aside, x.other, x.name, x.image);
        if handoff.Some? then (w3, Underway(handoff.value))
        else (Rename(Rename(w3, x.other, x.otherName).0, x.current, x.name).0, NotStarted)
  }

  /** The replacement takes over the name; what it replaces is recorded even if the helper does not start. */
  function SwapNames(w: World, u: UpdateState, current: Id, currentName: Name, spec: Spec, id: Id, replacementName: Name, image: string): (r: Staged)
    ensures r.world.clock > w.clock
    ensures r.state.rollbackContainer == u.rollbackContainer || r.state.rollbackContainer == Some(Stamped("rollback", w.clock))
  {
    var (w', rollbackName) := UniqueName(w, "rollback");
    var (w'', exchanged) := Swap(w', Exchange(current, rollbackName, currentName, id, replacementName, spec.image), true);
    var u' := u.(latestImage := image, rollbackImage := spec.image, rollbackContainer := Some(rollbackName),
                 rollbackConfig := Some(spec), lastError := false);
    match exchanged
    case NotRenamed => Staged(w'', u, None)
    case NotStarted => Staged(w'', u', None)
    case Underway(handoff) => Staged(w'', u', Some(handoff))
  }

  /* ----- The helper ----- */

  /** The helper removes itself when it ends, whatever its outcome. */
  function RunHandoff(w: World, u: UpdateState, h: Handoff): (World, UpdateState) {
    var (w', u') := HandOver(w, u, h);
    (w'.(engine := w'.engine - {h.helper}, history := w'.history + [w'.engine - {h.helper}]), u')
  }

  function HandOver(w: World, u: UpdateState, h: Handoff): (World, UpdateState) {
    var (w1, stopped) := Stop(w, h.old_);
    if !stopped then (w1, u.(lastError := true))
    else
      var (w2, started) := Start(w1, h.new_);
      if !started then (Restore(w2, h), u.(lastError := true))
      else
        var (w3, inspected) := Inspect(w2, h.new_);
        (w3, u.(lastError := false, updateAvailable := false,
                currentImage := if inspected then w3.engine[h.new_].spec.image else u.currentImage))
  }

  /** Every step is attempted, whether or not the ones before it succeeded. */
  function Restore(w: World, h: Handoff): World {
    var (w0, failedName) := UniqueName(w, "failed");
    var w1 := Rename(w0, h.new_, failedName).0;
    var w2 := if h.oldName.Some? then Rename(w1, h.old_, h.newName).0 else w1;
    Start(w2, h.old_).0
  }

  /* ----- Rolling back ----- */

  ghost function FindByName(e: Engine, name: Name): Option<Id> {
    if id :| id in e && e[id].name == name then Some(id) else None
  }

  /** The container to roll back to: the saved one, or one rebuilt from the saved configuration. */
  ghost function RollbackTarget(w: World, u: UpdateState): (World, Option<(Id, Name)>) {
    var (w1, saved) := Saved(w, u);
    if saved.Some? then (w1, Some((saved.value, u.rollbackContainer.value)))
    else if u.rollbackConfig == None then (w1, None)
    else Rebuilt(w1, u.rollbackConfig.value)
  }

  function Rebuilt(w: World, spec: Spec): (World, Option<(Id, Name)>) {
    var (w2, tempName) := UniqueName(w, "rollback-restore");
    var (w3, created) := Create(w2, tempName, spec, Appliance);
    if created == None then (w3, None)
    else
      var (w4, inspected) := Inspect(w3, created.value);
      if inspected then (w4, Some((created.value, tempName))) else (Remove(w4, created.value), None)
  }

  /** Looks the saved container up by its name, if one is saved. */
  ghost function Saved(w: World, u: UpdateState): (r: (World, Option<Id>))
    ensures r.1.Some? ==> u.rollbackContainer.Some?
  {
    if u.rollbackContainer == None then (w, None)
    else (Done(w, w.engine), if Fault(w) then None else FindByName(w.engine, u.rollbackContainer.value))
  }

  ghost function Rollback(w: World, u: UpdateState, current: Id, currentName: Name): Staged
    requires current in w.engine
  {
    if u.rollbackImage == "" then Staged(w, u, None)
    else
      var (w1, target) := RollbackTarget(w, u);
      if target == None then Staged(w1, u, None)
      else SwapBack(w1, u, current, currentName, w.engine[current].spec, target.value.0, target.value.1)
  }

  /** The saved container takes over the name; the previous record comes back if the helper does not start. */
  function SwapBack(w: World, u: UpdateState, current: Id, currentName: Name, spec: Spec, target: Id, restoreName: Name): (r: Staged)
    ensures r.world.clock > w.clock
  {
    var (w', backupName) := UniqueName(w, "rollback-current");
    var (w'', exchanged) := Swap(w', Exchange(current, backupName, currentName, target, restoreName, spec.image), false);
    var u' := u.(rollbackImage := spec.image, rollbackContainer := Some(backupName), rollbackConfig := Some(spec));
    match exchanged
    case NotRenamed => Staged(w'', u, None)
    case NotStarted => Staged(w'', u.(lastError := true), None)
    case Underway(handoff) => Staged(w'', u', Some(handoff))
  }
}
