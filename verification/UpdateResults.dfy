/** What updates come to, image by image: one update is enough, and when a rollback restores the old image. */
module UpdateResults {
  import opened Wire
  import opened Strings
  import opened ImageRefs
  import opened DockerEngine
  import opened Updater
  import opened UpdaterSafety
  import opened UpdaterOutcomes
  import opened UpdateJobs

  /* ----- A check without faults ----- */

  /** The appliance is found under its name, runs, and no call fails. */
  ghost predicate Ready(w: World, cfg: Config, current: Id) {
    && Owns(w, current, cfg.name) && Calm(w, current) && NoFault(w)
    && w.engine[current].running && w.engine[current].kind == Appliance
    && cfg.candidates != [] && cfg.candidates[0] == ByName(cfg.name)
  }

  function Tracked(w: World, cfg: Config, current: Id): string
    requires current in w.engine
  {
    TrackedRef(cfg.imageRef, w.engine[current].spec.image)
  }

  /** The registry has the image that is tracked. */
  predicate HasSource(w: World, cfg: Config, current: Id)
    requires current in w.engine
  {
    var tracked := Tracked(w, cfg, current);
    tracked != "" && !IsLocalOnly(cfg.imageRef, w.engine[current].spec.image, tracked) && tracked in w.images.registry
  }

  lemma CurrentIsFound(w: World, cfg: Config, current: Id)
    requires Ready(w, cfg, current)
    ensures FirstFound(w, cfg.candidates) == (Done(w, w.engine), Some(current)) && Ready(Done(w, w.engine), cfg, current)
  {
    FoundByName(w.engine, current);
  }

  /** The id of the image in use is blank, or another one than that of the latest image. */
  predicate Differs(used: string, latest: string) {
    TrimSpace(used) == "" || TrimSpace(used) != TrimSpace(latest)
  }

  /** What a check learns when no call fails. */
  function AfterCheck(w: World, u: UpdateState, cfg: Config, current: Id): UpdateState
    requires current in w.engine && HasSource(w, cfg, current)
  {
    var tracked := Tracked(w, cfg, current);
    u.(currentImage := w.engine[current].spec.image, trackedImage := tracked, latestImage := tracked,
       updateAvailable := Differs(w.images.Of(current), w.images.registry[tracked]), lastError := false, checkState := CheckOk)
  }

  lemma CheckRuns(w: World, u: UpdateState, cfg: Config, current: Id)
    requires Ready(w, cfg, current) && HasSource(w, cfg, current)
    ensures var c := CheckForUpdate(w, u, cfg);
      && c.ok && c.state == AfterCheck(w, u, cfg, current)
      && Ready(c.world, cfg, current) && Alike(w, c.world)
      && c.world.images == w.images.Fetch(Tracked(w, cfg, current))
  {
    CurrentIsFound(w, cfg, current);
    CheckIsSafe(w, u, cfg);
  }

  /** Calls may have been made, but engine, clock and ids are the same. */
  predicate Alike(w: World, w': World) {
    w'.engine == w.engine && w'.clock == w.clock && w'.nextId == w.nextId
  }

  /** A job on the appliance when no call fails. */
  lemma JobRuns(w: World, u: UpdateState, job: Job, cfg: Config, current: Id)
    requires Ready(w, cfg, current)
    ensures Attempt(Done(w, w.engine), u, job, current, cfg.name).handoff.Some?
      ==> OnCurrent(w, u, job, cfg) == Attempt(Done(w, w.engine), u, job, current, cfg.name)
  {
    CurrentIsFound(w, cfg, current);
  }

  /* ----- The images that containers are created from ----- */

  lemma StageImages(w: World, u: UpdateState, current: Id, name: Name, image: string)
    requires Owns(w, current, name) && NoFault(w)
    ensures var s := StageReplacement(w, u, current, name, image);
      s.world.images == w.images.Use(w.nextId, image).Use(w.nextId + 1, w.engine[current].spec.image)
  {
    StageRuns(w, u, current, name, image);
    NamesAreFresh(w, "update");
    var (w0, replacementName) := UniqueName(w, "update");
    var (w1, created) := Create(w0, replacementName, w.engine[current].spec.(image := image), Appliance);
    var (w2, inspected) := Inspect(w1, w.nextId);
    var (w3, rollbackName) := UniqueName(w2, "rollback");
    SwapImages(w3, Exchange(current, rollbackName, name, w.nextId, replacementName, w.engine[current].spec.image), true);
  }

  lemma SwapImages(w: World, x: Exchange, discard: bool)
    requires Swap(w, x, discard).1.Underway?
    ensures Swap(w, x, discard).0.images == w.images.Use(w.nextId, x.image)
  {
  }

  lemma HandoffImages(w: World, u: UpdateState, h: Handoff)
    ensures RunHandoff(w, u, h).0.images == w.images
  {
  }

  /* ----- Applying an update ----- */

  /** A job with its hand-off. */
  ghost function Perform(w: World, u: UpdateState, request: Request, cfg: Config): (World, UpdateState) {
    var s := JobOutcome(w, u, request, cfg);
    if s.handoff == None then (s.world, s.state) else RunHandoff(s.world, s.state, s.handoff.value)
  }

  /** The tracked image is another one than the one in use. */
  predicate HasUpdate(w: World, cfg: Config, current: Id)
    requires current in w.engine
  {
    HasSource(w, cfg, current) && Differs(w.images.Of(current), w.images.registry[Tracked(w, cfg, current)])
  }

  /** Without faults there is a hand-off exactly if there is an update. */
  lemma AppliesIff(w: World, u: UpdateState, cfg: Config, current: Id)
    requires Ready(w, cfg, current) && HasSource(w, cfg, current)
    ensures var s := JobOutcome(w, u, Applying, cfg);
      && (s.handoff.Some? <==> HasUpdate(w, cfg, current))
      && (s.handoff == None ==> s.world.engine == w.engine && s.state == AfterCheck(w, u, cfg, current))
  {
    CheckRuns(w, u, cfg, current);
    var c := CheckForUpdate(w, u, cfg);
    if HasUpdate(w, cfg, current) {
      UpdateIsStaged(c.world, c.state, cfg, current, c.state.trackedImage);
    }
  }

  /**
   For image ids without surrounding space: a check finds an update, and applying stages it, exactly if
   the image that the container was created from has no id, or not the id of the one in the registry.
   */
  lemma UpdateIsFoundIff(w: World, u: UpdateState, cfg: Config, current: Id)
    requires Ready(w, cfg, current) && HasSource(w, cfg, current)
    requires TrimSpace(w.images.Of(current)) == w.images.Of(current)
    requires TrimSpace(w.images.registry[Tracked(w, cfg, current)]) == w.images.registry[Tracked(w, cfg, current)]
    ensures var used, latest := w.images.Of(current), w.images.registry[Tracked(w, cfg, current)];
      && (CheckForUpdate(w, u, cfg).state.updateAvailable <==> used == "" || used != latest)
      && (JobOutcome(w, u, Applying, cfg).handoff.Some? <==> used == "" || used != latest)
      && JobOutcome(w, u, Checking, cfg) == Staged(CheckForUpdate(w, u, cfg).world, AfterCheck(w, u, cfg, current), None)
  {
    CheckRuns(w, u, cfg, current);
    AppliesIff(w, u, cfg, current);
  }

  /* ----- Checks that find nothing ----- */

  /** What a check leaves of the state if the tracked image cannot be fetched. */
  function Unchecked(w: World, u: UpdateState, cfg: Config, current: Id): UpdateState
    requires current in w.engine
  {
    u.(currentImage := w.engine[current].spec.image, trackedImage := Tracked(w, cfg, current),
       updateAvailable := false, lastError := true, checkState := CheckFailed)
  }

  /**
   If the tracked image cannot be pulled, is not in the registry or cannot be inspected, the check fails:
   an update that was found before is forgotten, nothing is staged and no container changes.
   */
  lemma FailedCheckStagesNothing(w: World, u: UpdateState, cfg: Config, current: Id)
    requires FirstFound(w, cfg.candidates).1 == Some(current) && current in w.engine
    requires var tracked := Tracked(w, cfg, current); var w' := FirstFound(w, cfg.candidates).0;
      && tracked != "" && !IsLocalOnly(cfg.imageRef, w.engine[current].spec.image, tracked)
      && (w'.fails(w'.calls) || w'.fails(w'.calls + 1) || tracked !in w.images.registry)
    ensures var s := JobOutcome(w, u, Applying, cfg);
      && s.handoff == None && s.world.engine == w.engine && s.state == Unchecked(w, u, cfg, current)
      && JobOutcome(w, u, Checking, cfg) == s
  {
    FirstFoundIsThere(w, cfg.candidates);
    var w' := FirstFound(w, cfg.candidates).0;
    var u' := u.(currentImage := w.engine[current].spec.image, trackedImage := Tracked(w, cfg, current));
    CompareFails(w', u', cfg, w'.images.Of(current));
  }

  lemma CompareFails(w: World, u: UpdateState, cfg: Config, used: string)
    requires !IsLocalOnly(cfg.imageRef, u.currentImage, u.trackedImage)
    requires w.fails(w.calls) || w.fails(w.calls + 1) || u.trackedImage !in w.images.registry
    ensures var c := Compare(w, u, cfg, used);
      !c.ok && c.world.engine == w.engine && c.state == u.(updateAvailable := false, lastError := true, checkState := CheckFailed)
  {
  }

  /** An appliance that runs the default local image is told that it has no source of updates, and nothing is fetched. */
  lemma LocalImageHasNoSource(w: World, u: UpdateState, cfg: Config, current: Id, tag: string)
    requires Ready(w, cfg, current) && cfg.imageRef == "" && Suffix(tag)
    requires w.engine[current].spec.image == "unicron-appliance:" + tag
    ensures var s := JobOutcome(w, u, Applying, cfg);
      && s.handoff == None && s.world == Done(w, w.engine)
      && s.state == u.(currentImage := "unicron-appliance:" + tag, trackedImage := "unicron-appliance:latest", latestImage := "",
                       updateAvailable := false, lastError := true, checkState := NoSource)
      && JobOutcome(w, u, Checking, cfg) == s
  {
    CurrentIsFound(w, cfg, current);
    LocalReference(tag);
  }

  lemma LocalReference(tag: string)
    requires Suffix(tag)
    ensures var ref := "unicron-appliance:" + tag;
      LatestImageRef(ref) == "unicron-appliance:latest" && IsLocalOnly("", ref, "unicron-appliance:latest") && TrackedRef("", ref) == LatestImageRef(ref)
  {
    var name := "unicron-appliance";
    assert name[0] == 'u';
    assert forall i :: 0 <= i < |name| ==> name[i] != ':' && name[i] != '@';
    assert !IsSpace(name[0]) && !IsSpace(name[|name| - 1]);
    assert name + ":" + tag == "unicron-appliance:" + tag && (name + ":" + tag)[0] == 'u';
    LatestOfRepository(name, tag);
    LocalOnlyIff(name, tag);
    ConfiguredIsTracked("", name + ":" + tag);
  }

  lemma UpdateIsStaged(w: World, u: UpdateState, cfg: Config, current: Id, image: string)
    requires Ready(w, cfg, current)
    ensures OnCurrent(w, u, Update(image), cfg) == Attempt(Done(w, w.engine), u, Update(image), current, cfg.name)
    ensures OnCurrent(w, u, Update(image), cfg).handoff.Some?
  {
    CurrentIsFound(w, cfg, current);
    StageRuns(Done(w, w.engine), u, current, cfg.name, image);
    JobRuns(w, u, Update(image), cfg, current);
  }

  /** What the images are after an update: the tracked one was fetched, and then used. */
  function Updated(w: World, cfg: Config, current: Id): Images
    requires current in w.engine && HasSource(w, cfg, current)
  {
    var tracked := Tracked(w, cfg, current);
    w.images.Fetch(tracked).Use(w.nextId, tracked).Use(w.nextId + 1, w.engine[current].spec.image)
  }

  /** An update job on a given container: its outcome, and the images that it used. */
  lemma UpdateImages(w: World, u: UpdateState, current: Id, name: Name, image: string)
    requires Owns(w, current, name) && NoFault(w)
    ensures RunJob(w, u, Update(image), current, name).0.images
      == w.images.Use(w.nextId, image).Use(w.nextId + 1, w.engine[current].spec.image)
  {
    StageImages(w, u, current, name, image);
    StageRuns(w, u, current, name, image);
    var s := StageReplacement(w, u, current, name, image);
    HandoffImages(s.world, s.state, s.handoff.value);
  }

  /** The world in which the update is staged, after the check and the second look-up. */
  ghost function BeforeStaging(w: World, u: UpdateState, cfg: Config): World {
    var c := CheckForUpdate(w, u, cfg);
    Done(c.world, c.world.engine)
  }

  lemma ApplyingIsUpdating(w: World, u: UpdateState, cfg: Config, current: Id)
    requires Ready(w, cfg, current) && HasUpdate(w, cfg, current)
    ensures var w0 := BeforeStaging(w, u, cfg);
      && Ready(w0, cfg, current) && Alike(w, w0) && w0.images == w.images.Fetch(Tracked(w, cfg, current))
      && Perform(w, u, Applying, cfg)
         == RunJob(w0, AfterCheck(w, u, cfg, current), Update(Tracked(w, cfg, current)), current, cfg.name)
  {
    CheckRuns(w, u, cfg, current);
    var c := CheckForUpdate(w, u, cfg);
    CurrentIsFound(c.world, cfg, current);
    UpdateIsStaged(c.world, c.state, cfg, current, c.state.trackedImage);
  }

  lemma PairedIsReady(w: World, u: UpdateState, cfg: Config, active: Id, saved: Id)
    requires Paired(w, u, active, saved, cfg.name) && cfg.candidates != [] && cfg.candidates[0] == ByName(cfg.name)
    ensures Ready(w, cfg, active)
  {
  }

  /** How a container and its images are left behind by an update. */
  ghost predicate Replaced(w: World, after: (World, UpdateState), cfg: Config, current: Id, image: string) {
    var (w', u') := after;
    && current in w.engine && Paired(w', u', w.nextId, current, cfg.name) && Ready(w', cfg, w.nextId)
    && w'.engine[w.nextId].spec == w.engine[current].spec.(image := image)
    && w'.engine[current].spec == w.engine[current].spec
    && w'.images == w.images.Use(w.nextId, image).Use(w.nextId + 1, w.engine[current].spec.image)
  }

  lemma UpdateReplaces(w: World, u: UpdateState, cfg: Config, current: Id, image: string)
    requires Ready(w, cfg, current)
    ensures Replaced(w, RunJob(w, u, Update(image), current, cfg.name), cfg, current, image)
  {
    UpdateImages(w, u, current, cfg.name, image);
    UpdatePairs(w, u, current, cfg.name, image);
    var (w', u') := RunJob(w, u, Update(image), current, cfg.name);
    PairedIsReady(w', u', cfg, w.nextId, current);
  }

  lemma ReplacedAlike(w: World, w0: World, after: (World, UpdateState), cfg: Config, current: Id)
    requires Ready(w, cfg, current) && HasUpdate(w, cfg, current) && Alike(w, w0)
    requires w0.images == w.images.Fetch(Tracked(w, cfg, current))
    requires Replaced(w0, after, cfg, current, Tracked(w, cfg, current))
    ensures AppliedTo(w, after, cfg, current)
  {
  }

  /** The tracked image runs under the appliance name, and the old container is saved. */
  ghost predicate AppliedTo(w: World, after: (World, UpdateState), cfg: Config, current: Id)
    requires current in w.engine && HasSource(w, cfg, current)
  {
    var (w', u') := after;
    && Paired(w', u', w.nextId, current, cfg.name) && Ready(w', cfg, w.nextId)
    && w'.engine[w.nextId].spec == w.engine[current].spec.(image := Tracked(w, cfg, current))
    && w'.engine[current].spec == w.engine[current].spec
    && w'.images == Updated(w, cfg, current)
  }

  lemma Applied(w: World, u: UpdateState, cfg: Config, current: Id)
    requires Ready(w, cfg, current) && HasUpdate(w, cfg, current)
    ensures AppliedTo(w, Perform(w, u, Applying, cfg), cfg, current)
  {
    ApplyingIsUpdating(w, u, cfg, current);
    var w0, u0, tracked := BeforeStaging(w, u, cfg), AfterCheck(w, u, cfg, current), Tracked(w, cfg, current);
    UpdateReplaces(w0, u0, cfg, current, tracked);
    ReplacedAlike(w, w0, RunJob(w0, u0, Update(tracked), current, cfg.name), cfg, current);
  }

  /* ----- One update is enough ----- */

  /** No hand-off is under way, and the check found nothing to do and nothing wrong. */
  ghost predicate UpToDate(s: Staged) {
    s.handoff == None && !s.state.updateAvailable && !s.state.lastError && s.state.checkState == CheckOk
  }

  /**
   After an update without faults, the next check finds nothing to do, exactly if the image has an id
   and the tracked reference was configured or does not look like a digest.
   */
  lemma OneUpdateIsEnoughIff(w: World, u: UpdateState, cfg: Config, current: Id)
    requires Ready(w, cfg, current) && HasUpdate(w, cfg, current)
    ensures var (w', u') := Perform(w, u, Applying, cfg); var tracked := Tracked(w, cfg, current);
      UpToDate(JobOutcome(w', u', Applying, cfg))
      <==> TrimSpace(w.images.registry[tracked]) != "" && (TrimSpace(cfg.imageRef) == "" ==> !IsDigest(tracked))
  {
    Applied(w, u, cfg, current);
    var (w', u') := Perform(w, u, Applying, cfg);
    var tracked, new_ := Tracked(w, cfg, current), w.nextId;
    TrackedStaysIff(cfg.imageRef, w.engine[current].spec.image);
    if TrimSpace(cfg.imageRef) == "" && IsDigest(tracked) {
      CurrentIsFound(w', cfg, new_);
    } else {
      assert Tracked(w', cfg, new_) == tracked && HasSource(w', cfg, new_);
      assert w'.images.Of(new_) == w.images.registry[tracked] == w'.images.registry[tracked];
      AppliesIff(w', u', cfg, new_);
    }
  }

  /* ----- Rolling back ----- */

  /**
   A rollback restores the old container only until the next check for an update, which replaces it
   by the same image again.
   */
  lemma RollbackIsUpdatedAgain(w: World, u: UpdateState, cfg: Config, current: Id)
    requires Ready(w, cfg, current) && HasUpdate(w, cfg, current) && w.engine[current].spec.image != ""
    ensures var (w1, u1) := Perform(w, u, Applying, cfg); var (w2, u2) := Perform(w1, u1, RollingBack, cfg);
      && Ready(w2, cfg, current) && w2.engine[current].spec == w.engine[current].spec
      && HasUpdate(w2, cfg, current) && Tracked(w2, cfg, current) == Tracked(w, cfg, current)
      && AppliedTo(w2, Perform(w2, u2, Applying, cfg), cfg, current)
  {
    Applied(w, u, cfg, current);
    var (w1, u1) := Perform(w, u, Applying, cfg);
    RolledBack(w1, u1, cfg, w.nextId, current);
    var (w2, u2) := Perform(w1, u1, RollingBack, cfg);
    SameUpdate(w, w1.images, w1.nextId, w2, cfg, current);
    Applied(w2, u2, cfg, current);
  }

  lemma SameUpdate(w: World, images: Images, next: Id, w': World, cfg: Config, current: Id)
    requires current in w.engine && HasUpdate(w, cfg, current) && FreshSupply(w) && current < next
    requires images == Updated(w, cfg, current) && w'.images == images.Use(next, Tracked(w, cfg, current))
    requires current in w'.engine && w'.engine[current].spec == w.engine[current].spec
    ensures HasUpdate(w', cfg, current) && Tracked(w', cfg, current) == Tracked(w, cfg, current)
  {
  }

  /**
   In general: after a rollback, applying leaves the restored container alone exactly if its image is
   the tracked one already.
   */
  lemma RollbackLastsIff(w: World, u: UpdateState, cfg: Config, active: Id, saved: Id)
    requires Ready(w, cfg, active) && Paired(w, u, active, saved, cfg.name) && u.rollbackImage != ""
    requires HasSource(w, cfg, saved)
    ensures var (w', u') := Perform(w, u, RollingBack, cfg);
      JobOutcome(w', u', Applying, cfg).handoff == None
      <==> TrimSpace(w.images.Of(saved)) != "" && TrimSpace(w.images.Of(saved)) == TrimSpace(w.images.registry[Tracked(w, cfg, saved)])
  {
    RolledBack(w, u, cfg, active, saved);
    var (w', u') := Perform(w, u, RollingBack, cfg);
    assert saved < w.nextId && w'.images.Of(saved) == w.images.Of(saved);
    AppliesIff(w', u', cfg, saved);
  }

  /** The saved container is removed behind the updater's back. */
  function Without(w: World, id: Id): World {
    w.(engine := w.engine - {id})
  }

  /**
   If the saved container is gone after an update, a rollback rebuilds one from the saved reference.
   It has the old image again exactly if the reference stands for that image and is not the one that
   is tracked, which stands for the new image by now. An appliance that has been updated before runs
   the tracked one.
   */
  lemma RebuiltHasOldImageIff(w: World, u: UpdateState, cfg: Config, current: Id)
    requires Ready(w, cfg, current) && HasUpdate(w, cfg, current) && w.engine[current].spec.image != ""
    requires TrimSpace(w.images.Of(current)) != ""
    ensures var (w1, u1) := Perform(w, u, Applying, cfg); var (w2, u2) := Perform(Without(w1, current), u1, RollingBack, cfg);
      var ref := w.engine[current].spec.image;
      && w1.nextId in w2.engine && w2.engine[w1.nextId] == Container(cfg.name, true, w.engine[current].spec, Appliance)
      && (w2.images.Of(w1.nextId) == w.images.Of(current) <==> ref != Tracked(w, cfg, current) && w.images.Here(ref) == w.images.Of(current))
      && (ref == Tracked(w, cfg, current) ==> w2.images.Of(w1.nextId) == w1.images.Of(w.nextId))
  {
    Applied(w, u, cfg, current);
    var (w1, u1) := Perform(w, u, Applying, cfg);
    var gone := Without(w1, current);
    StillReady(w1, u1, cfg, w.nextId, current);
    RolledBackByRebuilding(gone, u1, cfg, w.nextId);
    var (w2, u2) := Perform(gone, u1, RollingBack, cfg);
    assert w2.images.Of(w1.nextId) == w1.images.Here(w.engine[current].spec.image);
  }

  lemma StillReady(w: World, u: UpdateState, cfg: Config, active: Id, saved: Id)
    requires Ready(w, cfg, active) && Paired(w, u, active, saved, cfg.name)
    ensures Ready(Without(w, saved), cfg, active) && Rebuilding(Without(w, saved), u)
    ensures u.rollbackConfig == Some(w.engine[saved].spec) && Without(w, saved).engine[active] == w.engine[active]
  {
  }

  /** What is saved is a configuration only. */
  ghost predicate Rebuilding(w: World, u: UpdateState) {
    && u.rollbackConfig.Some? && u.rollbackImage == u.rollbackConfig.value.image
    && u.rollbackContainer.Some? && Known(w, u.rollbackContainer.value) && !Taken(w.engine, u.rollbackContainer.value)
  }

  lemma RolledBackByRebuilding(w: World, u: UpdateState, cfg: Config, active: Id)
    requires Ready(w, cfg, active) && Rebuilding(w, u) && u.rollbackImage != ""
    ensures RebuiltIn(w, Perform(w, u, RollingBack, cfg).0, u.rollbackConfig.value, cfg.name, active)
  {
    CurrentIsFound(w, cfg, active);
    RebuildRuns(Done(w, w.engine), u, cfg, active);
    RollingBackIsRollback(w, u, cfg, active);
    CallsAside(w, Perform(w, u, RollingBack, cfg).0, u.rollbackConfig.value, cfg.name, active);
  }

  lemma CallsAside(w: World, w': World, spec: Spec, name: Name, active: Id)
    requires RebuiltIn(Done(w, w.engine), w', spec, name, active)
    ensures RebuiltIn(w, w', spec, name, active)
  {
  }

  ghost predicate RebuiltIn(w: World, w': World, spec: Spec, name: Name, active: Id) {
    && active in w.engine && w.nextId in w'.engine && w'.engine[w.nextId] == Container(name, true, spec, Appliance)
    && w'.images == w.images.Use(w.nextId, spec.image).Use(w.nextId + 1, w.engine[active].spec.image)
  }

  lemma RebuildRuns(w: World, u: UpdateState, cfg: Config, active: Id)
    requires Ready(w, cfg, active) && Rebuilding(w, u) && u.rollbackImage != ""
    ensures Attempt(w, u, RollBack, active, cfg.name).handoff.Some?
    ensures RebuiltIn(w, RunJob(w, u, RollBack, active, cfg.name).0, u.rollbackConfig.value, cfg.name, active)
  {
    RebuildIsStaged(w, u, active, cfg.name);
    RollbackRebuilds(w, u, active, cfg.name);
  }

  lemma RebuildIsStaged(w: World, u: UpdateState, active: Id, name: Name)
    requires Owns(w, active, name) && NoFault(w) && Rebuilding(w, u) && u.rollbackImage != ""
    ensures Attempt(w, u, RollBack, active, name).handoff.Some?
    ensures RunJob(w, u, RollBack, active, name).0.images
      == w.images.Use(w.nextId, u.rollbackConfig.value.image).Use(w.nextId + 1, w.engine[active].spec.image)
  {
    RebuiltTarget(w, u);
    RebuiltImages(w, u);
    var (w1, target) := RollbackTarget(w, u);
    SwapBackImages(w1, u, active, name, w.engine[active].spec, target.value.0, target.value.1);
  }

  lemma RebuiltImages(w: World, u: UpdateState)
    requires NoFault(w) && Rebuilding(w, u) && FreshSupply(w)
    ensures RollbackTarget(w, u).0.images == w.images.Use(w.nextId, u.rollbackConfig.value.image)
  {
    NamesAreFresh(w, "rollback-restore");
  }

  lemma SwapBackImages(w: World, u: UpdateState, active: Id, name: Name, spec: Spec, target: Id, restoreName: Name)
    requires Owns(w, active, name) && NoFault(w) && target in w.engine && target != active
    ensures var s := SwapBack(w, u, active, name, spec, target, restoreName);
      s.handoff.Some? && RunHandoff(s.world, s.state, s.handoff.value).0.images == w.images.Use(w.nextId, spec.image)
  {
    SwapBackRuns(w, u, active, name, spec, target, restoreName);
    var s := SwapBack(w, u, active, name, spec, target, restoreName);
    var (w', backupName) := UniqueName(w, "rollback-current");
    SwapImages(w', Exchange(active, backupName, name, target, restoreName, spec.image), false);
    HandoffImages(s.world, s.state, s.handoff.value);
  }

  lemma RolledBack(w: World, u: UpdateState, cfg: Config, active: Id, saved: Id)
    requires Ready(w, cfg, active) && Paired(w, u, active, saved, cfg.name) && u.rollbackImage != ""
    ensures var (w', u') := Perform(w, u, RollingBack, cfg);
      && Ready(w', cfg, saved) && w'.engine[saved].spec == w.engine[saved].spec
      && w'.images == w.images.Use(w.nextId, w.engine[active].spec.image)
  {
    var w0 := Done(w, w.engine);
    RollbackIsStaged(w0, u, active, saved, cfg.name);
    RollingBackIsRollback(w, u, cfg, active);
    RollbackSwaps(w0, u, active, saved, cfg.name);
    var (w', u') := RunJob(w0, u, RollBack, active, cfg.name);
    PairedIsReady(w', u', cfg, saved, active);
  }

  lemma RollingBackIsRollback(w: World, u: UpdateState, cfg: Config, active: Id)
    requires Ready(w, cfg, active) && u.rollbackImage != ""
    requires Attempt(Done(w, w.engine), u, RollBack, active, cfg.name).handoff.Some?
    ensures Perform(w, u, RollingBack, cfg) == RunJob(Done(w, w.engine), u, RollBack, active, cfg.name)
  {
    CurrentIsFound(w, cfg, active);
  }

  lemma RollbackIsStaged(w: World, u: UpdateState, active: Id, saved: Id, name: Name)
    requires Paired(w, u, active, saved, name) && u.rollbackImage != ""
    ensures Attempt(w, u, RollBack, active, name).handoff.Some?
    ensures RunJob(w, u, RollBack, active, name).0.images == w.images.Use(w.nextId, w.engine[active].spec.image)
  {
    RollbackStages(w, u, active, saved, name);
    SwapBackImages(Done(w, w.engine), u, active, name, w.engine[active].spec, saved, u.rollbackContainer.value);
  }
}
