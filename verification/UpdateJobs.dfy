/** The jobs of the updater, from the check for an update to the helper's start, and what they amount to. */
module UpdateJobs {
  import opened Wire
  import opened ImageRefs
  import opened DockerEngine
  import opened Updater
  import opened UpdaterSafety

  /** Containers are asked for by name or by id. */
  datatype Ref = ByName(name: Name) | ById(id: Id)

  ghost function Resolve(e: Engine, ref: Ref): Option<Id> {
    match ref
    case ByName(name) => FindByName(e, name)
    case ById(id) => if id in e then Some(id) else None
  }

  /** The first candidate that can be inspected. */
  ghost function FirstFound(w: World, refs: seq<Ref>): (World, Option<Id>)
    decreases |refs|
  {
    if refs == [] then (w, None)
    else
      var found := if Fault(w) then None else Resolve(w.engine, refs[0]);
      if found.Some? then (Done(w, w.engine), found) else FirstFound(Done(w, w.engine), refs[1..])
  }

  lemma {:induction false} FirstFoundIsThere(w: World, refs: seq<Ref>)
    ensures var (w', found) := FirstFound(w, refs);
      && w'.engine == w.engine && w'.clock == w.clock && w'.nextId == w.nextId && w'.images == w.images
      && (found.Some? ==> found.value in w.engine && exists ref :: ref in refs && Resolve(w.engine, ref) == found)
      && (SafeWorld(w) && SafeEngine(w.engine) ==> SafeWorld(w'))
    decreases |refs|
  {
    if refs != [] {
      var found := if Fault(w) then None else Resolve(w.engine, refs[0]);
      if found == None {
        FirstFoundIsThere(Done(w, w.engine), refs[1..]);
      } else {
        assert refs[0] in refs;
      }
    }
  }

  /** A reference is resolved to the container that has that id, or that goes by that name. */
  lemma ResolveIff(e: Engine, ref: Ref, id: Id)
    requires DistinctNames(e)
    ensures Resolve(e, ref) == Some(id) <==> id in e && match ref case ByName(name) => e[id].name == name case ById(i) => i == id
  {
  }

  /** Candidate k answers: its call does not fail, and it exists. */
  ghost predicate Answers(w: World, refs: seq<Ref>, k: nat) {
    k < |refs| && !w.fails(w.calls + k) && Resolve(w.engine, refs[k]).Some?
  }

  /** The candidates are asked in turn, one call each, until one answers. */
  lemma {:induction false} FirstFoundAnswers(w: World, refs: seq<Ref>, k: nat)
    requires k <= |refs| && (k < |refs| ==> Answers(w, refs, k)) && forall j :: 0 <= j < k ==> !Answers(w, refs, j)
    ensures FirstFound(w, refs).1 == if k < |refs| then Resolve(w.engine, refs[k]) else None
    ensures FirstFound(w, refs).0.calls == w.calls + if k < |refs| then k + 1 else k
    decreases |refs|
  {
    if k > 0 {
      assert !Answers(w, refs, 0);
      var w' := Done(w, w.engine);
      assert forall j :: 0 <= j < |refs| - 1 ==> (Answers(w', refs[1..], j) <==> Answers(w, refs, j + 1));
      FirstFoundAnswers(w', refs[1..], k - 1);
    }
  }

  /* ----- The check for an update ----- */

  /** Where the appliance is looked for, the name that it goes by, and the configured image reference. */
  datatype Config = Config(candidates: seq<Ref>, name: Name, imageRef: string)

  /** A check without an error may still find that there is no source of updates, or no update. */
  datatype Checked = Checked(world: World, state: UpdateState, ok: bool)

  ghost function CheckForUpdate(w: World, u: UpdateState, cfg: Config): Checked {
    var (w', current) := FirstFound(w, cfg.candidates);
    if current == None || current.value !in w'.engine then Checked(w', u, false)
    else
      var image := w'.engine[current.value].spec.image;
      var tracked := TrackedRef(cfg.imageRef, image);
      if tracked == "" then Checked(w', u, false)
      else Compare(w', u.(currentImage := image, trackedImage := tracked), cfg, w'.images.Of(current.value))
  }

  /** Fetches what is tracked and compares it with the image that is in use. */
  function Compare(w: World, u: UpdateState, cfg: Config, used: string): Checked {
    if IsLocalOnly(cfg.imageRef, u.currentImage, u.trackedImage) then
      Checked(w, u.(latestImage := "", updateAvailable := false, lastError := true, checkState := NoSource), true)
    else
      var (w1, pulled) := Pull(w, u.trackedImage);
      if !pulled then Checked(w1, NotCompared(u), false)
      else
        var (w2, latest) := InspectImage(w1, u.trackedImage);
        if latest == None then Checked(w2, NotCompared(u), false)
        else
          Checked(w2, u.(latestImage := u.trackedImage, updateAvailable := !SameImage(used, latest.value),
                         lastError := false, checkState := CheckOk), true)
  }

  function NotCompared(u: UpdateState): UpdateState {
    u.(updateAvailable := false, lastError := true, checkState := CheckFailed)
  }

  /* ----- The jobs ----- */

  datatype Request = Checking | Applying | RollingBack

  /** What a job does before the helper runs; an error is recorded in the state. */
  ghost function JobOutcome(w: World, u: UpdateState, request: Request, cfg: Config): Staged {
    match request
    case Checking =>
      var checked := CheckForUpdate(w, u, cfg);
      Staged(checked.world, if checked.ok then checked.state else Failed(checked.state), None)
    case Applying =>
      var checked := CheckForUpdate(w, u, cfg);
      if !checked.ok then Staged(checked.world, Failed(checked.state), None)
      else if !checked.state.updateAvailable then Staged(checked.world, checked.state, None)
      else OnCurrent(checked.world, checked.state, Update(checked.state.trackedImage), cfg)
    case RollingBack =>
      if u.rollbackImage == "" then Staged(w, Failed(u), None) else OnCurrent(w, u, RollBack, cfg)
  }

  function Failed(u: UpdateState): UpdateState {
    u.(lastError := true, checkState := CheckFailed)
  }

  /** The current container is looked up, once more after a check, and the job is done on it. */
  ghost function OnCurrent(w: World, u: UpdateState, job: Job, cfg: Config): Staged {
    var (w', current) := FirstFound(w, cfg.candidates);
    if current == None || current.value !in w'.engine then Staged(w', Failed(u), None)
    else
      var staged := Attempt(w', u, job, current.value, cfg.name);
      if staged.handoff == None then staged.(state := Failed(staged.state)) else staged
  }

  /* ----- What a job records ----- */

  /** A rollback with nothing to roll back to, and a job that finds no container, change the recorded error only. */
  lemma RefusedJob(w: World, u: UpdateState, request: Request, cfg: Config)
    requires (request == RollingBack && u.rollbackImage == "") || FirstFound(w, cfg.candidates).1 == None
    ensures var s := JobOutcome(w, u, request, cfg);
      && s.handoff == None && s.world.engine == w.engine && s.state == u.(lastError := true, checkState := CheckFailed)
      && (request == RollingBack && u.rollbackImage == "" ==> s.world == w)
  {
    FirstFoundIsThere(w, cfg.candidates);
  }

  /**
   Whatever becomes of a job is on record: it has got to the hand-off, or failed with an error, or was a
   check that came to an end, in which case there may be no source, no update, or one that was not asked for.
   */
  lemma JobIsRecorded(w: World, u: UpdateState, request: Request, cfg: Config)
    ensures var s := JobOutcome(w, u, request, cfg);
      || (s.handoff.Some? && request != Checking)
      || (s.handoff == None && s.state.lastError && s.state.checkState == CheckFailed)
      || (s.handoff == None && s.state.lastError && s.state.checkState == NoSource && request != RollingBack && !s.state.updateAvailable)
      || (s.handoff == None && !s.state.lastError && s.state.checkState == CheckOk && request != RollingBack
          && (request == Applying ==> !s.state.updateAvailable))
  {
    CheckEnds(w, u, cfg);
  }

  lemma CheckEnds(w: World, u: UpdateState, cfg: Config)
    ensures var c := CheckForUpdate(w, u, cfg);
      c.ok ==> if c.state.checkState == NoSource then c.state.lastError && !c.state.updateAvailable
               else c.state.checkState == CheckOk && !c.state.lastError
  {
  }

  /* ----- No job starts a second appliance ----- */

  predicate SameRollback(u: UpdateState, u': UpdateState) {
    && u'.rollbackImage == u.rollbackImage && u'.rollbackContainer == u.rollbackContainer && u'.rollbackConfig == u.rollbackConfig
  }

  lemma CheckIsSafe(w: World, u: UpdateState, cfg: Config)
    ensures var c := CheckForUpdate(w, u, cfg);
      && c.world.engine == w.engine && c.world.clock == w.clock && c.world.nextId == w.nextId
      && (SafeWorld(w) && SafeEngine(w.engine) ==> SafeWorld(c.world)) && SameRollback(u, c.state)
  {
    FirstFoundIsThere(w, cfg.candidates);
    var (w', current) := FirstFound(w, cfg.candidates);
    if current.Some? {
      var image := w'.engine[current.value].spec.image;
      CompareIsSafe(w', u.(currentImage := image, trackedImage := TrackedRef(cfg.imageRef, image)), cfg, w'.images.Of(current.value));
    }
  }

  lemma CompareIsSafe(w: World, u: UpdateState, cfg: Config, used: string)
    ensures var c := Compare(w, u, cfg, used);
      && c.world.engine == w.engine && c.world.clock == w.clock && c.world.nextId == w.nextId
      && (SafeWorld(w) && SafeEngine(w.engine) ==> SafeWorld(c.world)) && SameRollback(u, c.state)
  {
  }

  /** Every candidate is the one appliance that may run. */
  ghost predicate Candidates(e: Engine, refs: seq<Ref>, current: Id) {
    forall ref :: ref in refs ==> Resolve(e, ref) == None || Resolve(e, ref) == Some(current)
  }

  lemma OnCurrentIsSafe(w: World, u: UpdateState, job: Job, cfg: Config, current: Id)
    requires Calm(w, current) && Known(w, cfg.name) && SavedIsOther(w, u, current)
    requires current in w.engine && w.engine[current].kind == Appliance && Candidates(w.engine, cfg.candidates, current)
    ensures StagedWell(OnCurrent(w, u, job, cfg), current)
  {
    FirstFoundIsThere(w, cfg.candidates);
    var (w', found) := FirstFound(w, cfg.candidates);
    if found.Some? {
      match job {
        case Update(image) => StageIsSafe(w', u, current, cfg.name, image);
        case RollBack => RollbackIsSafe(w', u, current, cfg.name);
      }
    }
  }

  /** If every candidate is the one appliance that may run, no job starts a second one. */
  lemma ServiceIsSafe(w: World, u: UpdateState, request: Request, cfg: Config, current: Id)
    requires Calm(w, current) && Known(w, cfg.name) && SavedIsOther(w, u, current)
    requires current in w.engine && w.engine[current].kind == Appliance && Candidates(w.engine, cfg.candidates, current)
    ensures var s := JobOutcome(w, u, request, cfg);
      && Calm(s.world, current)
      && (s.handoff.Some? ==> HandedOver(RunHandoff(s.world, s.state, s.handoff.value).0, s.handoff.value))
  {
    CheckIsSafe(w, u, cfg);
    var c := CheckForUpdate(w, u, cfg);
    match request {
      case Checking =>
      case Applying => OnCurrentIsSafe(c.world, c.state, Update(c.state.trackedImage), cfg, current);
      case RollingBack => OnCurrentIsSafe(w, u, RollBack, cfg, current);
    }
    var s := JobOutcome(w, u, request, cfg);
    if s.handoff.Some? {
      HandoffIsSafe(s.world, s.state, s.handoff.value);
    }
  }
}
