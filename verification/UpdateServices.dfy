/** The updater and its hand-off helper as the objects they are, proved against the saga's functions. */
module UpdateServices {
  import opened Wire
  import opened DockerEngine
  import opened Updater
  import opened UpdaterSafety
  import opened ImageRefs
  import opened UpdateJobs

  /** The client of the engine's socket. */
  class DockerClient {
    var world: World

    constructor (w: World)
      ensures world == w
    {
      world := w;
    }

    method UniqueContainerName(prefix: string) returns (name: Name)
      modifies this
      ensures (world, name) == UniqueName(old(world), prefix)
    {
      var made := UniqueName(world, prefix);
      world, name := made.0, made.1;
    }

    method CreateContainer(name: Name, spec: Spec, kind: Kind) returns (id: Option<Id>)
      modifies this
      ensures (world, id) == Create(old(world), name, spec, kind)
    {
      var answer := Create(world, name, spec, kind);
      world, id := answer.0, answer.1;
    }

    /** Names are unique, so that it does not matter which container of the name is found. */
    method InspectContainer(ref: Ref) returns (id: Option<Id>)
      requires DistinctNames(world.engine)
      modifies this
      ensures world == Done(old(world), old(world).engine)
      ensures id == if Fault(old(world)) then None else Resolve(old(world).engine, ref)
    {
      id := None;
      if !Fault(world) {
        match ref {
          case ById(i) => if i in world.engine { id := Some(i); }
          case ByName(name) => if i :| i in world.engine && world.engine[i].name == name { id := Some(i); }
        }
      }
      world := Done(world, world.engine);
    }

    method InspectById(id: Id) returns (found: bool)
      modifies this
      ensures (world, found) == Inspect(old(world), id)
    {
      var answer := Inspect(world, id);
      world, found := answer.0, answer.1;
    }

    method RenameContainer(id: Id, name: Name) returns (ok: bool)
      modifies this
      ensures (world, ok) == Rename(old(world), id, name)
    {
      var answer := Rename(world, id, name);
      world, ok := answer.0, answer.1;
    }

    method StartContainer(id: Id) returns (ok: bool)
      modifies this
      ensures (world, ok) == Start(old(world), id)
    {
      var answer := Start(world, id);
      world, ok := answer.0, answer.1;
    }

    method StopContainer(id: Id) returns (ok: bool)
      modifies this
      ensures (world, ok) == Stop(old(world), id)
    {
      var answer := Stop(world, id);
      world, ok := answer.0, answer.1;
    }

    method PullImage(ref: string) returns (ok: bool)
      modifies this
      ensures (world, ok) == Pull(old(world), ref)
    {
      var answer := Pull(world, ref);
      world, ok := answer.0, answer.1;
    }

    method InspectImage(ref: string) returns (imageId: Option<string>)
      modifies this
      ensures (world, imageId) == DockerEngine.InspectImage(old(world), ref)
    {
      var answer := DockerEngine.InspectImage(world, ref);
      world, imageId := answer.0, answer.1;
    }

    method RemoveContainer(id: Id)
      modifies this
      ensures world == Remove(old(world), id)
    {
      world := Remove(world, id);
    }
  }

  class UpdateService {
    const docker: DockerClient
    const cfg: Config
    var state: UpdateState
    var jobActive: bool

    constructor (client: DockerClient, config: Config, loaded: UpdateState)
      ensures docker == client && cfg == config && state == loaded && !jobActive
    {
      docker, cfg, state, jobActive := client, config, loaded, false;
    }

    method BeginJob() returns (ok: bool)
      modifies this`jobActive
      ensures ok == !old(jobActive) && jobActive
    {
      ok := !jobActive;
      jobActive := true;
    }

    method EndJob()
      modifies this`jobActive
      ensures !jobActive
    {
      jobActive := false;
    }

    /** Tries the configured name and the host names in turn. */
    method CurrentContainer() returns (current: Option<Id>)
      requires DistinctNames(docker.world.engine)
      modifies docker
      ensures (docker.world, current) == FirstFound(old(docker.world), cfg.candidates)
    {
      var i := 0;
      assert cfg.candidates[0..] == cfg.candidates;
      while i < |cfg.candidates|
        invariant 0 <= i <= |cfg.candidates| && DistinctNames(docker.world.engine)
        invariant FirstFound(docker.world, cfg.candidates[i..]) == FirstFound(old(docker.world), cfg.candidates)
      {
        assert cfg.candidates[i..][0] == cfg.candidates[i] && cfg.candidates[i..][1..] == cfg.candidates[i + 1..];
        current := docker.InspectContainer(cfg.candidates[i]);
        if current.Some? {
          return;
        }
        i := i + 1;
      }
      current := None;
    }

    method StartHelper(old_: Id, oldName: Name, new_: Id, image: string) returns (handoff: Option<Handoff>)
      modifies docker
      ensures (docker.world, handoff) == StartHandoff(old(docker.world), old_, oldName, new_, cfg.name, image)
    {
      var helperName := docker.UniqueContainerName("handoff");
      var helper := docker.CreateContainer(helperName, Spec(image, ""), Helper);
      if helper == None {
        return None;
      }
      var started := docker.StartContainer(helper.value);
      if !started {
        docker.RemoveContainer(helper.value);
        return None;
      }
      return Some(Handoff(old_, Some(oldName), new_, cfg.name, helper.value));
    }

    method Stage(current: Id, image: string) returns (handoff: Option<Handoff>)
      requires current in docker.world.engine
      modifies this`state, docker
      ensures Staged(docker.world, state, handoff) == StageReplacement(old(docker.world), old(state), current, cfg.name, image)
    {
      var spec := docker.world.engine[current].spec;
      var replacementName := docker.UniqueContainerName("update");
      var created := docker.CreateContainer(replacementName, spec.(image := image), Appliance);
      if created == None {
        return None;
      }
      var inspected := docker.InspectById(created.value);
      if !inspected {
        docker.RemoveContainer(created.value);
        return None;
      }
      handoff := SwapWithReplacement(current, spec, created.value, replacementName, image);
    }

    method SwapWithReplacement(current: Id, spec: Spec, id: Id, replacementName: Name, image: string) returns (handoff: Option<Handoff>)
      modifies this`state, docker
      ensures Staged(docker.world, state, handoff)
        == SwapNames(old(docker.world), old(state), current, cfg.name, spec, id, replacementName, image)
    {
      var rollbackName := docker.UniqueContainerName("rollback");
      var aside := docker.RenameContainer(current, rollbackName);
      if !aside {
        docker.RemoveContainer(id);
        return None;
      }
      var named := docker.RenameContainer(id, cfg.name);
      if !named {
        var _ := docker.RenameContainer(current, cfg.name);
        docker.RemoveContainer(id);
        return None;
      }
      state := state.(latestImage := image, rollbackImage := spec.image, rollbackContainer := Some(rollbackName),
                      rollbackConfig := Some(spec), lastError := false);
      handoff := StartHelper(current, rollbackName, id, spec.image);
      if handoff == None {
        var _ := docker.RenameContainer(id, replacementName);
        var _ := docker.RenameContainer(current, cfg.name);
      }
    }

    method FindRollbackTarget() returns (target: Option<(Id, Name)>)
      requires DistinctNames(docker.world.engine)
      modifies docker
      ensures (docker.world, target) == RollbackTarget(old(docker.world), state)
    {
      if state.rollbackContainer.Some? {
        var saved := docker.InspectContainer(ByName(state.rollbackContainer.value));
        if saved.Some? {
          return Some((saved.value, state.rollbackContainer.value));
        }
      }
      if state.rollbackConfig == None {
        return None;
      }
      target := RebuildFromConfig(state.rollbackConfig.value);
    }

    method RebuildFromConfig(spec: Spec) returns (target: Option<(Id, Name)>)
      modifies docker
      ensures (docker.world, target) == Rebuilt(old(docker.world), spec)
    {
      var tempName := docker.UniqueContainerName("rollback-restore");
      var created := docker.CreateContainer(tempName, spec, Appliance);
      if created == None {
        return None;
      }
      var inspected := docker.InspectById(created.value);
      if !inspected {
        docker.RemoveContainer(created.value);
        return None;
      }
      return Some((created.value, tempName));
    }

    method RollBackTo(current: Id) returns (handoff: Option<Handoff>)
      requires current in docker.world.engine && DistinctNames(docker.world.engine)
      modifies this`state, docker
      ensures Staged(docker.world, state, handoff) == Rollback(old(docker.world), old(state), current, cfg.name)
    {
      if state.rollbackImage == "" {
        return None;
      }
      var spec := docker.world.engine[current].spec;
      var target := FindRollbackTarget();
      if target == None {
        return None;
      }
      handoff := SwapWithSaved(current, spec, target.value.0, target.value.1);
    }

    method SwapWithSaved(current: Id, spec: Spec, target: Id, restoreName: Name) returns (handoff: Option<Handoff>)
      modifies this`state, docker
      ensures Staged(docker.world, state, handoff)
        == SwapBack(old(docker.world), old(state), current, cfg.name, spec, target, restoreName)
    {
      var backupName := docker.UniqueContainerName("rollback-current");
      var aside := docker.RenameContainer(current, backupName);
      if !aside {
        return None;
      }
      var named := docker.RenameContainer(target, cfg.name);
      if !named {
        var _ := docker.RenameContainer(current, cfg.name);
        return None;
      }
      var previousState := state;
      state := state.(rollbackImage := spec.image, rollbackContainer := Some(backupName), rollbackConfig := Some(spec));
      handoff := StartHelper(current, backupName, target, spec.image);
      if handoff == None {
        var _ := docker.RenameContainer(target, restoreName);
        var _ := docker.RenameContainer(current, cfg.name);
        state := previousState.(lastError := true);
      }
    }

    /** Fetches the tracked image and compares it with the one in use. */
    method CheckForUpdate() returns (ok: bool)
      requires DistinctNames(docker.world.engine)
      modifies this`state, docker
      ensures Checked(docker.world, state, ok) == UpdateJobs.CheckForUpdate(old(docker.world), old(state), cfg)
    {
      FirstFoundIsThere(docker.world, cfg.candidates);
      var current := CurrentContainer();
      if current == None {
        return false;
      }
      var currentRef := docker.world.engine[current.value].spec.image;
      var trackedRef := TrackedRef(cfg.imageRef, currentRef);
      if trackedRef == "" {
        return false;
      }
      state := state.(currentImage := currentRef, trackedImage := trackedRef);
      ok := CompareImages(docker.world.images.Of(current.value));
    }

    method CompareImages(used: string) returns (ok: bool)
      modifies this`state, docker
      ensures Checked(docker.world, state, ok) == Compare(old(docker.world), old(state), cfg, used)
    {
      var trackedRef := state.trackedImage;
      if IsLocalOnly(cfg.imageRef, state.currentImage, trackedRef) {
        state := state.(latestImage := "", updateAvailable := false, lastError := true, checkState := NoSource);
        return true;
      }
      var pulled := docker.PullImage(trackedRef);
      if !pulled {
        RecordCheckFailure();
        return false;
      }
      var latest := docker.InspectImage(trackedRef);
      if latest == None {
        RecordCheckFailure();
        return false;
      }
      state := state.(latestImage := trackedRef, updateAvailable := !SameImage(used, latest.value),
                      lastError := false, checkState := CheckOk);
      return true;
    }

    method RecordCheckFailure()
      modifies this`state
      ensures state == NotCompared(old(state))
    {
      state := state.(updateAvailable := false, lastError := true, checkState := CheckFailed);
    }

    /** Stages the tracked image if the check finds that it is another one. */
    method ApplyLatest() returns (handoff: Option<Handoff>, ok: bool)
      requires DistinctNames(docker.world.engine)
      modifies this`state, docker
      ensures var checked := UpdateJobs.CheckForUpdate(old(docker.world), old(state), cfg);
        if checked.ok && checked.state.updateAvailable then
          && (ok <==> handoff.Some?)
          && Staged(docker.world, if ok then state else Failed(state), handoff)
             == OnCurrent(checked.world, checked.state, Update(checked.state.trackedImage), cfg)
        else handoff == None && Checked(docker.world, state, ok) == checked
    {
      CheckIsSafe(docker.world, state, cfg);
      ok := CheckForUpdate();
      handoff := None;
      if ok && state.updateAvailable {
        handoff := StageOrRollBack(Update(state.trackedImage));
        ok := handoff.Some?;
      }
    }

    /** The current container is looked up anew. */
    method StageOrRollBack(job: Job) returns (handoff: Option<Handoff>)
      requires DistinctNames(docker.world.engine)
      modifies this`state, docker
      ensures Staged(docker.world, if handoff == None then Failed(state) else state, handoff)
        == OnCurrent(old(docker.world), old(state), job, cfg)
    {
      FirstFoundIsThere(docker.world, cfg.candidates);
      var current := CurrentContainer();
      if current == None {
        return None;
      }
      match job {
        case Update(image) => handoff := Stage(current.value, image);
        case RollBack => handoff := RollBackTo(current.value);
      }
    }

    method RecordError()
      modifies this`state
      ensures state == Failed(old(state))
    {
      state := state.(lastError := true, checkState := CheckFailed);
    }

    /** One job at a time; the guard does not cover the helper, which is still running when the job ends. */
    method RunJob(request: Request) returns (handoff: Option<Handoff>)
      requires DistinctNames(docker.world.engine)
      modifies this, docker
      ensures jobActive == old(jobActive)
      ensures old(jobActive) ==> handoff == None && docker.world == old(docker.world) && state == old(state)
      ensures !old(jobActive) ==>
        Staged(docker.world, state, handoff) == JobOutcome(old(docker.world), old(state), request, cfg)
    {
      var mine := BeginJob();
      if !mine {
        return None;
      }
      var ok;
      handoff := None;
      match request {
        case Checking => ok := CheckForUpdate();
        case Applying => handoff, ok := ApplyLatest();
        case RollingBack =>
          if state.rollbackImage != "" {
            handoff := StageOrRollBack(RollBack);
          }
          ok := handoff.Some?;
      }
      if !ok {
        RecordError();
      }
      EndJob();
    }
  }

  /** The state file, through which the helper and the updater that loads it next communicate. */
  class StateFile {
    var state: UpdateState

    constructor (u: UpdateState)
      ensures state == u
    {
      state := u;
    }
  }

  method RestoreAfterFailedHandoff(docker: DockerClient, h: Handoff)
    modifies docker
    ensures docker.world == Restore(old(docker.world), h)
  {
    var failedName := docker.UniqueContainerName("failed");
    var _ := docker.RenameContainer(h.new_, failedName);
    if h.oldName.Some? {
      var _ := docker.RenameContainer(h.old_, h.newName);
    }
    var _ := docker.StartContainer(h.old_);
  }

  method RunUpdateHandoff(docker: DockerClient, file: StateFile, h: Handoff)
    modifies docker, file
    ensures (docker.world, file.state) == HandOver(old(docker.world), old(file.state), h)
  {
    var stopped := docker.StopContainer(h.old_);
    if !stopped {
      file.state := file.state.(lastError := true);
      return;
    }
    var started := docker.StartContainer(h.new_);
    if !started {
      RestoreAfterFailedHandoff(docker, h);
      file.state := file.state.(lastError := true);
      return;
    }
    var inspected := docker.InspectById(h.new_);
    file.state := file.state.(lastError := false, updateAvailable := false,
                              currentImage := if inspected then docker.world.engine[h.new_].spec.image else file.state.currentImage);
  }
}
