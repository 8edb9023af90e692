/**
 Two helpers at once. The job guard is released before the helper has run, and so a second job may
 be staged while a hand-off is pending; the calls of the two helpers then interleave.
 */
module UpdaterOverlaps {
  import opened Wire
  import opened DockerEngine
  import opened Updater
  import opened UpdaterSafety
  import opened UpdaterOutcomes
  import opened UpdaterRuns

  /* ----- A helper, one call at a time ----- */

  /** The call that the helper makes next. */
  datatype Place =
    | Stopping    // stop the old container
    | Starting    // start the new one
    | Inspecting  // inspect the new one
    | SettingAside // restore: rename the new container
    | NamingBack  // restore: rename the old one
    | Restarting  // restore: start the old one
    | Leaving     // none: the helper exits and is removed
    | Gone

  function Call(w: World, u: UpdateState, h: Handoff, at: Place): (World, UpdateState, Place) {
    match at
    case Stopping =>
      var (w', stopped) := Stop(w, h.old_);
      if stopped then (w', u, Starting) else (w', u.(lastError := true), Leaving)
    case Starting =>
      var (w', started) := Start(w, h.new_);
      (w', u, if started then Inspecting else SettingAside)
    case Inspecting =>
      var (w', inspected) := Inspect(w, h.new_);
      (w', u.(lastError := false, updateAvailable := false,
              currentImage := if inspected then w'.engine[h.new_].spec.image else u.currentImage), Leaving)
    case SettingAside =>
      var (w', failedName) := UniqueName(w, "failed");
      (Rename(w', h.new_, failedName).0, u, if h.oldName.Some? then NamingBack else Restarting)
    case NamingBack => (Rename(w, h.old_, h.newName).0, u, Restarting)
    case Restarting => (Start(w, h.old_).0, u.(lastError := true), Leaving)
    case Leaving => (w.(engine := w.engine - {h.helper}, history := w.history + [w.engine - {h.helper}]), u, Gone)
    case Gone => (w, u, Gone)
  }

  function Calls(w: World, u: UpdateState, h: Handoff, at: Place, n: nat): (World, UpdateState, Place)
    decreases n
  {
    if n == 0 then (w, u, at)
    else
      var (w', u', at') := Call(w, u, h, at);
      Calls(w', u', h, at', n - 1)
  }

  lemma CallsStep(w: World, u: UpdateState, h: Handoff, at: Place, n: nat)
    ensures var (w', u', at') := Call(w, u, h, at); Calls(w, u, h, at, n + 1) == Calls(w', u', h, at', n)
  {
  }

  lemma {:induction false} CallsAfter(w: World, u: UpdateState, h: Handoff, at: Place, n: nat)
    ensures var (w', u', at') := Calls(w, u, h, at, n); Calls(w, u, h, at, n + 1) == Call(w', u', h, at')
    decreases n
  {
    if n > 0 {
      var (w', u', at') := Call(w, u, h, at);
      CallsAfter(w', u', h, at', n - 1);
      CallsStep(w, u, h, at, n);
    }
  }

  lemma {:induction false} GoneStays(w: World, u: UpdateState, h: Handoff, n: nat)
    ensures Calls(w, u, h, Gone, n) == (w, u, Gone)
    decreases n
  {
    if n > 0 {
      GoneStays(w, u, h, n - 1);
    }
  }

  lemma LeavesThenGone(w: World, u: UpdateState, h: Handoff, n: nat)
    requires n > 0
    ensures Calls(w, u, h, Leaving, n) == Call(w, u, h, Leaving)
  {
    var (w', u', at') := Call(w, u, h, Leaving);
    GoneStays(w', u', h, n - 1);
  }

  lemma RestoreByCalls(w: World, u: UpdateState, h: Handoff)
    ensures Calls(w, u, h, SettingAside, 4) == Call(Restore(w, h), u.(lastError := true), h, Leaving)
  {
    var (w1, u1, at1) := Call(w, u, h, SettingAside);
    var (w2, u2, at2) := Call(w1, u1, h, at1);
    CallsStep(w, u, h, SettingAside, 3);
    CallsStep(w1, u1, h, at1, 2);
    if h.oldName.Some? {
      var (w3, u3, at3) := Call(w2, u2, h, at2);
      CallsStep(w2, u2, h, at2, 1);
      LeavesThenGone(w3, u3, h, 1);
    } else {
      LeavesThenGone(w2, u2, h, 2);
    }
  }

  /** A helper that is left alone does, call by call, what a hand-off does; six calls are enough. */
  lemma AloneIsHandoff(w: World, u: UpdateState, h: Handoff)
    ensures Calls(w, u, h, Stopping, 6) == (RunHandoff(w, u, h).0, RunHandoff(w, u, h).1, Gone)
  {
    var (w1, u1, at1) := Call(w, u, h, Stopping);
    CallsStep(w, u, h, Stopping, 5);
    if at1 == Leaving {
      LeavesThenGone(w1, u1, h, 5);
    } else {
      var (w2, u2, at2) := Call(w1, u1, h, at1);
      CallsStep(w1, u1, h, at1, 4);
      if at2 == Inspecting {
        var (w3, u3, at3) := Call(w2, u2, h, at2);
        CallsStep(w2, u2, h, at2, 3);
        LeavesThenGone(w3, u3, h, 3);
      } else {
        RestoreByCalls(w2, u2, h);
      }
    }
  }

  /* ----- Two helpers ----- */

  datatype Overlap = Overlap(world: World, state: UpdateState, first: Place, second: Place)

  function Turn(o: Overlap, h1: Handoff, h2: Handoff, second: bool): Overlap {
    if second then
      var (w, u, at) := Call(o.world, o.state, h2, o.second);
      Overlap(w, u, o.first, at)
    else
      var (w, u, at) := Call(o.world, o.state, h1, o.first);
      Overlap(w, u, at, o.second)
  }

  /** The schedule says whose call is next. */
  function Interleave(o: Overlap, h1: Handoff, h2: Handoff, schedule: seq<bool>): Overlap
    decreases |schedule|
  {
    if schedule == [] then o else Interleave(Turn(o, h1, h2, schedule[0]), h1, h2, schedule[1..])
  }

  /* ----- After the new container has been started ----- */

  /** What each call of a helper can rely on. */
  ghost predicate SafeAt(w: World, h: Handoff, at: Place) {
    && SafeWorld(w) && Known(w, h.newName) && h.old_ != h.new_
    && match at
       case Stopping => OnlyRuns(w.engine, h.old_)
       case Starting => NoneRuns(w.engine)
       case Inspecting => OnlyRuns(w.engine, h.new_)
       case SettingAside => OnlyRuns(w.engine, h.old_)
       case NamingBack => OnlyRuns(w.engine, h.old_)
       case Restarting => OnlyRuns(w.engine, h.old_)
       case Leaving => OnlyRuns(w.engine, h.old_) || OnlyRuns(w.engine, h.new_)
       case Gone => OnlyRuns(w.engine, h.old_) || OnlyRuns(w.engine, h.new_)
  }

  lemma CallIsSafe(w: World, u: UpdateState, h: Handoff, at: Place)
    requires SafeAt(w, h, at)
    ensures var (w', _, at') := Call(w, u, h, at); SafeAt(w', h, at')
  {
    match at
    case Stopping => StopKeeps(w, h.old_, h.old_);
    case Starting =>
      assert Calm(w, h.new_);
      StartKeeps(w, h.new_, h.new_);
    case Inspecting => InspectKeeps(w, h.new_, h.new_);
    case SettingAside =>
      NamesAreFresh(w, "failed");
      var (w', failedName) := UniqueName(w, "failed");
      RenameKeeps(w', h.new_, failedName, h.old_);
    case NamingBack => RenameKeeps(w, h.old_, h.newName, h.old_);
    case Restarting => StartKeeps(w, h.old_, h.old_);
    case Leaving => RemovalIsSafe(w, h.helper);
    case Gone =>
  }

  /** A container that disappears makes nothing less safe. */
  lemma RemovalIsSafe(w: World, id: Id)
    requires SafeWorld(w) && Exclusive(w.engine)
    ensures SafeWorld(w.(engine := w.engine - {id}, history := w.history + [w.engine - {id}]))
  {
  }

  /** Once it has started the new container, a helper changes no other container any more. */
  predicate Harmless(at: Place) {
    at == Inspecting || at == Leaving || at == Gone
  }

  lemma HarmlessCallIsSafe(w: World, u: UpdateState, h1: Handoff, at1: Place, h2: Handoff, at2: Place)
    requires Harmless(at1) && SafeAt(w, h2, at2)
    ensures var (w', _, at1') := Call(w, u, h1, at1); Harmless(at1') && SafeAt(w', h2, at2)
  {
    match at1
    case Inspecting =>
      assert w.engine == Inspect(w, h1.new_).0.engine;
    case Leaving => RemovalIsSafe(w, h1.helper);
    case Gone =>
  }

  lemma {:induction false} InterleaveIsSafe(o: Overlap, h1: Handoff, h2: Handoff, schedule: seq<bool>)
    requires Harmless(o.first) && SafeAt(o.world, h2, o.second)
    ensures var o' := Interleave(o, h1, h2, schedule); SafeWorld(o'.world) && Exclusive(o'.world.engine)
    decreases |schedule|
  {
    if schedule != [] {
      if schedule[0] {
        CallIsSafe(o.world, o.state, h2, o.second);
      } else {
        HarmlessCallIsSafe(o.world, o.state, h1, o.first, h2, o.second);
      }
      InterleaveIsSafe(Turn(o, h1, h2, schedule[0]), h1, h2, schedule[1..]);
    }
  }

  /* ----- The second job ----- */

  /** The second job takes the owner of the appliance name for the current container. */
  ghost function SecondJob(w: World, u: UpdateState, job: Job, name: Name): Staged {
    var current := FindByName(w.engine, name);
    if current == None then Staged(w, u, None) else Attempt(w, u, job, current.value, name)
  }

  /** A hand-off is pending: the new container has the name but does not run, and what it replaces is saved. */
  ghost predicate Pending(w: World, u: UpdateState, h: Handoff) {
    && DistinctNames(w.engine) && FreshSupply(w) && NoFault(w) && h.old_ != h.new_
    && h.old_ in w.engine && w.engine[h.old_].kind == Appliance
    && h.new_ in w.engine && w.engine[h.new_].kind == Appliance && !w.engine[h.new_].running
    && w.engine[h.new_].name == h.newName && u.rollbackContainer == Some(w.engine[h.old_].name)
  }

  /** What the second job leaves: both hand-offs are under way, and the first one's new container is the second one's old one. */
  ghost predicate Crossed(w: World, h1: Handoff, h2: Handoff) {
    && NoFault(w) && h2.old_ == h1.new_ != h2.new_ && h1.old_ != h1.new_
    && h1.old_ in w.engine && h1.new_ in w.engine && h2.new_ in w.engine
    && w.engine[h1.new_].kind == Appliance && !w.engine[h1.new_].running && w.engine[h2.new_].kind == Appliance
    && (h2.new_ == h1.old_ || !w.engine[h2.new_].running)
  }

  lemma SecondCrosses(w: World, u: UpdateState, h: Handoff, job: Job)
    requires Pending(w, u, h) && SecondJob(w, u, job, h.newName).handoff.Some?
    ensures var s := SecondJob(w, u, job, h.newName);
      && Crossed(s.world, h, s.handoff.value) && s.world.engine[h.old_].running == w.engine[h.old_].running
  {
    FoundByName(w.engine, h.new_);
    match job {
      case Update(image) => StageRuns(w, u, h.new_, h.newName, image);
      case RollBack =>
        FoundByName(w.engine, h.old_);
        var w1 := Done(w, w.engine);
        assert RollbackTarget(w, u) == (w1, Some((h.old_, u.rollbackContainer.value)));
        SwapBackRuns(w1, u, h.new_, h.newName, w.engine[h.new_].spec, h.old_, u.rollbackContainer.value);
    }
  }

  /** Stop, stop, start, start: both helpers succeed, and both new containers run. */
  lemma CrossedHelpersStartBoth(w: World, u: UpdateState, h1: Handoff, h2: Handoff, at: Place)
    requires Crossed(w, h1, h2)
    requires at == Stopping || (at == Starting && !w.engine[h1.old_].running)
    ensures exists schedule :: !Exclusive(Interleave(Overlap(w, u, at, Stopping), h1, h2, schedule).world.engine)
  {
    var o := Overlap(w, u, at, Stopping);
    if at == Stopping {
      var o1 := Turn(o, h1, h2, false);
      assert o1.world.engine == w.engine[h1.old_ := w.engine[h1.old_].(running := false)];
      StopStartStart(o1.world, o1.state, h1, h2);
      assert [false, true, false, true][1..] == [true, false, true];
      assert !Exclusive(Interleave(o, h1, h2, [false, true, false, true]).world.engine);
    } else {
      StopStartStart(w, u, h1, h2);
      assert !Exclusive(Interleave(o, h1, h2, [true, false, true]).world.engine);
    }
  }

  lemma StopStartStart(w: World, u: UpdateState, h1: Handoff, h2: Handoff)
    requires Crossed(w, h1, h2) && !w.engine[h1.old_].running
    ensures !Exclusive(Interleave(Overlap(w, u, Starting, Stopping), h1, h2, [true, false, true]).world.engine)
  {
    var o1 := Turn(Overlap(w, u, Starting, Stopping), h1, h2, true);
    var o2 := Turn(o1, h1, h2, false);
    var o3 := Turn(o2, h1, h2, true);
    assert [true, false, true][1..] == [false, true] && [false, true][1..] == [true] && [true][1..] == [];
    assert Interleave(o3, h1, h2, []) == o3;
    BothRun(o3.world.engine, h1.new_, h2.new_);
  }

  /* ----- The exact condition ----- */

  /** The helper's container is no appliance. */
  ghost predicate HelperApart(w: World, h: Handoff) {
    h.helper in w.engine ==> w.engine[h.helper].kind == Helper
  }

  /** How a first hand-off without faults proceeds: pending at first, and settled once the new container has been started. */
  lemma FirstTwoCalls(w: World, u: UpdateState, h: Handoff)
    requires Launched(w, u, h, h.newName) && NoFault(w)
    ensures Pending(w, u, h)
    ensures var (w', u', at') := Calls(w, u, h, Stopping, 1);
      at' == Starting && Pending(w', u', h) && !w'.engine[h.old_].running
    ensures var (w', u', at') := Calls(w, u, h, Stopping, 2);
      at' == Inspecting && Settled(w', u', h.new_, h.newName) && HelperApart(w', h)
  {
    var (w1, u1, at1) := Call(w, u, h, Stopping);
    CallsStep(w, u, h, Stopping, 0);
    CallsStep(w, u, h, Stopping, 1);
    CallsStep(w1, u1, h, at1, 0);
    StopKeeps(w, h.old_, h.old_);
    assert Calm(w1, h.new_);
    StartKeeps(w1, h.new_, h.new_);
  }

  lemma {:induction false} LaterCalls(w: World, u: UpdateState, h: Handoff, n: nat)
    requires Launched(w, u, h, h.newName) && NoFault(w) && n >= 2
    ensures var (w', u', at') := Calls(w, u, h, Stopping, n);
      Harmless(at') && Settled(w', u', h.new_, h.newName) && HelperApart(w', h)
    decreases n
  {
    FirstTwoCalls(w, u, h);
    if n > 2 {
      LaterCalls(w, u, h, n - 1);
      CallsAfter(w, u, h, Stopping, n - 1);
      var (w', u', at') := Calls(w, u, h, Stopping, n - 1);
      HarmlessKeepsSettled(w', u', h, at');
    }
  }

  lemma HarmlessKeepsSettled(w: World, u: UpdateState, h: Handoff, at: Place)
    requires Harmless(at) && Settled(w, u, h.new_, h.newName) && HelperApart(w, h)
    ensures var (w', u', at') := Call(w, u, h, at);
      Harmless(at') && Settled(w', u', h.new_, h.newName) && HelperApart(w', h)
  {
    match at
    case Inspecting => InspectKeeps(w, h.new_, h.new_);
    case Leaving => RemovalIsSafe(w, h.helper);
    case Gone =>
  }

  /** Some order of the calls that two helpers have yet to make leaves two appliances running. */
  ghost predicate CanBreak(w: World, u: UpdateState, h1: Handoff, at1: Place, h2: Handoff) {
    exists schedule :: !Exclusive(Interleave(Overlap(w, u, at1, Stopping), h1, h2, schedule).world.engine)
  }

  lemma SettledCannotBreak(w: World, u: UpdateState, h: Handoff, at: Place, job: Job)
    requires Settled(w, u, h.new_, h.newName) && Harmless(at)
    requires SecondJob(w, u, job, h.newName).handoff.Some?
    ensures var s := SecondJob(w, u, job, h.newName); !CanBreak(s.world, s.state, h, at, s.handoff.value)
  {
    FoundByName(w.engine, h.new_);
    match job {
      case Update(image) => StageIsSafe(w, u, h.new_, h.newName, image);
      case RollBack => RollbackIsSafe(w, u, h.new_, h.newName);
    }
    var s := SecondJob(w, u, job, h.newName);
    var h2 := s.handoff.value;
    forall schedule ensures Exclusive(Interleave(Overlap(s.world, s.state, at, Stopping), h, h2, schedule).world.engine) {
      InterleaveIsSafe(Overlap(s.world, s.state, at, Stopping), h, h2, schedule);
    }
  }

  /**
   Let the appliance be settled, let a first job get to its hand-off, and let a second job, whichever
   it is, be staged after n calls of the first helper and get to its own. Without any fault, some order
   of the two helpers' calls leaves two appliances running exactly if the first helper has not yet
   started the new container, which is its second call.
   */
  lemma OverlapBreaksIff(w: World, u: UpdateState, current: Id, name: Name, first: Job, second: Job, n: nat)
    requires Settled(w, u, current, name) && NoFault(w)
    requires Attempt(w, u, first, current, name).handoff.Some?
    requires var s := Attempt(w, u, first, current, name);
      var (w1, u1, _) := Calls(s.world, s.state, s.handoff.value, Stopping, n);
      SecondJob(w1, u1, second, name).handoff.Some?
    ensures var s1 := Attempt(w, u, first, current, name);
      var (w1, u1, at1) := Calls(s1.world, s1.state, s1.handoff.value, Stopping, n);
      var s2 := SecondJob(w1, u1, second, name);
      CanBreak(s2.world, s2.state, s1.handoff.value, at1, s2.handoff.value) <==> n < 2
  {
    AttemptSettlesOrLaunches(w, u, first, current, name);
    AttemptHasNoFault(w, u, first, current, name);
    var s1 := Attempt(w, u, first, current, name);
    BreaksIff(s1.world, s1.state, s1.handoff.value, second, n);
  }

  lemma AttemptHasNoFault(w: World, u: UpdateState, job: Job, current: Id, name: Name)
    requires Settled(w, u, current, name) && NoFault(w) && Attempt(w, u, job, current, name).handoff.Some?
    ensures NoFault(Attempt(w, u, job, current, name).world)
  {
    match job {
      case Update(image) => StageRuns(w, u, current, name, image);
      case RollBack =>
        var (w1, target) := RollbackTarget(w, u);
        TargetIsSafe(w, u, current);
        TargetIsFree(w, u, current);
        SwapBackRuns(w1, u, current, name, w.engine[current].spec, target.value.0, target.value.1);
        assert Rollback(w, u, current, name)
          == SwapBack(w1, u, current, name, w.engine[current].spec, target.value.0, target.value.1);
    }
  }

  lemma BreaksIff(w: World, u: UpdateState, h: Handoff, job: Job, n: nat)
    requires Launched(w, u, h, h.newName) && NoFault(w)
    requires var (w1, u1, _) := Calls(w, u, h, Stopping, n); SecondJob(w1, u1, job, h.newName).handoff.Some?
    ensures var (w1, u1, at1) := Calls(w, u, h, Stopping, n);
      var s := SecondJob(w1, u1, job, h.newName);
      CanBreak(s.world, s.state, h, at1, s.handoff.value) <==> n < 2
  {
    FirstTwoCalls(w, u, h);
    var (w1, u1, at1) := Calls(w, u, h, Stopping, n);
    if n < 2 {
      PendingBreaks(w1, u1, h, at1, job);
    } else {
      LaterCalls(w, u, h, n);
      SettledCannotBreak(w1, u1, h, at1, job);
    }
  }

  lemma PendingBreaks(w: World, u: UpdateState, h: Handoff, at: Place, job: Job)
    requires Pending(w, u, h) && SecondJob(w, u, job, h.newName).handoff.Some?
    requires at == Stopping || (at == Starting && !w.engine[h.old_].running)
    ensures var s := SecondJob(w, u, job, h.newName); CanBreak(s.world, s.state, h, at, s.handoff.value)
  {
    SecondCrosses(w, u, h, job);
    var s := SecondJob(w, u, job, h.newName);
    CrossedHelpersStartBoth(s.world, s.state, h, s.handoff.value, at);
  }
}
