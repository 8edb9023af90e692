/** Where updates, rollbacks and hand-offs leave the engine: compensation, single faults, involution. */
module UpdaterOutcomes {
  import opened Wire
  import opened DockerEngine
  import opened Updater
  import opened UpdaterSafety

  /** At most one of the calls still to come fails. */
  ghost predicate SingleFault(w: World) {
    forall i, j :: i >= w.calls && j >= w.calls && w.fails(i) && w.fails(j) ==> i == j
  }

  ghost predicate Owns(w: World, current: Id, currentName: Name) {
    && DistinctNames(w.engine) && FreshSupply(w) && Known(w, currentName)
    && current in w.engine && w.engine[current].name == currentName
  }

  /* ----- The helper's start ----- */

  lemma HelperStarts(w: World, old_: Id, oldName: Name, new_: Id, newName: Name, image: string)
    requires FreshSupply(w)
    requires NoFault(w) || StartHandoff(w, old_, oldName, new_, newName, image).1.Some?
    ensures var (w', h) := StartHandoff(w, old_, oldName, new_, newName, image);
      && h == Some(Handoff(old_, Some(oldName), new_, newName, w.nextId))
      && w'.engine == w.engine[w.nextId := Container(Stamped("handoff", w.clock), true, Spec(image, ""), Helper)]
      && w'.calls == w.calls + 2 && w'.fails == w.fails && w'.nextId == w.nextId + 1 && w'.clock == w.clock + 1
  {
  }

  /** With a single fault the helper either starts or leaves no trace. */
  lemma HelperLeavesNoTrace(w: World, old_: Id, oldName: Name, new_: Id, newName: Name, image: string)
    requires FreshSupply(w) && SingleFault(w)
    ensures var (w', h) := StartHandoff(w, old_, oldName, new_, newName, image);
      h == None ==> w'.engine == w.engine && NoFault(w') && w'.fails == w.fails
  {
  }

  /* ----- Staging: compensation ----- */

  function Leftover(w: World, spec: Spec, image: string): Engine {
    w.engine[w.nextId := Container(Stamped("update", w.clock), false, spec.(image := image), Appliance)]
  }

  function Recorded(w: World, u: UpdateState, spec: Spec, image: string): UpdateState {
    u.(latestImage := image, rollbackImage := spec.image, rollbackContainer := Some(Stamped("rollback", w.clock + 1)),
       rollbackConfig := Some(spec), lastError := false)
  }

  /** One of the calls from the m-th to the n-th yet to come, exclusively, fails. */
  ghost predicate Fails(w: World, m: nat, n: nat) {
    exists c :: w.calls + m <= c < w.calls + n && w.fails(c)
  }

  /**
   Staging gets to the hand-off exactly if none of its six calls fails. If a single one fails, the
   engine and the state are as they were exactly if it was not one of the last two, with which the
   helper is created and started. Otherwise the replacement is left behind under its first name,
   stopped, and the state already names a rollback container that no longer exists.
   */
  lemma StageCompensates(w: World, u: UpdateState, current: Id, currentName: Name, image: string)
    requires Owns(w, current, currentName) && SingleFault(w)
    ensures StageOutcome(w, u, w.engine[current].spec, image, StageReplacement(w, u, current, currentName, image))
  {
    var spec := w.engine[current].spec;
    NamesAreFresh(w, "update");
    var (w0, replacementName) := UniqueName(w, "update");
    var (w1, created) := Create(w0, replacementName, spec.(image := image), Appliance);
    assert created == None <==> w.fails(w.calls);
    if created.Some? {
      assert w1.engine == Leftover(w, spec, image);
      ReplacementCompensates(w1, u, current, currentName, spec, w.nextId, replacementName, image);
      CreatedOutcome(w, w1, u, spec, image, StageReplacement(w, u, current, currentName, image));
    }
  }

  /** The three ways in which staging ends: at the hand-off, without a trace, or with the leftover. */
  ghost predicate StageOutcome(w: World, u: UpdateState, spec: Spec, image: string, s: Staged) {
    && (s.handoff == None <==> Fails(w, 0, 6))
    && (s.handoff == None ==> (s.world.engine == w.engine && s.state == u <==> !Fails(w, 4, 6)))
    && (s.handoff == None && Fails(w, 4, 6) ==>
          && s.world.engine == Leftover(w, spec, image) && s.state == Recorded(w, u, spec, image)
          && !Taken(s.world.engine, s.state.rollbackContainer.value))
  }

  lemma CreatedOutcome(w: World, w1: World, u: UpdateState, spec: Spec, image: string, s: Staged)
    requires !w.fails(w.calls) && w1.fails == w.fails && w1.calls == w.calls + 1 && w1.clock == w.clock + 1
    requires w.nextId !in w.engine && w1.engine == Leftover(w, spec, image)
    requires s.handoff == None <==> Fails(w1, 0, 5)
    requires s.handoff == None && !Fails(w1, 3, 5) ==> s.world.engine == w1.engine - {w.nextId} && s.state == u
    requires s.handoff == None && Fails(w1, 3, 5) ==>
      && s.world.engine == w1.engine && s.state == Recorded(w, u, spec, image)
      && !Taken(s.world.engine, s.state.rollbackContainer.value)
    ensures StageOutcome(w, u, spec, image, s)
  {
    assert w1.engine - {w.nextId} == w.engine;
    assert w.nextId in w1.engine;
    assert Fails(w, 0, 6) <==> Fails(w1, 0, 5);
    assert Fails(w, 4, 6) <==> Fails(w1, 3, 5);
  }

  /** The same from the point on at which the replacement has been created: removing it undoes that. */
  lemma ReplacementCompensates(w: World, u: UpdateState, current: Id, currentName: Name, spec: Spec, id: Id, replacementName: Name, image: string)
    requires Owns(w, current, currentName) && SingleFault(w) && Known(w, replacementName)
    requires id in w.engine && id != current && w.engine[id].name == replacementName
    ensures var (w2, inspected) := Inspect(w, id);
      var s := if inspected then SwapNames(w2, u, current, currentName, spec, id, replacementName, image) else Staged(Remove(w2, id), u, None);
      && (s.handoff == None <==> Fails(w, 0, 5))
      && (s.handoff == None && !Fails(w, 3, 5) ==> s.world.engine == w.engine - {id} && s.state == u)
      && (s.handoff == None && Fails(w, 3, 5) ==>
            && s.world.engine == w.engine
            && s.state == u.(latestImage := image, rollbackImage := spec.image,
                             rollbackContainer := Some(Stamped("rollback", w.clock)),
                             rollbackConfig := Some(spec), lastError := false)
            && !Taken(s.world.engine, s.state.rollbackContainer.value))
  {
    var (w2, inspected) := Inspect(w, id);
    if inspected {
      SwapNamesCompensates(w2, u, current, currentName, spec, id, replacementName, image);
    } else {
      assert w.fails(w.calls);
    }
  }

  lemma SwapNamesCompensates(w: World, u: UpdateState, current: Id, currentName: Name, spec: Spec, id: Id, replacementName: Name, image: string)
    requires Owns(w, current, currentName) && SingleFault(w) && Known(w, replacementName)
    requires id in w.engine && id != current && w.engine[id].name == replacementName
    ensures var s := SwapNames(w, u, current, currentName, spec, id, replacementName, image);
      && (s.handoff == None <==> Fails(w, 0, 4))
      && (s.handoff == None && !Fails(w, 2, 4) ==> s.world.engine == w.engine - {id} && s.state == u)
      && (s.handoff == None && Fails(w, 2, 4) ==>
            && s.world.engine == w.engine
            && s.state == u.(latestImage := image, rollbackImage := spec.image,
                             rollbackContainer := Some(Stamped("rollback", w.clock)),
                             rollbackConfig := Some(spec), lastError := false)
            && !Taken(s.world.engine, s.state.rollbackContainer.value))
  {
    NamesAreFresh(w, "rollback");
    var (w', rollbackName) := UniqueName(w, "rollback");
    var x := Exchange(current, rollbackName, currentName, id, replacementName, spec.image);
    SwapCompensates(w', x, true);
    SwapFaults(w', x, true);
  }

  /** The names are as they should be before an exchange. */
  ghost predicate Exchangeable(w: World, x: Exchange) {
    && Owns(w, x.current, x.name) && !Taken(w.engine, x.aside) && Known(w, x.aside)
    && x.other in w.engine && x.other != x.current
  }

  /** Which of its four calls fails decides how an exchange ends. */
  lemma SwapFaults(w: World, x: Exchange, discard: bool)
    requires Exchangeable(w, x) && SingleFault(w)
    ensures var exchanged := Swap(w, x, discard).1;
      && (exchanged.Underway? <==> !Fails(w, 0, 4))
      && (exchanged == NotStarted <==> Fails(w, 2, 4))
  {
    var (w1, aside) := Rename(w, x.current, x.aside);
    assert aside <==> !w.fails(w.calls);
    if aside {
      assert !Taken(w1.engine, x.name);
      var (w2, named) := Rename(w1, x.other, x.name);
      assert named <==> !w.fails(w.calls + 1);
      if named {
        HelperFaults(w2, x.current, x.aside, x.other, x.name, x.image);
        assert w2.calls == w.calls + 2;
        assert w.fails(w.calls + 2) <==> w2.fails(w2.calls);
        assert w.fails(w.calls + 3) <==> w2.fails(w2.calls + 1);
      }
    }
  }

  lemma HelperFaults(w: World, old_: Id, oldName: Name, new_: Id, newName: Name, image: string)
    requires FreshSupply(w)
    ensures StartHandoff(w, old_, oldName, new_, newName, image).1.Some? <==> !w.fails(w.calls) && !w.fails(w.calls + 1)
  {
    NamesAreFresh(w, "handoff");
  }

  /** After a single fault in an exchange the engine is as before, but for a container that is discarded. */
  lemma SwapCompensates(w: World, x: Exchange, discard: bool)
    requires Exchangeable(w, x) && w.engine[x.other].name == x.otherName && SingleFault(w)
    ensures var (w', exchanged) := Swap(w, x, discard);
      && (exchanged == NotRenamed ==> w'.engine == if discard then w.engine - {x.other} else w.engine)
      && (exchanged == NotStarted ==> w'.engine == w.engine)
  {
    var (w1, aside) := Rename(w, x.current, x.aside);
    if aside {
      AsideUndone(w, w1, x.current, x.name, x.aside);
      var (w2, named) := Rename(w1, x.other, x.name);
      if !named {
        AsideUndone(w, w2, x.current, x.name, x.aside);
      } else {
        LaunchCompensates(w, w2, x);
      }
    }
  }

  /** Once a container has been renamed, its name is free, and renaming it back undoes that. */
  lemma AsideUndone(before: World, w: World, current: Id, name: Name, aside: Name)
    requires Owns(before, current, name) && !Taken(before.engine, aside)
    requires w.engine == before.engine[current := before.engine[current].(name := aside)]
    ensures !Taken(w.engine, name)
    ensures NoFault(w) ==> Rename(w, current, name).0.engine == before.engine && NoFault(Rename(w, current, name).0)
  {
  }

  /** If the helper cannot be started, undoing the two renames in reverse order restores the engine. */
  lemma LaunchCompensates(before: World, w: World, x: Exchange)
    requires Exchangeable(before, x) && before.engine[x.other].name == x.otherName && FreshSupply(w) && SingleFault(w)
    requires w.engine == before.engine[x.current := before.engine[x.current].(name := x.aside)]
                                      [x.other := before.engine[x.other].(name := x.name)]
    ensures var (w', handoff) := StartHandoff(w, x.current, x.aside, x.other, x.name, x.image);
      handoff == None ==> Rename(Rename(w', x.other, x.otherName).0, x.current, x.name).0.engine == before.engine
  {
    HelperLeavesNoTrace(w, x.current, x.aside, x.other, x.name, x.image);
    var (w3, handoff) := StartHandoff(w, x.current, x.aside, x.other, x.name, x.image);
    if handoff == None {
      assert !Taken(w3.engine, x.otherName);
      var w4 := Rename(w3, x.other, x.otherName).0;
      assert w4.engine == before.engine[x.current := before.engine[x.current].(name := x.aside)];
      AsideUndone(before, w4, x.current, x.name, x.aside);
    }
  }

  /* ----- The hand-off: single faults ----- */

  /** The hand-off as staging leaves it: the old container aside and running, the new one named and stopped. */
  ghost predicate Prepared(w: World, h: Handoff) {
    && DistinctNames(w.engine) && FreshSupply(w) && Known(w, h.newName)
    && h.old_ in w.engine && h.new_ in w.engine && h.old_ != h.new_
    && h.oldName == Some(w.engine[h.old_].name) && w.engine[h.new_].name == h.newName
    && w.engine[h.old_].running && !w.engine[h.new_].running
  }

  /** If the old container cannot be stopped, nothing changes: it runs on under its rollback name. */
  lemma StopFails(w: World, u: UpdateState, h: Handoff)
    requires Prepared(w, h) && w.fails(w.calls)
    ensures HandOver(w, u, h).0.engine == w.engine && HandOver(w, u, h).1 == u.(lastError := true)
  {
  }

  /**
   If only the start of the replacement fails, the old container runs again, under the appliance
   name, and the replacement is stopped under a failed name.
   */
  lemma StartFails(w: World, u: UpdateState, h: Handoff)
    requires Prepared(w, h) && SingleFault(w) && w.fails(w.calls + 1)
    ensures HandOver(w, u, h).0.engine
      == w.engine[h.old_ := w.engine[h.old_].(name := h.newName)][h.new_ := w.engine[h.new_].(name := Stamped("failed", w.clock))]
    ensures HandOver(w, u, h).1 == u.(lastError := true)
  {
    var w1 := Stop(w, h.old_).0;
    var w2 := Start(w1, h.new_).0;
    assert w2.engine == w.engine[h.old_ := w.engine[h.old_].(running := false)];
    var (w3, failedName) := UniqueName(w2, "failed");
    assert !Taken(w3.engine, failedName);
    var w4 := Rename(w3, h.new_, failedName).0;
    assert w4.engine == w2.engine[h.new_ := w.engine[h.new_].(name := failedName)];
    assert !Taken(w4.engine, h.newName);
    var w5 := Rename(w4, h.old_, h.newName).0;
    var w6 := Start(w5, h.old_).0;
    assert HandOver(w, u, h).0 == w6;
  }

  /** Otherwise the replacement runs and the old container is stopped. */
  lemma StartSucceeds(w: World, u: UpdateState, h: Handoff)
    requires Prepared(w, h) && !w.fails(w.calls) && !w.fails(w.calls + 1)
    ensures HandOver(w, u, h).0.engine
      == w.engine[h.old_ := w.engine[h.old_].(running := false)][h.new_ := w.engine[h.new_].(running := true)]
    ensures HandOver(w, u, h).1 == u.(lastError := false, updateAvailable := false,
      currentImage := if w.fails(w.calls + 2) then u.currentImage else w.engine[h.new_].spec.image)
  {
  }

  /** After any single fault exactly one of the two containers runs. */
  lemma SingleFaultLeavesOneRunning(w: World, u: UpdateState, h: Handoff)
    requires Prepared(w, h) && SingleFault(w)
    ensures var e := HandOver(w, u, h).0.engine;
      h.old_ in e && h.new_ in e && (e[h.old_].running <==> !e[h.new_].running)
  {
    if w.fails(w.calls) {
      StopFails(w, u, h);
    } else if w.fails(w.calls + 1) {
      StartFails(w, u, h);
    } else {
      StartSucceeds(w, u, h);
    }
  }

  /**
   Swapping back to a container gets to the hand-off exactly if none of its four calls fails. A single
   fault leaves the engine and the rollback record as they were; an error is recorded exactly if it was
   the helper that failed.
   */
  lemma SwapBackCompensates(w: World, u: UpdateState, current: Id, currentName: Name, spec: Spec, target: Id, restoreName: Name)
    requires Owns(w, current, currentName) && SingleFault(w)
    requires target in w.engine && target != current && w.engine[target].name == restoreName
    ensures var s := SwapBack(w, u, current, currentName, spec, target, restoreName);
      && (s.handoff == None <==> Fails(w, 0, 4))
      && (s.handoff == None ==> s.world.engine == w.engine && s.state == if Fails(w, 2, 4) then u.(lastError := true) else u)
  {
    NamesAreFresh(w, "rollback-current");
    var (w', backupName) := UniqueName(w, "rollback-current");
    var x := Exchange(current, backupName, currentName, target, restoreName, spec.image);
    SwapCompensates(w', x, false);
    SwapFaults(w', x, false);
  }

  /** The saved container, if one is saved, does not exist any more. */
  ghost predicate SavedIsGone(w: World, u: UpdateState) {
    u.rollbackContainer.Some? ==> !Taken(w.engine, u.rollbackContainer.value)
  }

  function Lookups(u: UpdateState): nat {
    if u.rollbackContainer.Some? then 1 else 0
  }

  function RebuiltBy(w: World, spec: Spec): Engine {
    w.engine[w.nextId := Container(Stamped("rollback-restore", w.clock), false, spec, Appliance)]
  }

  /**
   Which container a rollback goes to: the saved one if it exists and its look-up does not fail, and
   otherwise one rebuilt from the saved configuration, if there is one and neither of its two calls fails.
   */
  lemma TargetIff(w: World, u: UpdateState)
    requires DistinctNames(w.engine) && FreshSupply(w)
    ensures var (w', target) := RollbackTarget(w, u); var n := Lookups(u);
      var found := u.rollbackContainer.Some? && !w.fails(w.calls) && Taken(w.engine, u.rollbackContainer.value);
      && (found ==>
            && target.Some? && target.value.0 in w.engine && w.engine[target.value.0].name == target.value.1
            && Some(target.value.1) == u.rollbackContainer && w'.engine == w.engine)
      && (!found && u.rollbackConfig == None ==> target == None && w'.engine == w.engine)
      && (!found && u.rollbackConfig.Some? ==>
            target == if Fails(w, n, n + 2) then None else Some((w.nextId, Stamped("rollback-restore", w.clock))))
  {
    var (w1, saved) := Saved(w, u);
    if saved == None && u.rollbackConfig.Some? {
      NamesAreFresh(w1, "rollback-restore");
      assert w1.calls == w.calls + Lookups(u) && w1.fails == w.fails;
      assert Fails(w, Lookups(u), Lookups(u) + 2) <==> w1.fails(w1.calls) || w1.fails(w1.calls + 1);
    }
  }

  /**
   A rollback that meets a single fault and does not get to the hand-off leaves the engine as it
   was, unless it has rebuilt a container that was gone and then failed to exchange the two: the
   rebuilt container is not removed. The rollback record stays in either case.
   */
  lemma RollbackCompensates(w: World, u: UpdateState, current: Id, name: Name)
    requires Owns(w, current, name) && SingleFault(w) && SavedIsOther(w, u, current)
    requires Rollback(w, u, current, name).handoff == None
    ensures var s := Rollback(w, u, current, name); var n := Lookups(u);
      var leaves := u.rollbackImage != "" && u.rollbackConfig.Some? && SavedIsGone(w, u) && Fails(w, n + 2, n + 6);
      && (s.world.engine == w.engine <==> !leaves)
      && (leaves ==> s.world.engine == RebuiltBy(w, u.rollbackConfig.value))
      && (s.state == u || s.state == u.(lastError := true))
  {
    var (w1, saved) := Saved(w, u);
    if u.rollbackImage == "" {
    } else if saved.Some? {
      SwapBackCompensates(w1, u, current, name, w.engine[current].spec, saved.value, u.rollbackContainer.value);
      assert Taken(w.engine, u.rollbackContainer.value);
    } else if u.rollbackConfig.Some? {
      SavedIsMissed(w, u);
      RebuiltCompensates(w1, u, current, name);
    }
  }

  /** The saved container is not found if it is gone, or if the lookup fails. */
  lemma SavedIsMissed(w: World, u: UpdateState)
    requires Saved(w, u).1 == None
    ensures SavedIsGone(w, u) || (Lookups(u) == 1 && w.fails(w.calls))
    ensures var w1 := Saved(w, u).0;
      w1.engine == w.engine && w1.calls == w.calls + Lookups(u) && w1.fails == w.fails && w1.clock == w.clock && w1.nextId == w.nextId
  {
  }

  lemma RebuiltCompensates(w: World, u: UpdateState, current: Id, name: Name)
    requires Owns(w, current, name) && SingleFault(w) && u.rollbackConfig.Some?
    ensures var (w', target) := Rebuilt(w, u.rollbackConfig.value);
      && (target == None ==> w'.engine == w.engine && Fails(w, 0, 2))
      && (target.Some? ==>
            var s := SwapBack(w', u, current, name, w.engine[current].spec, target.value.0, target.value.1);
            && (s.handoff == None <==> Fails(w, 2, 6))
            && (s.handoff == None ==> s.world.engine == RebuiltBy(w, u.rollbackConfig.value)
                                      && (s.state == u || s.state == u.(lastError := true))))
  {
    NamesAreFresh(w, "rollback-restore");
    var spec := u.rollbackConfig.value;
    var (w2, tempName) := UniqueName(w, "rollback-restore");
    var (w3, created) := Create(w2, tempName, spec, Appliance);
    if created.Some? {
      assert w3.engine == RebuiltBy(w, spec) && w3.engine - {w.nextId} == w.engine;
      var (w4, inspected) := Inspect(w3, created.value);
      if inspected {
        SwapBackCompensates(w4, u, current, name, w.engine[current].spec, created.value, tempName);
      }
    }
  }

  /* ----- Update and rollback without faults ----- */

  /**
   The appliance `active` runs under the appliance name, `saved` is stopped, and the update
   state describes `saved`: its name, its image and what to rebuild it from.
   */
  ghost predicate Paired(w: World, u: UpdateState, active: Id, saved: Id, name: Name) {
    && Owns(w, active, name) && Calm(w, active) && NoFault(w)
    && active != saved && saved in w.engine
    && w.engine[active].running && w.engine[active].kind == Appliance
    && !w.engine[saved].running && w.engine[saved].kind == Appliance
    && u.rollbackContainer == Some(w.engine[saved].name)
    && u.rollbackConfig == Some(w.engine[saved].spec)
    && u.rollbackImage == w.engine[saved].spec.image
  }

  lemma UpdateResult(w: World, u: UpdateState, current: Id, name: Name, image: string)
    requires Owns(w, current, name) && NoFault(w)
    ensures var (w', u') := RunJob(w, u, Update(image), current, name);
      && w'.engine == UpdatedEngine(w, current, name, image) && NoFault(w') && FreshSupply(w')
      && u' == Recorded(w, u, w.engine[current].spec, image).(updateAvailable := false, currentImage := image)
  {
    var staged := StageReplacement(w, u, current, name, image);
    StageRuns(w, u, current, name, image);
    FaultlessHandoff(staged.world, staged.state, staged.handoff.value);
    HandedOverEngine(w, current, name, image);
  }

  lemma HandedOverEngine(w: World, current: Id, name: Name, image: string)
    requires Owns(w, current, name)
    ensures var old_, new_ := w.engine[current].(name := Stamped("rollback", w.clock + 1)), w.nextId;
      var replacement := Container(name, false, old_.spec.(image := image), Appliance);
      var staged := w.engine[current := old_][new_ := replacement]
                            [new_ + 1 := Container(Stamped("handoff", w.clock + 2), true, Spec(old_.spec.image, ""), Helper)];
      staged[current := old_.(running := false)][new_ := replacement.(running := true)] - {new_ + 1}
      == UpdatedEngine(w, current, name, image)
  {
  }

  function UpdatedEngine(w: World, current: Id, name: Name, image: string): Engine
    requires current in w.engine
  {
    var old_ := w.engine[current];
    w.engine[current := old_.(name := Stamped("rollback", w.clock + 1), running := false)]
            [w.nextId := Container(name, true, old_.spec.(image := image), Appliance)]
  }

  /** An update makes the replacement run the new image and saves the container it replaces. */
  lemma UpdatePairs(w: World, u: UpdateState, current: Id, name: Name, image: string)
    requires Owns(w, current, name) && Calm(w, current) && NoFault(w)
    requires w.engine[current].running && w.engine[current].kind == Appliance
    ensures var (w', u') := RunJob(w, u, Update(image), current, name); var new_ := w.nextId;
      && Paired(w', u', new_, current, name)
      && w'.engine[new_].spec == w.engine[current].spec.(image := image)
      && w'.engine[current].spec == w.engine[current].spec
      && u'.rollbackImage == w.engine[current].spec.image && u'.latestImage == image
      && (forall i :: i in w.engine && i != current ==> i in w'.engine && w'.engine[i] == w.engine[i])
  {
    UpdateResult(w, u, current, name, image);
    UpdateIsCalm(w, u, current, name, image);
  }

  lemma UpdateIsCalm(w: World, u: UpdateState, current: Id, name: Name, image: string)
    requires Owns(w, current, name) && Calm(w, current) && NoFault(w) && w.engine[current].kind == Appliance
    ensures SafeWorld(RunJob(w, u, Update(image), current, name).0) && OnlyRuns(UpdatedEngine(w, current, name, image), w.nextId)
  {
    var staged := StageReplacement(w, u, current, name, image);
    StageIsSafe(w, u, current, name, image);
    if staged.handoff.Some? {
      HandoffIsSafe(staged.world, staged.state, staged.handoff.value);
    }
  }

  /** What staging does unless a call fails. */
  lemma StageRuns(w: World, u: UpdateState, current: Id, name: Name, image: string)
    requires Owns(w, current, name)
    requires NoFault(w) || StageReplacement(w, u, current, name, image).handoff.Some?
    ensures var s := StageReplacement(w, u, current, name, image); var spec := w.engine[current].spec;
      && s.handoff == Some(Handoff(current, Some(Stamped("rollback", w.clock + 1)), w.nextId, name, w.nextId + 1))
      && s.state == Recorded(w, u, spec, image)
      && s.world.engine == w.engine[current := w.engine[current].(name := Stamped("rollback", w.clock + 1))]
                                   [w.nextId := Container(name, false, spec.(image := image), Appliance)]
                                   [w.nextId + 1 := Container(Stamped("handoff", w.clock + 2), true, Spec(spec.image, ""), Helper)]
      && s.world.fails == w.fails && s.world.calls == w.calls + 6 && FreshSupply(s.world) && s.world.clock == w.clock + 3
  {
    var spec := w.engine[current].spec;
    NamesAreFresh(w, "update");
    var (w0, replacementName) := UniqueName(w, "update");
    var (w1, created) := Create(w0, replacementName, spec.(image := image), Appliance);
    var (w2, inspected) := Inspect(w1, w.nextId);
    assert inspected && StageReplacement(w, u, current, name, image)
      == SwapNames(w2, u, current, name, spec, w.nextId, replacementName, image);
    StagedEngine(w, w2, u, current, name, spec, replacementName, image);
  }

  lemma StagedEngine(w: World, w2: World, u: UpdateState, current: Id, name: Name, spec: Spec, replacementName: Name, image: string)
    requires Owns(w, current, name) && Owns(w2, current, name) && spec == w.engine[current].spec
    requires w2.engine == w.engine[w.nextId := Container(replacementName, false, spec.(image := image), Appliance)]
    requires w2.clock == w.clock + 1 && w2.nextId == w.nextId + 1 && w2.fails == w.fails && w2.calls == w.calls + 2
    requires NoFault(w) || SwapNames(w2, u, current, name, spec, w.nextId, replacementName, image).handoff.Some?
    ensures var s := SwapNames(w2, u, current, name, spec, w.nextId, replacementName, image);
      && s.handoff == Some(Handoff(current, Some(Stamped("rollback", w.clock + 1)), w.nextId, name, w.nextId + 1))
      && s.state == Recorded(w, u, spec, image)
      && s.world.engine == w.engine[current := w.engine[current].(name := Stamped("rollback", w.clock + 1))]
                                   [w.nextId := Container(name, false, spec.(image := image), Appliance)]
                                   [w.nextId + 1 := Container(Stamped("handoff", w.clock + 2), true, Spec(spec.image, ""), Helper)]
      && s.world.fails == w.fails && s.world.calls == w.calls + 6 && FreshSupply(s.world) && s.world.clock == w.clock + 3
  {
    SwapNamesRuns(w2, u, current, name, spec, w.nextId, replacementName, image);
    OverwriteBeneath(w.engine, current, w2.engine[current].(name := Stamped("rollback", w2.clock)), w.nextId, w2.engine[w.nextId],
                     w2.engine[w.nextId].(name := name));
  }

  lemma OverwriteBeneath(e: Engine, i: Id, a: Container, j: Id, b: Container, c: Container)
    requires i != j
    ensures e[j := b][i := a][j := c] == e[i := a][j := c]
  {
  }

  lemma SwapNamesRuns(w: World, u: UpdateState, current: Id, name: Name, spec: Spec, id: Id, replacementName: Name, image: string)
    requires Owns(w, current, name) && id in w.engine && id != current
    requires NoFault(w) || SwapNames(w, u, current, name, spec, id, replacementName, image).handoff.Some?
    ensures var s := SwapNames(w, u, current, name, spec, id, replacementName, image);
      && s.handoff == Some(Handoff(current, Some(Stamped("rollback", w.clock)), id, name, w.nextId))
      && s.state == u.(latestImage := image, rollbackImage := spec.image, rollbackContainer := Some(Stamped("rollback", w.clock)),
                       rollbackConfig := Some(spec), lastError := false)
      && s.world.engine == w.engine[current := w.engine[current].(name := Stamped("rollback", w.clock))]
                                   [id := w.engine[id].(name := name)]
                                   [w.nextId := Container(Stamped("handoff", w.clock + 1), true, Spec(spec.image, ""), Helper)]
      && s.world.fails == w.fails && s.world.calls == w.calls + 4 && FreshSupply(s.world) && s.world.clock == w.clock + 2
  {
    NamesAreFresh(w, "rollback");
    var (w', rollbackName) := UniqueName(w, "rollback");
    SwapRuns(w', Exchange(current, rollbackName, name, id, replacementName, spec.image), true);
  }

  /** What an exchange does unless a call fails. */
  lemma SwapRuns(w: World, x: Exchange, discard: bool)
    requires Exchangeable(w, x) && (NoFault(w) || Swap(w, x, discard).1.Underway?)
    ensures var (w', exchanged) := Swap(w, x, discard);
      && exchanged == Underway(Handoff(x.current, Some(x.aside), x.other, x.name, w.nextId))
      && w'.engine == w.engine[x.current := w.engine[x.current].(name := x.aside)][x.other := w.engine[x.other].(name := x.name)]
                              [w.nextId := Container(Stamped("handoff", w.clock), true, Spec(x.image, ""), Helper)]
      && w'.fails == w.fails && w'.calls == w.calls + 4 && FreshSupply(w') && w'.nextId == w.nextId + 1 && w'.clock == w.clock + 1
  {
    var (w1, aside) := Rename(w, x.current, x.aside);
    assert !Taken(w1.engine, x.name);
    var (w2, named) := Rename(w1, x.other, x.name);
    HelperStarts(w2, x.current, x.aside, x.other, x.name, x.image);
  }

  lemma FaultlessHandoff(w: World, u: UpdateState, h: Handoff)
    requires NoFault(w) && h.old_ in w.engine && h.new_ in w.engine && h.old_ != h.new_ && !w.engine[h.new_].running
    requires FreshSupply(w)
    ensures var (w', u') := RunHandoff(w, u, h);
      && w'.engine == w.engine[h.old_ := w.engine[h.old_].(running := false)]
                              [h.new_ := w.engine[h.new_].(running := true)] - {h.helper}
      && u' == u.(lastError := false, updateAvailable := false, currentImage := w.engine[h.new_].spec.image)
      && NoFault(w') && FreshSupply(w') && w'.clock == w.clock
  {
  }

  lemma SwapBackRuns(w: World, u: UpdateState, current: Id, name: Name, spec: Spec, target: Id, restoreName: Name)
    requires Owns(w, current, name) && target in w.engine && target != current
    requires NoFault(w) || SwapBack(w, u, current, name, spec, target, restoreName).handoff.Some?
    ensures var s := SwapBack(w, u, current, name, spec, target, restoreName); var backup := Stamped("rollback-current", w.clock);
      && s.handoff == Some(Handoff(current, Some(backup), target, name, w.nextId))
      && s.state == u.(rollbackImage := spec.image, rollbackContainer := Some(backup), rollbackConfig := Some(spec))
      && s.world.engine == w.engine[current := w.engine[current].(name := backup)][target := w.engine[target].(name := name)]
                                   [w.nextId := Container(Stamped("handoff", w.clock + 1), true, Spec(spec.image, ""), Helper)]
      && s.world.fails == w.fails && s.world.calls == w.calls + 4 && FreshSupply(s.world)
      && s.world.nextId == w.nextId + 1 && s.world.clock == w.clock + 2
  {
    NamesAreFresh(w, "rollback-current");
    var (w', backupName) := UniqueName(w, "rollback-current");
    SwapRuns(w', Exchange(current, backupName, name, target, restoreName, spec.image), false);
  }

  lemma FoundByName(e: Engine, id: Id)
    requires DistinctNames(e) && id in e
    ensures FindByName(e, e[id].name) == Some(id)
  {
  }

  lemma RollbackStages(w: World, u: UpdateState, active: Id, saved: Id, name: Name)
    requires Paired(w, u, active, saved, name) && u.rollbackImage != ""
    ensures Rollback(w, u, active, name)
      == SwapBack(Done(w, w.engine), u, active, name, w.engine[active].spec, saved, u.rollbackContainer.value)
  {
  }

  /** Swapping back and handing over when no call fails. */
  lemma SwapBackAndHandOver(w: World, u: UpdateState, active: Id, name: Name, spec: Spec, target: Id, restoreName: Name)
    requires Owns(w, active, name) && NoFault(w) && target in w.engine && target != active && !w.engine[target].running
    ensures var s := SwapBack(w, u, active, name, spec, target, restoreName); var backup := Stamped("rollback-current", w.clock);
      s.handoff.Some? &&
      var (w', u') := RunHandoff(s.world, s.state, s.handoff.value);
      && w'.engine == w.engine[active := w.engine[active].(name := backup, running := false)]
                              [target := w.engine[target].(name := name, running := true)]
      && NoFault(w') && FreshSupply(w') && w'.clock == w.clock + 2
      && u' == u.(rollbackImage := spec.image, rollbackContainer := Some(backup), rollbackConfig := Some(spec),
                  lastError := false, updateAvailable := false, currentImage := w.engine[target].spec.image)
  {
    SwapBackRuns(w, u, active, name, spec, target, restoreName);
    var s := SwapBack(w, u, active, name, spec, target, restoreName);
    FaultlessHandoff(s.world, s.state, s.handoff.value);
  }

  lemma RollbackResult(w: World, u: UpdateState, active: Id, saved: Id, name: Name)
    requires Paired(w, u, active, saved, name) && u.rollbackImage != ""
    ensures var (w', u') := RunJob(w, u, RollBack, active, name);
      && w'.engine == SwappedEngine(w, active, saved, name)
      && NoFault(w') && FreshSupply(w') && w'.clock == w.clock + 2
      && u'.rollbackImage == w.engine[active].spec.image && u'.rollbackConfig == Some(w.engine[active].spec)
      && u'.rollbackContainer == Some(Stamped("rollback-current", w.clock))
      && u'.currentImage == w.engine[saved].spec.image
  {
    var w1, spec := Done(w, w.engine), w.engine[active].spec;
    RollbackStages(w, u, active, saved, name);
    SwapBackAndHandOver(w1, u, active, name, spec, saved, u.rollbackContainer.value);
  }

  /** A rollback swaps the two: the saved container runs again, and the other one is saved in its place. */
  lemma RollbackSwaps(w: World, u: UpdateState, active: Id, saved: Id, name: Name)
    requires Paired(w, u, active, saved, name) && u.rollbackImage != ""
    ensures var (w', u') := RunJob(w, u, RollBack, active, name);
      Paired(w', u', saved, active, name) && w'.engine == SwappedEngine(w, active, saved, name)
  {
    RollbackResult(w, u, active, saved, name);
    assert SavedIsOther(w, u, active);
    JobIsSafe(w, u, RollBack, active, name);
    OnlySwappedRuns(w, active, saved, name);
  }

  lemma OnlySwappedRuns(w: World, active: Id, saved: Id, name: Name)
    requires active in w.engine && saved in w.engine && OnlyRuns(w.engine, active)
    ensures OnlyRuns(SwappedEngine(w, active, saved, name), saved)
  {
  }

  function SwappedEngine(w: World, active: Id, saved: Id, name: Name): Engine
    requires active in w.engine && saved in w.engine
  {
    w.engine[active := w.engine[active].(name := Stamped("rollback-current", w.clock), running := false)]
            [saved := w.engine[saved].(name := name, running := true)]
  }

  /**
   Without faults, an update followed by a rollback restores the same container under the same
   name with the same image, running; the replacement is stopped and saved.
   */
  lemma RollbackUndoesUpdate(w: World, u: UpdateState, current: Id, name: Name, image: string)
    requires Owns(w, current, name) && Calm(w, current) && NoFault(w)
    requires w.engine[current].running && w.engine[current].kind == Appliance && w.engine[current].spec.image != ""
    ensures var (w1, u1) := RunJob(w, u, Update(image), current, name); var new_ := w.nextId;
      Paired(w1, u1, new_, current, name) && u1.rollbackImage == w.engine[current].spec.image
    ensures var (w1, u1) := RunJob(w, u, Update(image), current, name); var new_ := w.nextId;
      new_ in w1.engine &&
      var (w2, u2) := RunJob(w1, u1, RollBack, new_, name);
      && Paired(w2, u2, current, new_, name)
      && w2.engine[current] == w.engine[current] && w2.engine[new_].spec.image == image && u2.rollbackImage == image
  {
    UpdatePairs(w, u, current, name, image);
    var (w1, u1) := RunJob(w, u, Update(image), current, name);
    RollbackSwaps(w1, u1, w.nextId, current, name);
    assert w1.engine[current].kind == Appliance;
  }

  /** Two rollbacks return to the container that was active, with the same record of the other one. */
  lemma RollbackIsAnInvolution(w: World, u: UpdateState, active: Id, saved: Id, name: Name)
    requires Paired(w, u, active, saved, name) && u.rollbackImage != "" && w.engine[active].spec.image != ""
    ensures var (w1, u1) := RunJob(w, u, RollBack, active, name);
      saved in w1.engine &&
      var (w2, u2) := RunJob(w1, u1, RollBack, saved, name);
      && Paired(w2, u2, active, saved, name)
      && w2.engine[active] == w.engine[active] && w2.engine[saved].spec == w.engine[saved].spec
      && u2.rollbackImage == u.rollbackImage && u2.rollbackConfig == u.rollbackConfig
  {
    RollbackSwaps(w, u, active, saved, name);
    var (w1, u1) := RunJob(w, u, RollBack, active, name);
    RollbackSwaps(w1, u1, saved, active, name);
  }

  /** If the saved container is gone, one created from the saved configuration runs under the appliance name. */
  lemma RollbackRebuilds(w: World, u: UpdateState, active: Id, name: Name)
    requires Owns(w, active, name) && Calm(w, active) && NoFault(w)
    requires w.engine[active].running && w.engine[active].kind == Appliance
    requires u.rollbackConfig.Some? && u.rollbackImage == u.rollbackConfig.value.image != ""
    requires u.rollbackContainer.Some? && Known(w, u.rollbackContainer.value) && !Taken(w.engine, u.rollbackContainer.value)
    ensures var (w', u') := RunJob(w, u, RollBack, active, name); var rebuilt := w.nextId;
      && rebuilt in w'.engine && w'.engine[rebuilt] == Container(name, true, u.rollbackConfig.value, Appliance)
      && OnlyRuns(w'.engine, rebuilt)
      && u'.rollbackImage == w.engine[active].spec.image && active in w'.engine
      && u'.rollbackContainer == Some(w'.engine[active].name) && !w'.engine[active].running
  {
    var (w1, target) := RollbackTarget(w, u);
    RebuiltTarget(w, u);
    var spec, rebuilt, tempName := w.engine[active].spec, target.value.0, target.value.1;
    SwapBackAndHandOver(w1, u, active, name, spec, rebuilt, tempName);
    assert Rollback(w, u, active, name) == SwapBack(w1, u, active, name, spec, rebuilt, tempName);
  }

  lemma RebuiltTarget(w: World, u: UpdateState)
    requires DistinctNames(w.engine) && FreshSupply(w) && NoFault(w)
    requires u.rollbackConfig.Some? && u.rollbackContainer.Some? && !Taken(w.engine, u.rollbackContainer.value)
    ensures var (w', target) := RollbackTarget(w, u); var tempName := Stamped("rollback-restore", w.clock);
      && target == Some((w.nextId, tempName))
      && w'.engine == w.engine[w.nextId := Container(tempName, false, u.rollbackConfig.value, Appliance)]
      && DistinctNames(w'.engine) && FreshSupply(w') && NoFault(w')
      && w'.clock == w.clock + 1 && w'.nextId == w.nextId + 1
  {
  }

  /* ----- Where the promises end ----- */

  /**
   A hand-off whose stop fails leaves the appliance name with the stopped replacement. A rollback
   then takes that one for the current container, and without any further fault both run.
   */
  lemma RollbackAfterFailedStop(w: World, u: UpdateState, named: Id, running: Id, name: Name)
    requires Owns(w, named, name) && SafeWorld(w) && NoFault(w) && named != running
    requires w.engine[named].kind == Appliance && !w.engine[named].running
    requires running in w.engine && w.engine[running].kind == Appliance && w.engine[running].running
    requires u.rollbackImage != "" && u.rollbackContainer == Some(w.engine[running].name)
    ensures !Exclusive(RunJob(w, u, RollBack, named, name).0.engine)
  {
    var w1, spec := Done(w, w.engine), w.engine[named].spec;
    FoundByName(w.engine, running);
    assert RollbackTarget(w, u) == (w1, Some((running, u.rollbackContainer.value)));
    SwapBackRuns(w1, u, named, name, spec, running, u.rollbackContainer.value);
    var staged := SwapBack(w1, u, named, name, spec, running, u.rollbackContainer.value);
    assert Rollback(w, u, named, name) == staged;
    HandoffToRunningContainer(staged.world, staged.state, staged.handoff.value);
  }
}
