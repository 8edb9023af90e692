/** Debounced reconfiguration: one callback per burst of triggers, and no update lost. */
module Debounce {
  import opened Wire

  type Time = nat

  /* ----- The debouncer ----- */

  class ConfigDebouncer {
    const delay: Time
    var timer: Option<Time> // when the pending timer fires
    var calls: seq<Time>    // when the callback was started

    constructor (delay: Time)
      ensures this.delay == delay && timer == None && calls == []
    {
      this.delay := delay;
      timer := None;
      calls := [];
    }

    /** Replaces a pending timer by a new one. */
    method Trigger(now: Time)
      modifies this`timer
      ensures timer == Some(now + delay)
    {
      if timer.Some? {
        timer := None;
      }
      timer := Some(now + delay);
    }

    method Stop()
      modifies this`timer
      ensures timer == None
    {
      if timer.Some? {
        timer := None;
      }
    }

    /** The runtime starts the callback when the timer is due. */
    method Elapse(now: Time)
      modifies this
      ensures old(timer) == Some(now) ==> timer == None && calls == old(calls) + [now]
      ensures old(timer) != Some(now) ==> timer == old(timer) && calls == old(calls)
    {
      if timer == Some(now) {
        timer := None;
        calls := calls + [now];
      }
    }

    /** Plays a timed history: each event happens at its time, and a due timer fires. */
    method Play(events: seq<Event>)
      requires timer == None && Possible(delay, events)
      modifies this
      ensures timer == TimerAfter(delay, events)
      ensures calls == old(calls) + Fires(events)
    {
      for k := 0 to |events|
        invariant timer == TimerAfter(delay, events[..k])
        invariant calls == old(calls) + Fires(events[..k])
      {
        assert events[..k + 1][..k] == events[..k];
        match events[k]
        case Triggered(t) => Trigger(t);
        case Stopped(t) => Stop();
        case Fired(t) =>
          PossiblePrefix(delay, events, k + 1);
          Elapse(t);
      }
      assert events[..|events|] == events;
    }
  }

  /* ----- Timed histories ----- */

  datatype Event = Triggered(t: Time) | Stopped(t: Time) | Fired(t: Time)

  /** When the pending timer is due after a history. */
  function TimerAfter(delay: Time, events: seq<Event>): Option<Time> {
    if events == [] then None
    else match events[|events| - 1]
         case Triggered(t) => Some(t + delay)
         case Stopped(_) => None
         case Fired(_) => None
  }

  /** Time does not run backwards or past a due timer, and a timer fires exactly when it is due. */
  ghost predicate Possible(delay: Time, events: seq<Event>) {
    events == [] || (Possible(delay, events[..|events| - 1]) && Allowed(delay, events[..|events| - 1], events[|events| - 1]))
  }

  ghost predicate Allowed(delay: Time, before: seq<Event>, e: Event) {
    var timer := TimerAfter(delay, before);
    && (before != [] ==> before[|before| - 1].t <= e.t)
    && (timer.Some? ==> e.t <= timer.value)
    && (e.Fired? ==> timer == Some(e.t))
  }

  lemma {:induction false} PossiblePrefix(delay: Time, events: seq<Event>, k: nat)
    requires Possible(delay, events) && k <= |events|
    ensures Possible(delay, events[..k])
  {
    var n := |events|;
    if k == n {
      assert events[..k] == events;
    } else {
      PossiblePrefix(delay, events[..n - 1], k);
      assert events[..n - 1][..k] == events[..k];
    }
  }

  function Fires(events: seq<Event>): seq<Time> {
    if events == [] then []
    else Fires(events[..|events| - 1]) + if events[|events| - 1].Fired? then [events[|events| - 1].t] else []
  }

  /** A trigger, and whether the event right before it was a firing. */
  datatype Mark = Mark(t: Time, afterFiring: bool)

  function MarkOf(before: seq<Event>, t: Time): Mark {
    Mark(t, before != [] && before[|before| - 1].Fired?)
  }

  function Triggers(events: seq<Event>): seq<Mark> {
    if events == [] then []
    else
      var rest, last := events[..|events| - 1], events[|events| - 1];
      Triggers(rest) + if last.Triggered? then [MarkOf(rest, last.t)] else []
  }

  /**
   The due times of the bursts that the triggers determine. A burst ends at a gap longer than the
   delay; at a gap of just the delay it ends if the firing came before the trigger.
   */
  function BurstEnds(delay: Time, triggers: seq<Mark>): seq<Time> {
    if triggers == [] then []
    else ClosedBursts(delay, triggers) + [triggers[|triggers| - 1].t + delay]
  }

  /** The same without the last burst, which may still be open. */
  function ClosedBursts(delay: Time, triggers: seq<Mark>): seq<Time> {
    var n := |triggers|;
    if n < 2 then []
    else
      ClosedBursts(delay, triggers[..n - 1])
      + if Ends(triggers[n - 2].t + delay, triggers[n - 1]) then [triggers[n - 2].t + delay] else []
  }

  predicate Ends(due: Time, next: Mark) {
    due < next.t || (due == next.t && next.afterFiring)
  }

  ghost predicate NeverStopped(events: seq<Event>) {
    forall i :: 0 <= i < |events| ==> !events[i].Stopped?
  }

  /** Every burst has been called for, except the last one while its timer is pending. */
  ghost predicate OncePerBurst(delay: Time, timer: Option<Time>, fires: seq<Time>, triggers: seq<Mark>) {
    fires == if timer == None then BurstEnds(delay, triggers) else ClosedBursts(delay, triggers)
  }

  /**
   Without Stop the callback has fired once for each burst, at its last trigger plus the delay,
   except for the last burst while its timer is still pending.
   */
  lemma {:induction false} OneCallPerBurst(delay: Time, events: seq<Event>)
    requires Possible(delay, events) && NeverStopped(events)
    ensures Fires(events) == if TimerAfter(delay, events) == None then BurstEnds(delay, Triggers(events))
                             else ClosedBursts(delay, Triggers(events))
  {
    if events != [] {
      var rest, last := events[..|events| - 1], events[|events| - 1];
      assert Possible(delay, rest) && Allowed(delay, rest, last);
      OneCallPerBurst(delay, rest);
      OneMore(rest, last, events);
      EventFollows(delay, rest, last);
      BurstStep(delay, TimerAfter(delay, rest), Fires(rest), Triggers(rest), last, MarkOf(rest, last.t));
    }
  }

  lemma OneMore(rest: seq<Event>, last: Event, events: seq<Event>)
    requires events != [] && rest == events[..|events| - 1] && last == events[|events| - 1]
    ensures Triggers(events) == if last.Triggered? then Triggers(rest) + [MarkOf(rest, last.t)] else Triggers(rest)
    ensures Fires(events) == if last.Fired? then Fires(rest) + [last.t] else Fires(rest)
  {
  }

  /** How the next event relates to the timer and to the triggers so far. */
  ghost predicate Follows(delay: Time, timer: Option<Time>, triggers: seq<Mark>, e: Event, afterFiring: bool) {
    && !e.Stopped?
    && (triggers == [] ==> timer == None && e.Triggered?)
    && (triggers != [] ==>
          var due := triggers[|triggers| - 1].t + delay;
          && (afterFiring <==> timer == None)
          && (if timer == None then due <= e.t else timer == Some(due) && e.t <= due)
          && (e.Fired? ==> timer == Some(e.t)))
  }

  lemma EventFollows(delay: Time, rest: seq<Event>, e: Event)
    requires Possible(delay, rest) && NeverStopped(rest) && Allowed(delay, rest, e) && !e.Stopped?
    ensures Follows(delay, TimerAfter(delay, rest), Triggers(rest), e, MarkOf(rest, e.t).afterFiring)
  {
    LastTrigger(delay, rest);
  }

  /** A trigger while the timer is pending joins the burst, and one after it has fired opens another. */
  lemma BurstStep(delay: Time, timer: Option<Time>, fires: seq<Time>, triggers: seq<Mark>, last: Event, mark: Mark)
    requires OncePerBurst(delay, timer, fires, triggers)
    requires mark.t == last.t && Follows(delay, timer, triggers, last, mark.afterFiring)
    ensures last.Triggered? ==> OncePerBurst(delay, Some(last.t + delay), fires, triggers + [mark])
    ensures last.Fired? ==> OncePerBurst(delay, None, fires + [last.t], triggers)
  {
    assert (triggers + [mark])[..|triggers|] == triggers;
  }

  /** A pending timer is due at the last trigger plus the delay; otherwise time has reached that instant. */
  lemma LastTrigger(delay: Time, events: seq<Event>)
    requires Possible(delay, events) && NeverStopped(events)
    ensures Triggers(events) == [] <==> events == []
    ensures events != [] ==>
      var due := Triggers(events)[|Triggers(events)| - 1].t + delay;
      if events[|events| - 1].Triggered? then TimerAfter(delay, events) == Some(due)
      else TimerAfter(delay, events) == None && events[|events| - 1].t == due
  {
  }

  /* ----- Does the configuration follow the monitoring state? ----- */

  /** A callback reads the monitoring state once, and later writes the configuration it led to. */
  datatype Callback = Started | HasRead(version: nat)

  /**
   Versions number the changes of the monitoring state. A command changes the state and only
   then triggers the debouncer; `owed` counts the commands in between.
   */
  datatype State = State(latest: nat, owed: nat, timer: bool, callbacks: seq<Callback>, applied: nat, newest: nat)

  datatype Step = Change | Trigger | Fire | Read(i: nat) | Apply(i: nat)

  const INIT := State(0, 0, false, [], 0, 0)

  predicate Enabled(s: State, step: Step) {
    match step
    case Change => true
    case Trigger => s.owed > 0
    case Fire => s.timer
    case Read(i) => i < |s.callbacks| && s.callbacks[i] == Started
    case Apply(i) => i < |s.callbacks| && s.callbacks[i].HasRead?
  }

  function Next(s: State, step: Step): State
    requires Enabled(s, step)
  {
    match step
    case Change => s.(latest := s.latest + 1, owed := s.owed + 1)
    case Trigger => s.(owed := s.owed - 1, timer := true)
    case Fire => s.(timer := false, callbacks := s.callbacks + [Started])
    case Read(i) => s.(callbacks := s.callbacks[i := HasRead(s.latest)])
    case Apply(i) =>
      var v := s.callbacks[i].version;
      s.(callbacks := s.callbacks[..i] + s.callbacks[i + 1..], applied := v, newest := if v > s.newest then v else s.newest)
  }

  ghost predicate IsRun(states: seq<State>, steps: seq<Step>) {
    && |states| == |steps| + 1
    && states[0] == INIT
    && forall i :: 0 <= i < |steps| ==> Enabled(states[i], steps[i]) && states[i + 1] == Next(states[i], steps[i])
  }

  /** Nothing is on its way: no command before its trigger, no timer, no callback. */
  predicate Quiet(s: State) {
    s.owed == 0 && !s.timer && s.callbacks == []
  }

  /** The latest version has been applied, or is on its way. */
  ghost predicate Covered(s: State) {
    && s.newest <= s.latest
    && (forall i :: 0 <= i < |s.callbacks| && s.callbacks[i].HasRead? ==> s.callbacks[i].version <= s.latest)
    && (|| s.owed > 0 || s.timer || s.newest == s.latest
        || exists i :: 0 <= i < |s.callbacks| && (s.callbacks[i] == Started || s.callbacks[i] == HasRead(s.latest)))
  }

  lemma CoveredNext(s: State, step: Step)
    requires Covered(s) && Enabled(s, step)
    ensures Covered(Next(s, step))
  {
    var s' := Next(s, step);
    match step
    case Change =>
    case Trigger =>
    case Fire => assert s'.callbacks[|s.callbacks|] == Started;
    case Read(i) => assert s'.callbacks[i] == HasRead(s.latest);
    case Apply(i) =>
      if s'.owed == 0 && !s'.timer && s'.newest != s'.latest {
        var k :| 0 <= k < |s.callbacks| && (s.callbacks[k] == Started || s.callbacks[k] == HasRead(s.latest));
        assert s'.callbacks[if k < i then k else k - 1] == s.callbacks[k];
      }
  }

  lemma {:induction false} RunIsCovered(states: seq<State>, steps: seq<Step>, k: nat)
    requires IsRun(states, steps) && k < |states|
    ensures Covered(states[k])
  {
    if k > 0 {
      RunIsCovered(states, steps, k - 1);
      CoveredNext(states[k - 1], steps[k - 1]);
    }
  }

  /* ----- Which orders end with the latest configuration ----- */

  /** The steps that remain, in some order, once no more commands come. */
  ghost predicate Drains(s: State, rest: seq<Step>)
    decreases |rest|
  {
    if rest == [] then Quiet(s)
    else rest[0] != Change && Enabled(s, rest[0]) && Drains(Next(s, rest[0]), rest[1..])
  }

  function Drained(s: State, rest: seq<Step>): State
    requires Drains(s, rest)
    decreases |rest|
  {
    if rest == [] then s else Drained(Next(s, rest[0]), rest[1..])
  }

  ghost predicate EndsCurrent(s: State, rest: seq<Step>) {
    Drains(s, rest) ==> Drained(s, rest).applied == s.latest
  }

  /** No callback holds an older version than the latest one, and if nothing is on its way, that one is applied. */
  ghost predicate NothingOld(s: State) {
    && (forall i :: 0 <= i < |s.callbacks| && s.callbacks[i].HasRead? ==> s.callbacks[i].version == s.latest)
    && (Quiet(s) ==> s.applied == s.latest)
  }

  lemma NothingOldNext(s: State, step: Step)
    requires NothingOld(s) && step != Change && Enabled(s, step)
    ensures NothingOld(Next(s, step)) && Next(s, step).latest == s.latest
  {
  }

  lemma {:induction false} NothingOldDrains(s: State, rest: seq<Step>)
    requires NothingOld(s) && Drains(s, rest)
    ensures Drained(s, rest).applied == s.latest
    decreases |rest|
  {
    if rest != [] {
      NothingOldNext(s, rest[0]);
      NothingOldDrains(Next(s, rest[0]), rest[1..]);
    }
  }

  function StartedAt(s: State): set<nat> {
    set i: nat | i < |s.callbacks| && s.callbacks[i] == Started
  }

  /** Any callback that has read may be the last one to apply what it read. */
  lemma {:induction false} SlowestIsLast(s: State, k: nat) returns (rest: seq<Step>)
    requires k < |s.callbacks| && s.callbacks[k].HasRead?
    ensures Drains(s, rest) && Drained(s, rest).applied == s.callbacks[k].version
    decreases s.owed, s.timer, StartedAt(s), |s.callbacks|
  {
    var step, k' := Trigger, k;
    if s.owed == 0 {
      if s.timer {
        step := Fire;
      } else if i: nat :| i in StartedAt(s) {
        step := Read(i);
        assert i !in StartedAt(Next(s, step)) && StartedAt(Next(s, step)) <= StartedAt(s);
      } else {
        assert StartedAt(s) == {};
        assert forall j :: 0 <= j < |s.callbacks| ==> s.callbacks[j].HasRead? by {
          forall j | 0 <= j < |s.callbacks| ensures s.callbacks[j].HasRead? {
            assert j !in StartedAt(s);
          }
        }
        step := Apply(if |s.callbacks| == 1 then k else if k == 0 then 1 else 0);
        k' := if k == 0 then 0 else k - 1;
        assert StartedAt(Next(s, step)) == {};
      }
    }
    var s' := Next(s, step);
    if s'.callbacks == [] {
      rest := [step];
      assert rest[1..] == [];
    } else {
      var more := SlowestIsLast(s', k');
      rest := [step] + more;
      assert rest[1..] == more;
    }
  }

  /**
   Callbacks may overlap. If no more commands come, the configuration ends up at the latest state
   whatever the order of the remaining steps, exactly if no callback holds an older version.
   */
  lemma CurrentInEveryOrderIff(s: State)
    ensures (forall rest :: EndsCurrent(s, rest)) <==> NothingOld(s)
  {
    if NothingOld(s) {
      forall rest ensures EndsCurrent(s, rest) {
        if Drains(s, rest) {
          NothingOldDrains(s, rest);
        }
      }
    } else if Quiet(s) {
      assert !EndsCurrent(s, []);
    } else {
      var k: nat :| k < |s.callbacks| && s.callbacks[k].HasRead? && s.callbacks[k].version != s.latest;
      var rest := SlowestIsLast(s, k);
      assert !EndsCurrent(s, rest);
    }
  }

  ghost predicate Overlaps(states: seq<State>) {
    exists i :: 0 <= i < |states| && |states[i].callbacks| > 1
  }

  lemma {:induction false} OneAtATime(states: seq<State>, steps: seq<Step>, k: nat)
    requires IsRun(states, steps) && k < |states| && !Overlaps(states)
    ensures var s := states[k];
      s.applied == s.newest && (s.callbacks != [] && s.callbacks[0].HasRead? ==> s.newest <= s.callbacks[0].version)
  {
    if k > 0 {
      OneAtATime(states, steps, k - 1);
      RunIsCovered(states, steps, k - 1);
      assert |states[k].callbacks| <= 1 && |states[k - 1].callbacks| <= 1;
    }
  }

  /** If callbacks do not overlap, no update is lost: quiet means current. */
  lemma NoUpdateIsLost(states: seq<State>, steps: seq<Step>, k: nat)
    requires IsRun(states, steps) && k < |states| && !Overlaps(states)
    ensures var s := states[k];
      || s.applied == s.latest || s.owed > 0 || s.timer
      || (s.callbacks != [] && (s.callbacks[0] == Started || s.callbacks[0] == HasRead(s.latest)))
  {
    OneAtATime(states, steps, k);
    RunIsCovered(states, steps, k);
    assert |states[k].callbacks| <= 1;
  }

  ghost predicate Reached(s: State) {
    exists states: seq<State>, steps: seq<Step> :: IsRun(states, steps) && states[|steps|] == s
  }

  lemma ReachedNext(s: State, step: Step)
    requires Reached(s) && Enabled(s, step)
    ensures Reached(Next(s, step))
  {
    var states: seq<State>, steps: seq<Step> :| IsRun(states, steps) && states[|steps|] == s;
    var states', steps' := states + [Next(s, step)], steps + [step];
    assert IsRun(states', steps') && states'[|steps'|] == Next(s, step);
  }

  lemma InitReached()
    ensures Reached(INIT)
  {
    assert IsRun([INIT], []);
  }

  /** A change that a second callback is about to read, while the first one has not applied what it read. */
  lemma OverlapIsReached()
    ensures Reached(State(2, 0, false, [HasRead(1), Started], 0, 0))
  {
    InitReached();
    ReachedNext(INIT, Change);
    ReachedNext(State(1, 1, false, [], 0, 0), Trigger);
    ReachedNext(State(1, 0, true, [], 0, 0), Fire);
    ReachedNext(State(1, 0, false, [Started], 0, 0), Read(0));
    ReachedNext(State(1, 0, false, [HasRead(1)], 0, 0), Change);
    ReachedNext(State(2, 1, false, [HasRead(1)], 0, 0), Trigger);
    ReachedNext(State(2, 0, true, [HasRead(1)], 0, 0), Fire);
  }

  /** With overlap an update can be lost: a slow callback overwrites the result of a later one. */
  lemma OverlapCanLoseAnUpdate()
    ensures exists s :: Reached(s) && Quiet(s) && s.applied < s.latest
  {
    OverlapIsReached();
    ReachedNext(State(2, 0, false, [HasRead(1), Started], 0, 0), Read(1));
    ReachedNext(State(2, 0, false, [HasRead(1), HasRead(2)], 0, 0), Apply(1));
    ReachedNext(State(2, 0, false, [HasRead(1)], 2, 2), Apply(0));
    assert Reached(State(2, 0, false, [], 1, 2)) && Quiet(State(2, 0, false, [], 1, 2));
  }
}
