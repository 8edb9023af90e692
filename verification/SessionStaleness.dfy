/** Many workers before one shared store: how old a context that they hand out can be. */
module SessionStaleness {
  import opened Wire
  import opened SessionCache

  type Worker = nat

  /**
   Every worker has a clock of its own that started at some other time. What was fetched from the
   shared store is held, and what is to be written to it takes, at most the given delay.
   */
  datatype Setup = Setup(settings: Settings, offset: Worker -> int, delay: nat)

  datatype Cached = Cached(user: User, expires: Time)

  /** A context on its way from or to the shared store, since the given time. */
  datatype Transfer = Transfer(worker: Worker, token: Token, user: User, since: Time)

  /** A request that found no fresh context, with the stale one that it may fall back on. */
  datatype Request = Request(worker: Worker, token: Token, stale: Option<User>)

  /** A context that upstream confirmed, or that a request was answered with, at a time. */
  datatype Event = Event(token: Token, user: User, at: Time)

  datatype State = State(
    now: Time,
    l1: Worker -> seq<Entry>,
    shared: Token -> Option<Cached>,
    loads: set<Transfer>,
    writes: set<Transfer>,
    requests: set<Request>,
    confirmed: set<Event>,
    served: set<Event>)

  datatype Step =
    | Pass(ticks: nat)
    | Ask(worker: Worker, token: Token)
    | Poll(worker: Worker, token: Token)
    | Fetch(worker: Worker, token: Token)
    | Land(load: Transfer)
    | Discard(load: Transfer)
    | Refresh(worker: Worker, token: Token, user: User)
    | Write(write: Transfer)
    | FailWrite(write: Transfer)
    | FallBack(request: Request)
    | Restart(worker: Worker)

  predicate L1Enabled(c: Setup) {
    c.settings.l1Enabled && c.settings.l1Ttl > 0
  }

  predicate SharedEnabled(c: Setup) {
    c.settings.redisEnabled && c.settings.redisTtl > 0
  }

  ghost predicate Initial(s: State) {
    && (forall w :: s.l1(w) == []) && (forall t :: s.shared(t) == None)
    && s.loads == {} && s.writes == {} && s.requests == {} && s.confirmed == {} && s.served == {}
  }

  ghost predicate Enabled(c: Setup, s: State, step: Step) {
    match step
    case Pass(d) => forall x :: x in s.loads + s.writes ==> s.now + d <= x.since + c.delay
    case Fetch(_, t) => SharedEnabled(c) && s.shared(t).Some? && s.shared(t).value.expires > s.now
    case Land(x) => x in s.loads
    case Discard(x) => x in s.loads
    case Write(x) => x in s.writes
    case FailWrite(x) => x in s.writes
    case FallBack(r) => r in s.requests
    case _ => true
  }

  /* ----- Steps ----- */

  function LocalTime(c: Setup, s: State, w: Worker): Time {
    s.now + c.offset(w)
  }

  function WithL1(s: State, w: Worker, es: seq<Entry>): State {
    s.(l1 := (v: Worker) => if v == w then es else s.l1(v))
  }

  function Serve(s: State, t: Token, user: Option<User>): State {
    if user.Some? then s.(served := s.served + {Event(t, user.value, s.now)}) else s
  }

  /** One lookup in the worker's own cache. */
  function Lookup(c: Setup, s: State, w: Worker, t: Token, allowStale: bool): (State, Option<User>) {
    if !L1Enabled(c) then (s, None)
    else
      var (es, user) := Loaded(s.l1(w), t, allowStale, LocalTime(c, s, w));
      (WithL1(s, w, es), user)
  }

  function Keep(c: Setup, s: State, w: Worker, t: Token, user: User): State {
    if !L1Enabled(c) then s else WithL1(s, w, Stored(s.l1(w), NewEntry(c, s, w, t, user), LocalTime(c, s, w)))
  }

  function NewEntry(c: Setup, s: State, w: Worker, t: Token, user: User): Entry {
    var freshUntil := LocalTime(c, s, w) + c.settings.l1Ttl;
    Entry(t, freshUntil, freshUntil + c.settings.staleGrace, user)
  }

  /** A lookup for a fresh context; failing that, one for a stale context, to be used if there is nothing better. */
  function DoAsk(c: Setup, s: State, w: Worker, t: Token): State {
    var (s1, hit) := Lookup(c, s, w, t, false);
    if hit.Some? then Serve(s1, t, hit)
    else
      var (s2, stale) := Lookup(c, s1, w, t, true);
      s2.(requests := s2.requests + {Request(w, t, stale)})
  }

  /** A turn of the wait loop, which hands out a stale context as it is. */
  function DoPoll(c: Setup, s: State, w: Worker, t: Token): State {
    var (s1, hit) := Lookup(c, s, w, t, false);
    if hit.Some? then Serve(s1, t, hit)
    else
      var (s2, stale) := Lookup(c, s1, w, t, true);
      Serve(s2, t, stale)
  }

  function DoRefresh(c: Setup, s: State, w: Worker, t: Token, user: User): State {
    var s1 := Keep(c, s.(confirmed := s.confirmed + {Event(t, user, s.now)}), w, t, user);
    if SharedEnabled(c) then s1.(writes := s1.writes + {Transfer(w, t, user, s.now)}) else s1
  }

  function WithShared(s: State, t: Token, cached: Option<Cached>): State {
    s.(shared := u => if u == t then cached else s.shared(u))
  }

  ghost function Next(c: Setup, s: State, step: Step): State
    requires Enabled(c, s, step)
  {
    match step
    case Pass(d) => s.(now := s.now + d)
    case Ask(w, t) => DoAsk(c, s, w, t)
    case Poll(w, t) => DoPoll(c, s, w, t)
    case Fetch(w, t) => s.(loads := s.loads + {Transfer(w, t, s.shared(t).value.user, s.now)})
    case Land(x) => Serve(Keep(c, s.(loads := s.loads - {x}), x.worker, x.token, x.user), x.token, Some(x.user))
    case Discard(x) => WithShared(s.(loads := s.loads - {x}), x.token, None)
    case Refresh(w, t, user) => DoRefresh(c, s, w, t, user)
    case Write(x) => WithShared(s.(writes := s.writes - {x}), x.token, Some(Cached(x.user, s.now + c.settings.redisTtl)))
    case FailWrite(x) => s.(writes := s.writes - {x})
    case FallBack(r) => Serve(s.(requests := s.requests - {r}), r.token, r.stale)
    case Restart(w) => WithL1(s, w, [])
  }

  /* ----- The invariant ----- */

  /** Upstream confirmed the context for this very token, no earlier than the given time. */
  ghost predicate Recent(confirmed: set<Event>, t: Token, user: User, since: Time) {
    exists at :: at >= since && Event(t, user, at) in confirmed
  }

  ghost predicate YoungEntry(c: Setup, s: State, w: Worker, e: Entry) {
    Recent(s.confirmed, e.key, e.user, e.freshUntil - c.offset(w) - c.settings.l1Ttl - c.settings.redisTtl - 2 * c.delay)
  }

  ghost predicate YoungL1(c: Setup, s: State) {
    forall w :: Bounded(s.l1(w)) && forall e :: e in s.l1(w) ==> YoungEntry(c, s, w, e)
  }

  ghost predicate YoungShared(c: Setup, s: State) {
    forall t :: s.shared(t).Some? ==>
      Recent(s.confirmed, t, s.shared(t).value.user, s.shared(t).value.expires - c.settings.redisTtl - c.delay)
  }

  ghost predicate YoungLoads(c: Setup, s: State) {
    forall x :: x in s.loads ==>
      SharedEnabled(c) && x.since <= s.now <= x.since + c.delay
      && Recent(s.confirmed, x.token, x.user, x.since - c.settings.redisTtl - c.delay + 1)
  }

  ghost predicate YoungWrites(c: Setup, s: State) {
    forall x :: x in s.writes ==>
      x.since <= s.now <= x.since + c.delay && Recent(s.confirmed, x.token, x.user, x.since)
  }

  ghost predicate NothingStale(s: State) {
    forall r :: r in s.requests ==> r.stale == None
  }

  /** The bound: whatever is handed out was confirmed less than both lifetimes, and two delays, ago. */
  ghost predicate YoungServed(c: Setup, s: State) {
    forall v :: v in s.served ==>
      Recent(s.confirmed, v.token, v.user, v.at - c.settings.redisTtl - c.settings.l1Ttl - 2 * c.delay + 1)
  }

  ghost predicate Inv(c: Setup, s: State) {
    && YoungL1(c, s) && YoungShared(c, s) && YoungLoads(c, s) && YoungWrites(c, s)
    && NothingStale(s) && YoungServed(c, s)
  }

  /* ----- Every step keeps it ----- */

  lemma LookupKeeps(c: Setup, s: State, w: Worker, t: Token)
    requires Inv(c, s)
    ensures var (s1, hit) := Lookup(c, s, w, t, false);
      && Inv(c, s1) && Inv(c, Serve(s1, t, hit))
      && (hit == None ==> Lookup(c, s1, w, t, true).1 == None && Inv(c, Lookup(c, s1, w, t, true).0))
  {
    if L1Enabled(c) {
      var (s1, hit) := Lookup(c, s, w, t, false);
      LoadedKeeps(c, s, w, t);
      if hit.Some? {
        FindIsAnEntry(s.l1(w), t);
        assert YoungEntry(c, s, w, Find(s.l1(w), t).value);
      } else {
        StaleIsNeverFound(s.l1(w), t, LocalTime(c, s, w), LocalTime(c, s, w));
        assert s1.l1(w) == Loaded(s.l1(w), t, false, LocalTime(c, s, w)).0;
      }
    }
  }

  lemma LoadedKeeps(c: Setup, s: State, w: Worker, t: Token)
    requires YoungL1(c, s)
    ensures YoungL1(c, WithL1(s, w, Loaded(s.l1(w), t, false, LocalTime(c, s, w)).0))
  {
    PoppedIsGone(s.l1(w), t);
  }

  lemma AskKeeps(c: Setup, s: State, w: Worker, t: Token)
    requires Inv(c, s)
    ensures Inv(c, DoAsk(c, s, w, t)) && Inv(c, DoPoll(c, s, w, t))
  {
    LookupKeeps(c, s, w, t);
  }

  lemma KeepKeeps(c: Setup, s: State, w: Worker, t: Token, user: User)
    requires Inv(c, s) && Recent(s.confirmed, t, user, s.now - c.settings.redisTtl - 2 * c.delay)
    ensures Inv(c, Keep(c, s, w, t, user))
  {
    if L1Enabled(c) {
      var e := NewEntry(c, s, w, t, user);
      assert YoungEntry(c, s, w, e);
      StoredIsFound(s.l1(w), e, LocalTime(c, s, w));
      assert YoungL1(c, Keep(c, s, w, t, user));
    }
  }

  lemma RecentGrows(confirmed: set<Event>, more: set<Event>, t: Token, user: User, since: Time, earlier: Time)
    requires Recent(confirmed, t, user, since) && confirmed <= more && earlier <= since
    ensures Recent(more, t, user, earlier)
  {
  }

  lemma ConfirmKeeps(c: Setup, s: State, t: Token, user: User)
    requires Inv(c, s)
    ensures Inv(c, s.(confirmed := s.confirmed + {Event(t, user, s.now)}))
  {
  }

  lemma RefreshKeeps(c: Setup, s: State, w: Worker, t: Token, user: User)
    requires Inv(c, s)
    ensures Inv(c, DoRefresh(c, s, w, t, user))
  {
    ConfirmKeeps(c, s, t, user);
    var s1 := s.(confirmed := s.confirmed + {Event(t, user, s.now)});
    assert Event(t, user, s.now) in s1.confirmed;
    KeepKeeps(c, s1, w, t, user);
  }

  lemma LandKeeps(c: Setup, s: State, x: Transfer)
    requires Inv(c, s) && x in s.loads
    ensures Inv(c, Next(c, s, Land(x)))
  {
    var s1 := s.(loads := s.loads - {x});
    var since := x.since - c.settings.redisTtl - c.delay + 1;
    RecentGrows(s.confirmed, s.confirmed, x.token, x.user, since, s.now - c.settings.redisTtl - 2 * c.delay);
    KeepKeeps(c, s1, x.worker, x.token, x.user);
    RecentGrows(s.confirmed, s.confirmed, x.token, x.user, since, s.now - c.settings.redisTtl - c.settings.l1Ttl - 2 * c.delay + 1);
  }

  lemma WriteKeeps(c: Setup, s: State, x: Transfer)
    requires Inv(c, s) && x in s.writes
    ensures Inv(c, Next(c, s, Write(x)))
  {
  }

  lemma FetchKeeps(c: Setup, s: State, w: Worker, t: Token)
    requires Inv(c, s) && Enabled(c, s, Fetch(w, t))
    ensures Inv(c, Next(c, s, Fetch(w, t)))
  {
  }

  lemma NextKeeps(c: Setup, s: State, step: Step)
    requires Inv(c, s) && Enabled(c, s, step)
    ensures Inv(c, Next(c, s, step))
  {
    match step {
      case Ask(w, t) => AskKeeps(c, s, w, t);
      case Poll(w, t) => AskKeeps(c, s, w, t);
      case Fetch(w, t) => FetchKeeps(c, s, w, t);
      case Land(x) => LandKeeps(c, s, x);
      case Refresh(w, t, user) => RefreshKeeps(c, s, w, t, user);
      case Write(x) => WriteKeeps(c, s, x);
      case _ =>
    }
  }

  /* ----- What a worker holds, it serves ----- */

  /** A request is answered with a user from the worker's own cache exactly if that holds a fresh entry of the user. */
  lemma AskServesIff(c: Setup, s: State, w: Worker, t: Token, user: User)
    requires Inv(c, s) && L1Enabled(c) && Event(t, user, s.now) !in s.served
    ensures var s' := Next(c, s, Ask(w, t));
      Event(t, user, s.now) in s'.served <==> exists e :: e in s.l1(w) && Serves(e, t, user, false, LocalTime(c, s, w))
  {
    LookupKeeps(c, s, w, t);
    LoadedIff(s.l1(w), t, false, LocalTime(c, s, w), user);
  }

  /** An entry that is fresh is handed out, and neither upstream nor the shared store is asked. */
  lemma FreshIsServed(c: Setup, s: State, w: Worker, e: Entry)
    requires Inv(c, s) && L1Enabled(c) && e in s.l1(w) && e.freshUntil > LocalTime(c, s, w)
    ensures var s' := Next(c, s, Ask(w, e.key));
      && s'.served == s.served + {Event(e.key, e.user, s.now)}
      && s'.requests == s.requests && s'.l1(w) == s.l1(w)
  {
    LoadedIff(s.l1(w), e.key, false, LocalTime(c, s, w), e.user);
    assert Serves(e, e.key, e.user, false, LocalTime(c, s, w));
  }

  /** A request that finds no fresh entry goes on without a stale one; a turn of the wait loop finds what a request finds. */
  lemma AskMisses(c: Setup, s: State, w: Worker, t: Token)
    requires Inv(c, s)
    ensures var asked, polled := Next(c, s, Ask(w, t)), Next(c, s, Poll(w, t));
      var held := L1Enabled(c) && exists e :: e in s.l1(w) && e.key == t && e.freshUntil > LocalTime(c, s, w);
      && asked.requests == s.requests + (if held then {} else {Request(w, t, None)})
      && polled.requests == s.requests && polled.served == asked.served
      && (!held ==> asked.served == s.served)
  {
    LookupKeeps(c, s, w, t);
    var now := LocalTime(c, s, w);
    FindIsAnEntry(s.l1(w), t);
    if e :| e in s.l1(w) && e.key == t && e.freshUntil > now {
      FindIff(s.l1(w), e);
    }
  }

  /** What upstream confirms is on record, and on its way to the shared store if there is one. */
  lemma RefreshIsWritten(c: Setup, s: State, w: Worker, t: Token, user: User)
    ensures var s' := Next(c, s, Refresh(w, t, user));
      && s'.confirmed == s.confirmed + {Event(t, user, s.now)}
      && s'.writes == s.writes + if c.settings.redisEnabled && c.settings.redisTtl > 0 then {Transfer(w, t, user, s.now)} else {}
  {
  }

  /**
   What has been written to the shared store can be fetched by every worker until it expires, and no
   longer; the worker then serves it and holds it.
   */
  lemma WrittenIsServed(c: Setup, s: State, x: Transfer, d: nat, w: Worker)
    requires Inv(c, s) && x in s.writes && SharedEnabled(c) && Enabled(c, Next(c, s, Write(x)), Pass(d))
    ensures var s2 := Next(c, Next(c, s, Write(x)), Pass(d));
      && s2.now == s.now + d && s2.writes == s.writes - {x}
      && (Enabled(c, s2, Fetch(w, x.token)) <==> d < c.settings.redisTtl)
      && (d < c.settings.redisTtl ==>
            var load := Transfer(w, x.token, x.user, s2.now); var s3 := Next(c, s2, Fetch(w, x.token));
            && Enabled(c, s3, Land(load))
            && Next(c, s3, Land(load)).served == s.served + {Event(x.token, x.user, s2.now)}
            && Next(c, s3, Land(load)).loads == s.loads - {load}
            && (L1Enabled(c) ==> NewEntry(c, s3, w, x.token, x.user) in Next(c, s3, Land(load)).l1(w)))
  {
    WriteKeeps(c, s, x);
    NextKeeps(c, Next(c, s, Write(x)), Pass(d));
    var s2 := Next(c, Next(c, s, Write(x)), Pass(d));
    if d < c.settings.redisTtl {
      var load := Transfer(w, x.token, x.user, s2.now);
      var s3 := Next(c, s2, Fetch(w, x.token));
      FetchKeeps(c, s2, w, x.token);
      assert s3.loads - {load} == s.loads - {load};
      if L1Enabled(c) {
        StoredIsFound(s3.l1(w), NewEntry(c, s3, w, x.token, x.user), LocalTime(c, s3, w));
        FindIsAnEntry(Stored(s3.l1(w), NewEntry(c, s3, w, x.token, x.user), LocalTime(c, s3, w)), x.token);
      }
    }
  }

  /** A context that is not written, or thrown away by the reader, is gone; a request that falls back has nothing to fall back on. */
  lemma NotWritten(c: Setup, s: State, x: Transfer, r: Request)
    requires Inv(c, s)
    ensures r in s.requests ==>
      var s' := Next(c, s, FallBack(r)); s'.requests == s.requests - {r} && s'.served == s.served
    ensures x in s.writes ==>
      var s' := Next(c, s, FailWrite(x)); s'.writes == s.writes - {x} && forall t :: s'.shared(t) == s.shared(t)
    ensures x in s.loads ==>
      var s' := Next(c, s, Discard(x)); s'.loads == s.loads - {x} && forall t :: s'.shared(t) == if t == x.token then None else s.shared(t)
  {
  }

  /** The worker restarts, or stores another context for the same cookie. */
  predicate Disturbs(step: Step, w: Worker, t: Token) {
    match step
    case Restart(v) => v == w
    case Refresh(v, u, _) => v == w && u == t
    case Land(x) => x.worker == w && x.token == t
    case _ => false
  }

  lemma LookupHolds(c: Setup, s: State, w: Worker, t: Token, allowStale: bool, v: Worker, e: Entry)
    requires Inv(c, s) && e in s.l1(v) && e.freshUntil > LocalTime(c, s, v)
    ensures e in Lookup(c, s, w, t, allowStale).0.l1(v)
  {
    if v == w {
      var now := LocalTime(c, s, w);
      MissEvicts(s.l1(w), t, allowStale, now);
      LoadedIff(s.l1(w), t, allowStale, now, e.user);
      assert t == e.key ==> Serves(e, t, e.user, allowStale, now);
    }
  }

  lemma KeepHolds(c: Setup, s: State, w: Worker, t: Token, user: User, v: Worker, e: Entry)
    requires Inv(c, s) && e in s.l1(v) && e.freshUntil > LocalTime(c, s, v) && e.staleUntil >= e.freshUntil
    requires (v != w || t != e.key) && |s.l1(v)| < MAX_ENTRIES
    ensures e in Keep(c, s, w, t, user).l1(v)
  {
    if v == w && L1Enabled(c) {
      var now := LocalTime(c, s, w);
      StoredKeeps(s.l1(w), NewEntry(c, s, w, t, user), now, e);
      UnexpiredIsAFilter(s.l1(w), now);
    }
  }

  /** A worker that has room keeps a fresh entry, whatever else happens. */
  lemma FreshIsHeld(c: Setup, s: State, step: Step, w: Worker, e: Entry)
    requires Inv(c, s) && Enabled(c, s, step) && !Disturbs(step, w, e.key)
    requires e in s.l1(w) && e.freshUntil > LocalTime(c, s, w) && e.staleUntil >= e.freshUntil && |s.l1(w)| < MAX_ENTRIES
    ensures e in Next(c, s, step).l1(w)
  {
    match step {
      case Ask(v, t) => LookupsHold(c, s, v, t, w, e);
      case Poll(v, t) => LookupsHold(c, s, v, t, w, e);
      case Land(x) => KeepHolds(c, s.(loads := s.loads - {x}), x.worker, x.token, x.user, w, e);
      case Refresh(v, t, user) =>
        ConfirmKeeps(c, s, t, user);
        KeepHolds(c, s.(confirmed := s.confirmed + {Event(t, user, s.now)}), v, t, user, w, e);
      case _ =>
    }
  }

  lemma LookupsHold(c: Setup, s: State, v: Worker, t: Token, w: Worker, e: Entry)
    requires Inv(c, s) && e in s.l1(w) && e.freshUntil > LocalTime(c, s, w)
    ensures e in DoAsk(c, s, v, t).l1(w) && e in DoPoll(c, s, v, t).l1(w)
  {
    LookupHolds(c, s, v, t, false, w, e);
    LookupKeeps(c, s, v, t);
    var (s1, hit) := Lookup(c, s, v, t, false);
    if hit == None {
      LookupHolds(c, s1, v, t, true, w, e);
    }
  }

  lemma RefreshedIsHeld(c: Setup, s: State, w: Worker, t: Token, user: User)
    requires Inv(c, s) && L1Enabled(c)
    ensures NewEntry(c, s, w, t, user) in Next(c, s, Refresh(w, t, user)).l1(w)
  {
    var e := NewEntry(c, s, w, t, user);
    StoredIsFound(s.l1(w), e, LocalTime(c, s, w));
    FindIsAnEntry(Stored(s.l1(w), e, LocalTime(c, s, w)), t);
  }

  /* ----- Every run ----- */

  ghost predicate CanStep(c: Setup, s: State, s': State) {
    exists step :: Enabled(c, s, step) && s' == Next(c, s, step)
  }

  ghost predicate IsRun(c: Setup, states: seq<State>) {
    && states != [] && Initial(states[0])
    && forall i :: 0 <= i < |states| - 1 ==> CanStep(c, states[i], states[i + 1])
  }

  lemma {:induction false} RunKeeps(c: Setup, states: seq<State>)
    requires IsRun(c, states)
    ensures Inv(c, states[|states| - 1])
  {
    var n := |states| - 1;
    if n > 0 {
      RunKeeps(c, states[..n]);
      assert CanStep(c, states[n - 1], states[n]);
      var step :| Enabled(c, states[n - 1], step) && states[n] == Next(c, states[n - 1], step);
      NextKeeps(c, states[n - 1], step);
    }
  }

  /** The same, with the steps that were taken. */
  ghost predicate IsRunBy(c: Setup, states: seq<State>, steps: seq<Step>) {
    && |states| == |steps| + 1 && Initial(states[0])
    && forall i :: 0 <= i < |steps| ==> Enabled(c, states[i], steps[i]) && states[i + 1] == Next(c, states[i], steps[i])
  }

  lemma {:induction false} InvAlong(c: Setup, states: seq<State>, steps: seq<Step>, k: nat)
    requires IsRunBy(c, states, steps) && k < |states|
    ensures Inv(c, states[k])
  {
    if k > 0 {
      InvAlong(c, states, steps, k - 1);
      NextKeeps(c, states[k - 1], steps[k - 1]);
    }
  }

  lemma {:induction false} TimePasses(c: Setup, states: seq<State>, steps: seq<Step>, i: nat, k: nat)
    requires IsRunBy(c, states, steps) && i <= k < |states|
    ensures states[i].now <= states[k].now
    decreases k - i
  {
    if i < k {
      TimePasses(c, states, steps, i + 1, k);
    }
  }

  /** From state j to state k the worker has room and keeps the context of the cookie. */
  ghost predicate Undisturbed(states: seq<State>, steps: seq<Step>, j: nat, k: nat, w: Worker, t: Token) {
    && j <= k < |states| && k <= |steps|
    && forall i :: j <= i < k ==> !Disturbs(steps[i], w, t) && |states[i].l1(w)| < MAX_ENTRIES
  }

  lemma {:induction false} HeldAlong(c: Setup, states: seq<State>, steps: seq<Step>, j: nat, k: nat, w: Worker, e: Entry)
    requires IsRunBy(c, states, steps) && Undisturbed(states, steps, j, k, w, e.key)
    requires e in states[j].l1(w) && e.staleUntil >= e.freshUntil > LocalTime(c, states[k], w)
    ensures e in states[k].l1(w)
    decreases k
  {
    if j < k {
      TimePasses(c, states, steps, k - 1, k);
      HeldAlong(c, states, steps, j, k - 1, w, e);
      HeldOnce(c, states, steps, k - 1, w, e);
    }
  }

  lemma HeldOnce(c: Setup, states: seq<State>, steps: seq<Step>, i: nat, w: Worker, e: Entry)
    requires IsRunBy(c, states, steps) && i < |steps| && !Disturbs(steps[i], w, e.key) && |states[i].l1(w)| < MAX_ENTRIES
    requires e in states[i].l1(w) && e.staleUntil >= e.freshUntil > LocalTime(c, states[i], w)
    ensures e in states[i + 1].l1(w)
  {
    InvAlong(c, states, steps, i);
    FreshIsHeld(c, states[i], steps[i], w, e);
  }

  /**
   In every run, what a worker learned from upstream it hands out on its own for as long as the
   context is fresh, unless the worker restarts, stores another one for the cookie, or is full.
   */
  lemma RefreshedIsServed(c: Setup, states: seq<State>, steps: seq<Step>, j: nat, k: nat, w: Worker, t: Token, user: User)
    requires IsRunBy(c, states, steps) && L1Enabled(c) && j < |steps| && Undisturbed(states, steps, j + 1, k, w, t)
    requires steps[j] == Refresh(w, t, user) && states[k].now < states[j].now + c.settings.l1Ttl
    ensures var s' := Next(c, states[k], Ask(w, t));
      s'.served == states[k].served + {Event(t, user, states[k].now)} && s'.requests == states[k].requests
  {
    InvAlong(c, states, steps, j);
    RefreshedIsHeld(c, states[j], w, t, user);
    HeldAlong(c, states, steps, j + 1, k, w, NewEntry(c, states[j], w, t, user));
    InvAlong(c, states, steps, k);
    FreshIsServed(c, states[k], w, NewEntry(c, states[j], w, t, user));
  }

  /**
   In every run, whatever is handed out from a cache was confirmed by upstream for the same cookie
   less than both lifetimes and two delays ago. The grace period adds nothing to it, as no stale context is ever
   handed out, and no worker holds more than 4096 contexts.
   */
  lemma ServedIsYoung(c: Setup, states: seq<State>)
    requires IsRun(c, states)
    ensures var s := states[|states| - 1];
      && (forall v :: v in s.served ==> exists at :: at > v.at - c.settings.redisTtl - c.settings.l1Ttl - 2 * c.delay && Event(v.token, v.user, at) in s.confirmed)
      && (forall r :: r in s.requests ==> r.stale == None)
      && (forall w :: |s.l1(w)| <= 4096)
  {
    RunKeeps(c, states);
    var s := states[|states| - 1];
    forall v | v in s.served ensures exists at :: at > v.at - c.settings.redisTtl - c.settings.l1Ttl - 2 * c.delay && Event(v.token, v.user, at) in s.confirmed {
      assert Recent(s.confirmed, v.token, v.user, v.at - c.settings.redisTtl - c.settings.l1Ttl - 2 * c.delay + 1);
      var at :| at >= v.at - c.settings.redisTtl - c.settings.l1Ttl - 2 * c.delay + 1 && Event(v.token, v.user, at) in s.confirmed;
      assert at > v.at - c.settings.redisTtl - c.settings.l1Ttl - 2 * c.delay && Event(v.token, v.user, at) in s.confirmed;
    }
  }
}
