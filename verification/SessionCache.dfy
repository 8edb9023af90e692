/** A worker's own cache of session contexts: a dictionary in order of insertion, bounded in size. */
module SessionCache {
  import opened Wire

  /** A cookie header; the digest that hides it is taken to be different for different cookies. */
  type Token = string
  type User = string
  type Time = int

  const MAX_ENTRIES := 4096

  datatype Entry = Entry(key: Token, freshUntil: Time, staleUntil: Time, user: User)

  datatype Settings = Settings(l1Enabled: bool, l1Ttl: nat, staleGrace: nat, redisEnabled: bool, redisTtl: nat)

  /* ----- The dictionary ----- */

  ghost predicate DistinctKeys(es: seq<Entry>) {
    forall i, j :: 0 <= i < j < |es| ==> es[i].key != es[j].key
  }

  function Find(es: seq<Entry>, key: Token): Option<Entry> {
    if es == [] then None else if es[0].key == key then Some(es[0]) else Find(es[1..], key)
  }

  /** A key that is there already keeps its place. */
  function Put(es: seq<Entry>, e: Entry): seq<Entry> {
    if es == [] then [e] else if es[0].key == e.key then [e] + es[1..] else [es[0]] + Put(es[1..], e)
  }

  function Popped(es: seq<Entry>, key: Token): seq<Entry> {
    if es == [] then [] else if es[0].key == key then es[1..] else [es[0]] + Popped(es[1..], key)
  }

  function StaleKeys(es: seq<Entry>, now: Time): seq<Token> {
    if es == [] then [] else (if es[0].staleUntil <= now then [es[0].key] else []) + StaleKeys(es[1..], now)
  }

  /* ----- What loading and storing do ----- */

  function Loaded(es: seq<Entry>, key: Token, allowStale: bool, now: Time): (seq<Entry>, Option<User>) {
    var entry := Find(es, key);
    if entry == None then (es, None)
    else if entry.value.freshUntil > now || (allowStale && entry.value.staleUntil > now) then (es, Some(entry.value.user))
    else (Popped(es, key), None)
  }

  function Unexpired(es: seq<Entry>, now: Time): seq<Entry> {
    if es == [] then []
    else if es[0].staleUntil <= now then Unexpired(es[1..], now)
    else [es[0]] + Unexpired(es[1..], now)
  }

  function Newest(es: seq<Entry>): seq<Entry> {
    if |es| <= MAX_ENTRIES then es else es[|es| - MAX_ENTRIES..]
  }

  function Stored(es: seq<Entry>, e: Entry, now: Time): seq<Entry> {
    if |Put(es, e)| <= MAX_ENTRIES then Put(es, e) else Newest(Unexpired(Put(es, e), now))
  }

  /* ----- Facts about the dictionary ----- */

  lemma {:induction false} FindIsAnEntry(es: seq<Entry>, key: Token)
    ensures Find(es, key).Some? ==> Find(es, key).value in es && Find(es, key).value.key == key
    ensures Find(es, key) == None ==> forall e :: e in es ==> e.key != key
  {
    if es != [] && es[0].key != key {
      FindIsAnEntry(es[1..], key);
    }
  }

  lemma {:induction false} EntryIsFound(es: seq<Entry>, i: nat)
    requires DistinctKeys(es) && i < |es|
    ensures Find(es, es[i].key) == Some(es[i])
  {
    if i > 0 {
      EntryIsFound(es[1..], i - 1);
    }
  }

  lemma {:induction false} PutOverwritesOrAppends(es: seq<Entry>, e: Entry)
    ensures e in Put(es, e) && forall f :: f in Put(es, e) ==> f == e || f in es
    ensures if Find(es, e.key) == None then Put(es, e) == es + [e] else |Put(es, e)| == |es|
  {
    if es != [] && es[0].key != e.key {
      PutOverwritesOrAppends(es[1..], e);
    }
  }

  lemma {:induction false} PutIsLookedUp(es: seq<Entry>, e: Entry, key: Token)
    ensures Find(Put(es, e), key) == if key == e.key then Some(e) else Find(es, key)
  {
    if es != [] && es[0].key != e.key {
      PutIsLookedUp(es[1..], e, key);
      assert Put(es, e)[1..] == Put(es[1..], e);
    } else if es != [] {
      assert Put(es, e)[1..] == es[1..];
    }
  }

  lemma {:induction false} PutKeepsKeysDistinct(es: seq<Entry>, e: Entry)
    requires DistinctKeys(es)
    ensures DistinctKeys(Put(es, e))
  {
    if es != [] && es[0].key != e.key {
      PutKeepsKeysDistinct(es[1..], e);
      PutOverwritesOrAppends(es[1..], e);
      assert forall f :: f in es[1..] ==> f.key != es[0].key;
    } else if es != [] {
      assert Put(es, e) == [e] + es[1..];
    }
  }

  lemma {:induction false} PoppedIsGone(es: seq<Entry>, key: Token)
    requires DistinctKeys(es)
    ensures DistinctKeys(Popped(es, key)) && |Popped(es, key)| <= |es|
    ensures forall f :: f in Popped(es, key) <==> f in es && f.key != key
  {
    if es != [] {
      assert es == [es[0]] + es[1..];
      if es[0].key != key {
        PoppedIsGone(es[1..], key);
      } else {
        assert forall f :: f in es[1..] ==> f.key != key;
      }
    }
  }

  lemma {:induction false} UnexpiredIsAFilter(es: seq<Entry>, now: Time)
    requires DistinctKeys(es)
    ensures DistinctKeys(Unexpired(es, now)) && |Unexpired(es, now)| <= |es|
    ensures forall f :: f in Unexpired(es, now) <==> f in es && f.staleUntil > now
  {
    if es != [] {
      assert es == [es[0]] + es[1..];
      UnexpiredIsAFilter(es[1..], now);
    }
  }

  /** In a dictionary, being found and being an entry are the same. */
  lemma FindIff(es: seq<Entry>, e: Entry)
    requires DistinctKeys(es)
    ensures Find(es, e.key) == Some(e) <==> e in es
  {
  }

  /* ----- What a store promises ----- */

  /** A cache as stores leave it. */
  ghost predicate Bounded(es: seq<Entry>) {
    DistinctKeys(es) && |es| <= MAX_ENTRIES
  }

  lemma StoreOverfull(es: seq<Entry>, e: Entry, now: Time)
    requires Bounded(es) && e.staleUntil > now && |Put(es, e)| > MAX_ENTRIES
    ensures var live := Unexpired(es + [e], now);
      && Put(es, e) == es + [e] && DistinctKeys(es + [e]) && DistinctKeys(live) && Find(es, e.key) == None
      && live != [] && live[|live| - 1] == e && |live| <= MAX_ENTRIES + 1
      && Stored(es, e, now) == if |live| <= MAX_ENTRIES then live else live[1..]
  {
    PutOverwritesOrAppends(es, e);
    PutKeepsKeysDistinct(es, e);
    UnexpiredIsAFilter(es + [e], now);
    UnexpiredAppend(es, e, now);
  }

  /** After a store the cache is bounded, the stored entry is found, and nothing else is new. */
  lemma StoredIsFound(es: seq<Entry>, e: Entry, now: Time)
    requires Bounded(es) && e.staleUntil > now
    ensures var after := Stored(es, e, now);
      && Bounded(after) && Find(after, e.key) == Some(e)
      && forall f :: f in after ==> f == e || f in es
  {
    PutIsLookedUp(es, e, e.key);
    PutKeepsKeysDistinct(es, e);
    PutOverwritesOrAppends(es, e);
    if |Put(es, e)| > MAX_ENTRIES {
      StoreOverfull(es, e, now);
      LiveIsKnown(es, e, now);
      LiveIsFound(es, e, Unexpired(es + [e], now), Stored(es, e, now));
    }
  }

  lemma LiveIsFound(es: seq<Entry>, e: Entry, live: seq<Entry>, after: seq<Entry>)
    requires DistinctKeys(live) && live != [] && live[|live| - 1] == e && |live| <= MAX_ENTRIES + 1
    requires after == if |live| <= MAX_ENTRIES then live else live[1..]
    requires forall f :: f in live ==> f == e || f in es
    ensures Bounded(after) && Find(after, e.key) == Some(e) && forall f :: f in after ==> f == e || f in es
  {
    LastIsFound(after, live, e);
  }

  lemma LiveIsKnown(es: seq<Entry>, e: Entry, now: Time)
    requires DistinctKeys(es + [e])
    ensures forall f :: f in Unexpired(es + [e], now) ==> f == e || f in es
  {
    UnexpiredIsAFilter(es + [e], now);
  }

  /** The last entry is found, whether or not the first one is dropped. */
  lemma LastIsFound(after: seq<Entry>, live: seq<Entry>, e: Entry)
    requires DistinctKeys(live) && live != [] && live[|live| - 1] == e
    requires after == live || (|live| > 1 && after == live[1..])
    ensures DistinctKeys(after) && Find(after, e.key) == Some(e) && forall f :: f in after ==> f in live
  {
    assert after[|after| - 1] == e;
    EntryIsFound(after, |after| - 1);
  }

  /** The first of the entries that have not expired. */
  ghost predicate Oldest(es: seq<Entry>, f: Entry, now: Time) {
    Unexpired(es, now) != [] && Unexpired(es, now)[0] == f
  }

  /**
   A store loses no other entry that has not expired, except the oldest one if all 4096 of them
   are live and the key is new.
   */
  lemma StoredKeeps(es: seq<Entry>, e: Entry, now: Time, f: Entry)
    requires Bounded(es) && e.staleUntil > now && f in es && f.key != e.key && f.staleUntil > now
    ensures f in Stored(es, e, now)
      <==> !(Oldest(es, f, now) && |Unexpired(es, now)| == MAX_ENTRIES && Find(es, e.key) == None)
  {
    PutIsLookedUp(es, e, f.key);
    PutKeepsKeysDistinct(es, e);
    PutOverwritesOrAppends(es, e);
    FindIff(es, f);
    FindIff(Put(es, e), f);
    if |Put(es, e)| > MAX_ENTRIES {
      StoreOverfull(es, e, now);
      UnexpiredAppend(es, e, now);
      UnexpiredIsAFilter(es, now);
      var live := Unexpired(es + [e], now);
      UnexpiredIsAFilter(es + [e], now);
      var i :| 0 <= i < |live| && live[i] == f;
      assert |live| == MAX_ENTRIES + 1 ==> (f in live[1..] <==> i != 0);
    } else {
      UnexpiredIsAFilter(es, now);
    }
  }

  lemma {:induction false} UnexpiredAppend(es: seq<Entry>, e: Entry, now: Time)
    ensures Unexpired(es + [e], now) == Unexpired(es, now) + if e.staleUntil <= now then [] else [e]
  {
    if es != [] {
      UnexpiredAppend(es[1..], e, now);
      assert (es + [e])[1..] == es[1..] + [e];
    }
  }

  /* ----- What a load promises ----- */

  /** An entry may be handed out while it is fresh, and during its grace period if that is allowed. */
  ghost predicate Serves(e: Entry, key: Token, user: User, allowStale: bool, now: Time) {
    e.key == key && e.user == user && (e.freshUntil > now || (allowStale && e.staleUntil > now))
  }

  /** A load answers with a user exactly if an entry may be handed out, and then it changes nothing. */
  lemma LoadedIff(es: seq<Entry>, key: Token, allowStale: bool, now: Time, user: User)
    requires DistinctKeys(es)
    ensures var (after, found) := Loaded(es, key, allowStale, now);
      && (found == Some(user) <==> exists e :: e in es && Serves(e, key, user, allowStale, now))
      && (found == Some(user) ==> after == es)
  {
    FindIsAnEntry(es, key);
    if e :| e in es && Serves(e, key, user, allowStale, now) {
      FindIff(es, e);
    }
  }

  /** A load that answers with nothing evicts what it could not hand out, and nothing else. */
  lemma MissEvicts(es: seq<Entry>, key: Token, allowStale: bool, now: Time)
    requires DistinctKeys(es)
    ensures var (after, found) := Loaded(es, key, allowStale, now);
      found == None ==> forall e :: e in after <==> e in es && e.key != key
  {
    PoppedIsGone(es, key);
    FindIsAnEntry(es, key);
    if Loaded(es, key, allowStale, now).1 == None && Find(es, key) == None {
      assert forall e :: e in es ==> e.key != key;
    }
  }

  /** What was stored is handed out as long as it is fresh, and no longer, be other keys stored or not. */
  lemma LoadAfterStore(es: seq<Entry>, e: Entry, now: Time, later: Time)
    requires Bounded(es) && e.staleUntil > now
    ensures Loaded(Stored(es, e, now), e.key, false, later).1 == if e.freshUntil > later then Some(e.user) else None
    ensures Loaded(Stored(es, e, now), e.key, true, later).1
      == if e.freshUntil > later || e.staleUntil > later then Some(e.user) else None
  {
    StoredIsFound(es, e, now);
  }

  /* ----- The grace period ----- */

  /**
   A lookup that insists on fresh entries evicts one that is merely stale. The lookup that accepts
   stale entries comes right after it, and so it never finds any.
   */
  lemma StaleIsNeverFound(es: seq<Entry>, key: Token, now: Time, later: Time)
    requires DistinctKeys(es)
    ensures var (after, found) := Loaded(es, key, false, now);
      found == None ==> Loaded(after, key, true, later) == (after, None)
  {
    var (after, found) := Loaded(es, key, false, now);
    if found == None && Find(es, key).Some? {
      PoppedIsGone(es, key);
      FindIsAnEntry(after, key);
    }
  }

  /* ----- The cache as an object ----- */

  function Without(es: seq<Entry>, keys: set<Token>): seq<Entry> {
    if es == [] then [] else if es[0].key in keys then Without(es[1..], keys) else [es[0]] + Without(es[1..], keys)
  }

  lemma {:induction false} PopOneMore(es: seq<Entry>, keys: set<Token>, key: Token)
    requires DistinctKeys(es)
    ensures Popped(Without(es, keys), key) == Without(es, keys + {key})
  {
    if es != [] {
      PopOneMore(es[1..], keys, key);
      if es[0].key == key {
        WithoutAbsent(es[1..], keys, key);
        assert Without(es[1..], keys + {key}) == Without(es[1..], keys);
        PopAbsent(Without(es[1..], keys), key);
      }
      assert es[0].key !in keys ==> Without(es, keys)[1..] == Without(es[1..], keys);
    }
  }

  lemma {:induction false} WithoutAbsent(es: seq<Entry>, keys: set<Token>, key: Token)
    requires forall i :: 0 <= i < |es| ==> es[i].key != key
    ensures Without(es, keys + {key}) == Without(es, keys)
    ensures forall i :: 0 <= i < |Without(es, keys)| ==> Without(es, keys)[i].key != key
  {
    if es != [] {
      WithoutAbsent(es[1..], keys, key);
    }
  }

  lemma {:induction false} PopAbsent(es: seq<Entry>, key: Token)
    requires forall i :: 0 <= i < |es| ==> es[i].key != key
    ensures Popped(es, key) == es
  {
    if es != [] {
      PopAbsent(es[1..], key);
    }
  }

  lemma {:induction false} WithoutNone(es: seq<Entry>)
    ensures Without(es, {}) == es
  {
    if es != [] {
      WithoutNone(es[1..]);
    }
  }

  lemma {:induction false} WithoutStale(es: seq<Entry>, keys: set<Token>, now: Time)
    requires forall i :: 0 <= i < |es| ==> (es[i].key in keys <==> es[i].staleUntil <= now)
    ensures Without(es, keys) == Unexpired(es, now)
  {
    if es != [] {
      WithoutStale(es[1..], keys, now);
    }
  }

  lemma {:induction false} StaleKeysAreStale(es: seq<Entry>, now: Time)
    requires DistinctKeys(es)
    ensures forall i :: 0 <= i < |es| ==> (es[i].key in StaleKeys(es, now) <==> es[i].staleUntil <= now)
    ensures forall k :: k in StaleKeys(es, now) ==> exists i :: 0 <= i < |es| && es[i].key == k
  {
    if es != [] {
      StaleKeysAreStale(es[1..], now);
      assert forall i :: 1 <= i < |es| ==> es[i] == es[1..][i - 1];
    }
  }

  class L1Cache {
    const settings: Settings
    var entries: seq<Entry>

    constructor (s: Settings)
      ensures settings == s && entries == []
    {
      settings, entries := s, [];
    }

    predicate Enabled() {
      settings.l1Enabled && settings.l1Ttl > 0
    }

    method Load(token: Token, allowStale: bool, now: Time) returns (user: Option<User>)
      modifies this
      ensures (entries, user) == if settings.l1Enabled && settings.l1Ttl > 0 then Loaded(old(entries), token, allowStale, now) else (old(entries), None)
    {
      user := None;
      if !Enabled() {
        return;
      }
      var entry := Find(entries, token);
      if entry == None {
        return;
      }
      if entry.value.freshUntil > now {
        return Some(entry.value.user);
      }
      if allowStale && entry.value.staleUntil > now {
        return Some(entry.value.user);
      }
      entries := Popped(entries, token);
    }

    method Store(token: Token, user: User, now: Time)
      requires DistinctKeys(entries)
      modifies this
      ensures entries == if !settings.l1Enabled || settings.l1Ttl == 0 then old(entries) else
        Stored(old(entries), Entry(token, now + settings.l1Ttl, now + settings.l1Ttl + settings.staleGrace, user), now)
    {
      if !Enabled() {
        return;
      }
      var e := Entry(token, now + settings.l1Ttl, now + settings.l1Ttl + settings.staleGrace, user);
      PutKeepsKeysDistinct(entries, e);
      entries := Put(entries, e);
      if |entries| <= MAX_ENTRIES {
        return;
      }
      DropExpired(now);
      while |entries| > MAX_ENTRIES
        invariant Newest(entries) == Newest(Unexpired(Put(old(entries), e), now))
      {
        entries := entries[1..];
      }
    }

    method DropExpired(now: Time)
      requires DistinctKeys(entries)
      modifies this
      ensures entries == Unexpired(old(entries), now)
    {
      var staleKeys := StaleKeys(entries, now);
      StaleKeysAreStale(entries, now);
      WithoutNone(entries);
      ghost var gone: set<Token> := {};
      for i := 0 to |staleKeys|
        invariant gone == (set j | 0 <= j < i :: staleKeys[j])
        invariant entries == Without(old(entries), gone)
      {
        PopOneMore(old(entries), gone, staleKeys[i]);
        entries := Popped(entries, staleKeys[i]);
        gone := gone + {staleKeys[i]};
      }
      WithoutStale(old(entries), gone, now);
    }
  }
}
