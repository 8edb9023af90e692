/** What the rewriting of a command promises: its meaning is kept, and doing it twice changes nothing more. */
module CommandRewrites {
  import opened Wire
  import opened Strings
  import opened CommandTokens
  import opened CommandItems

  /* ----- The whole rewriting, on items ----- */

  function RewriteItems(lib: UrlLibrary, target: Target, items: Items): Result<Items>
    requires items != []
  {
    var renamed := UrlItems(lib, target.hostname, items);
    if renamed.Err? || renamed.value == [] then renamed
    else Ok(FinishItems(target, renamed.value))
  }

  function FinishItems(target: Target, items: Items): Items
    requires items != []
  {
    SetImage(UpsertItem(target, items), target.image)
  }

  lemma AssignmentKeepsDash(lib: UrlLibrary, hostname: string, text: string)
    requires RewriteAssignment(lib, hostname, text).Ok?
    ensures Dashed(RewriteAssignment(lib, hostname, text).value) <==> Dashed(text)
  {
  }

  lemma {:induction false} UrlItemsAreFormed(lib: UrlLibrary, hostname: string, items: Items)
    requires AllFormed(items) && UrlItems(lib, hostname, items).Ok?
    ensures var r := UrlItems(lib, hostname, items).value;
      |r| == |items| && AllFormed(r) && forall i :: 0 <= i < |r| && !items[i].EnvPair? && !items[i].EnvJoined? ==> r[i] == items[i]
  {
    if items != [] {
      UrlItemsAreFormed(lib, hostname, items[1..]);
      if items[0].EnvPair? {
        AssignmentKeepsDash(lib, hostname, items[0].text);
      }
    }
  }

  predicate Proper(target: Target) {
    !Dashed(target.image) && !Dashed(target.hostname)
  }

  lemma {:induction false} ReplaceItemIsFormed(hostname: string, entry: string, items: Items)
    requires AllFormed(items) && !Dashed(entry) && ReplaceItem(hostname, entry, items).Some?
    ensures var r := ReplaceItem(hostname, entry, items).value;
      |r| == |items| && AllFormed(r) && forall i :: 0 <= i < |r| && items[i].Word? ==> r[i] == items[i]
  {
    if !Matches(hostname, items[0]) {
      ReplaceItemIsFormed(hostname, entry, items[1..]);
    }
  }

  lemma {:induction false} InsertIsFormed(items: Items, item: Item)
    requires AllFormed(items) && EndsInImage(items) && Formed(item)
    ensures AllFormed(InsertBeforeLast(items, item)) && EndsInImage(InsertBeforeLast(items, item))
  {
    if |items| > 1 {
      InsertIsFormed(items[1..], item);
    }
  }

  lemma EntryUndashed(target: Target)
    requires Proper(target)
    ensures !Dashed(EntryFor(target.hostname, target.ip))
  {
    var entry := EntryFor(target.hostname, target.ip);
    assert entry[0] == if target.hostname == "" then ':' else target.hostname[0];
  }

  lemma UpsertIsFormed(target: Target, items: Items)
    requires AllFormed(items) && EndsInImage(items) && Proper(target)
    ensures AllFormed(UpsertItem(target, items)) && EndsInImage(UpsertItem(target, items))
  {
    var entry := EntryFor(target.hostname, target.ip);
    EntryUndashed(target);
    if ReplaceItem(target.hostname, entry, items).Some? {
      ReplaceItemIsFormed(target.hostname, entry, items);
    } else {
      InsertIsFormed(items, HostJoined(entry));
    }
  }

  lemma {:induction false} SetImageIsFormed(items: Items, image: string)
    requires AllFormed(items) && EndsInImage(items) && !Dashed(image)
    ensures AllFormed(SetImage(items, image)) && EndsInImage(SetImage(items, image))
  {
    Undashed(image);
    if |items| > 1 {
      SetImageIsFormed(items[1..], image);
    }
  }

  /** A plain command is rewritten item by item. */
  lemma RetargetOnItems(lib: UrlLibrary, target: Target, ts: Tokens)
    requires Plain(ts) && Proper(target)
    ensures Parse(ts) != [] && Retarget(lib, target, ts) == Flattened(RewriteItems(lib, target, Parse(ts)))
    ensures var r := RewriteItems(lib, target, Parse(ts)); r.Ok? ==> AllFormed(r.value) && EndsInImage(r.value)
  {
    ParsePlain(ts);
    var items := Parse(ts);
    UrlPass(lib, target.hostname, items);
    var renamed := UrlItems(lib, target.hostname, items);
    if renamed.Ok? {
      UrlItemsAreFormed(lib, target.hostname, items);
      FinishPass(target, renamed.value);
    }
  }

  lemma FinishPass(target: Target, items: Items)
    requires AllFormed(items) && EndsInImage(items) && Proper(target)
    ensures FlatAll(items) != [] && Finish(target, FlatAll(items)) == Ok(FlatAll(FinishItems(target, items)))
    ensures AllFormed(FinishItems(target, items)) && EndsInImage(FinishItems(target, items))
  {
    UpsertPass(target, items);
    UpsertIsFormed(target, items);
    ImagePass(UpsertItem(target, items), target.image);
    SetImageIsFormed(UpsertItem(target, items), target.image);
  }

  /* ----- The environment ----- */

  function RewriteOne(lib: UrlLibrary, hostname: string, a: Assignment): Assignment {
    if a.key !in CENTRAL then a
    else
      var url := RewriteUrlHost(lib, hostname, a.value);
      if url.Ok? then Assignment(a.key, url.value) else a
  }

  function RewriteEach(lib: UrlLibrary, hostname: string, env: seq<Assignment>): seq<Assignment> {
    if env == [] then [] else [RewriteOne(lib, hostname, env[0])] + RewriteEach(lib, hostname, env[1..])
  }

  lemma AssignmentRewritten(lib: UrlLibrary, hostname: string, text: string)
    requires RewriteAssignment(lib, hostname, text).Ok?
    ensures ParseAssignment(RewriteAssignment(lib, hostname, text).value)
      == if ParseAssignment(text).Ok? then Ok(RewriteOne(lib, hostname, ParseAssignment(text).value)) else Err(BadAssignment)
  {
    var (key, found, value) := Cut(text, '=');
    if found && key in CENTRAL {
      var url := RewriteUrlHost(lib, hostname, value).value;
      CutAt(key, '=', url);
    }
  }

  lemma {:induction false} UrlsKeepTheRest(lib: UrlLibrary, hostname: string, items: Items)
    requires UrlItems(lib, hostname, items).Ok? && EnvOf(items).Ok?
    ensures var r := UrlItems(lib, hostname, items).value;
      && EnvOf(r) == Ok(RewriteEach(lib, hostname, EnvOf(items).value))
      && HostsOf(r) == HostsOf(items) && OthersOf(r) == OthersOf(items) && NameOf(r) == NameOf(items)
  {
    if items != [] {
      UrlsKeepTheRest(lib, hostname, items[1..]);
      if items[0].EnvPair? || items[0].EnvJoined? {
        AssignmentRewritten(lib, hostname, items[0].text);
      }
    }
  }

  /* ----- The host entries ----- */

  /** The first entry for the host is replaced; without one, an entry is added at the end. */
  function UpsertHost(hostname: string, entry: string, hosts: seq<string>): seq<string> {
    if hosts == [] then [entry]
    else if IsHostEntry(hostname, hosts[0]) then [entry] + hosts[1..]
    else [hosts[0]] + UpsertHost(hostname, entry, hosts[1..])
  }

  lemma {:induction false} ReplaceKeepsTheRest(hostname: string, entry: string, items: Items)
    requires ReplaceItem(hostname, entry, items).Some?
    ensures var r := ReplaceItem(hostname, entry, items).value;
      && HostsOf(r) == UpsertHost(hostname, entry, HostsOf(items))
      && EnvOf(r) == EnvOf(items) && OthersOf(r) == OthersOf(items) && NameOf(r) == NameOf(items)
  {
    if !Matches(hostname, items[0]) {
      ReplaceKeepsTheRest(hostname, entry, items[1..]);
    }
  }

  /** Putting an entry before the last item, which is the image. */
  lemma {:induction false} InsertKeepsTheRest(hostname: string, entry: string, items: Items)
    requires ReplaceItem(hostname, entry, items) == None && EndsInImage(items)
    ensures var r := InsertBeforeLast(items, HostJoined(entry));
      && HostsOf(r) == UpsertHost(hostname, entry, HostsOf(items))
      && EnvOf(r) == EnvOf(items) && OthersOf(r) == OthersOf(items) && NameOf(r) == NameOf(items)
  {
    if |items| == 1 {
      assert ([HostJoined(entry)] + items)[1..] == items && items[1..] == [];
    } else {
      InsertKeepsTheRest(hostname, entry, items[1..]);
      assert InsertBeforeLast(items, HostJoined(entry))[1..] == InsertBeforeLast(items[1..], HostJoined(entry));
    }
  }

  lemma {:induction false} ImageKeepsTheRest(items: Items, image: string)
    requires EndsInImage(items) && !Dashed(image)
    ensures var r := SetImage(items, image);
      HostsOf(r) == HostsOf(items) && EnvOf(r) == EnvOf(items) && NameOf(r) == NameOf(items)
  {
    if |items| == 1 {
      Undashed(image);
      Undashed(items[0].token);
      assert SetImage(items, image)[1..] == [] && items[1..] == [];
    } else {
      ImageKeepsTheRest(items[1..], image);
      assert SetImage(items, image)[1..] == SetImage(items[1..], image);
    }
  }

  lemma {:induction false} ImageAmongOthers(items: Items, image: string)
    requires EndsInImage(items)
    ensures OthersOf(items) != [] && OthersOf(SetImage(items, image)) == SetImage(OthersOf(items), image)
  {
    if |items| == 1 {
      assert SetImage(items, image)[1..] == [] && items[1..] == [];
    } else {
      ImageAmongOthers(items[1..], image);
      assert SetImage(items, image)[1..] == SetImage(items[1..], image);
      assert ([items[0]] + OthersOf(items[1..]))[1..] == OthersOf(items[1..]);
    }
  }

  /* ----- The meaning is kept ----- */

  /** What becomes of a command's parts. */
  ghost predicate Retargeted(lib: UrlLibrary, target: Target, before: Items, after: Items) {
    && EnvOf(before).Ok? && EnvOf(after) == Ok(RewriteEach(lib, target.hostname, EnvOf(before).value))
    && HostsOf(after) == UpsertHost(target.hostname, EntryFor(target.hostname, target.ip), HostsOf(before))
    && OthersOf(before) != [] && OthersOf(after) == SetImage(OthersOf(before), target.image)
    && NameOf(after) == NameOf(before)
  }

  lemma ItemsAreRetargeted(lib: UrlLibrary, target: Target, items: Items)
    requires AllFormed(items) && EndsInImage(items) && Proper(target)
    requires EnvOf(items).Ok? && RewriteItems(lib, target, items).Ok?
    ensures Retargeted(lib, target, items, RewriteItems(lib, target, items).value)
  {
    UrlItemsAreFormed(lib, target.hostname, items);
    UrlsKeepTheRest(lib, target.hostname, items);
    var renamed := UrlItems(lib, target.hostname, items).value;
    UpsertIsFormed(target, renamed);
    var entry := EntryFor(target.hostname, target.ip);
    if ReplaceItem(target.hostname, entry, renamed).Some? {
      ReplaceKeepsTheRest(target.hostname, entry, renamed);
    } else {
      InsertKeepsTheRest(target.hostname, entry, renamed);
    }
    ImageKeepsTheRest(UpsertItem(target, renamed), target.image);
    ImageAmongOthers(UpsertItem(target, renamed), target.image);
  }

  /** The environment as a map: the three URLs are rewritten, and everything else stays. */
  lemma {:induction false} EnvMapRewritten(lib: UrlLibrary, hostname: string, env: seq<Assignment>)
    ensures var before, after := EnvMap(env), EnvMap(RewriteEach(lib, hostname, env));
      && after.Keys == before.Keys
      && forall k :: k in before ==> after[k] == RewriteOne(lib, hostname, Assignment(k, before[k])).value
  {
    if env != [] {
      var n := |env| - 1;
      RewriteEachInit(lib, hostname, env);
      EnvMapRewritten(lib, hostname, env[..n]);
    }
  }

  lemma {:induction false} RewriteEachInit(lib: UrlLibrary, hostname: string, env: seq<Assignment>)
    requires env != []
    ensures var r, n := RewriteEach(lib, hostname, env), |env| - 1;
      |r| == |env| && r[n] == RewriteOne(lib, hostname, env[n]) && r[..n] == RewriteEach(lib, hostname, env[..n])
  {
    if |env| > 1 {
      RewriteEachInit(lib, hostname, env[1..]);
      var n := |env| - 1;
      assert env[..n][1..] == env[1..][..n - 1] && env[..n][0] == env[0];
    }
  }

  lemma StartIsKept(lib: UrlLibrary, target: Target, ts: Tokens)
    requires Validate(ts).Ok? && Rewrite(lib, target, ts).Ok?
    ensures var r := Rewrite(lib, target, ts).value;
      |ts| <= |r| <= |ts| + 1 && r[0] == "docker" && r[1] == "run" && r[|r| - 1] == target.image
  {
    var renamed := RewriteUrls(lib, target.hostname, ts).value;
    assert renamed[0] == ts[0] && RewriteUrls(lib, target.hostname, ts[1..]).value == renamed[1..];
    assert renamed[1] == ts[1];
    var entry := EntryFor(target.hostname, target.ip);
    var replaced := Replaced(target.hostname, entry, renamed).value;
    if replaced.Some? {
      StartIsReplaced(target.hostname, entry, renamed);
    }
  }

  lemma StartIsReplaced(hostname: string, entry: string, ts: Tokens)
    requires |ts| >= 2 && ts[0] == "docker" && ts[1] == "run"
    requires Replaced(hostname, entry, ts).Ok? && Replaced(hostname, entry, ts).value.Some?
    ensures var r := Replaced(hostname, entry, ts).value.value; r[0] == "docker" && r[1] == "run"
  {
  }

  /**
   The rewritten command is a valid command with the same name, and read item by item it is the
   same command, but for the three URLs, the host entry and the image.
   */
  lemma RewriteKeepsMeaning(lib: UrlLibrary, target: Target, ts: Tokens)
    requires Plain(ts) && Validate(ts).Ok? && Proper(target) && Rewrite(lib, target, ts).Ok?
    ensures var r := Rewrite(lib, target, ts).value;
      && Plain(r) && Retargeted(lib, target, Parse(ts), Parse(r))
      && Validate(r) == Validate(ts)
  {
    RetargetOnItems(lib, target, ts);
    ParsePlain(ts);
    var items := Parse(ts);
    AssignmentsOfItems(items);
    ItemsAreRetargeted(lib, target, items);
    var after := RewriteItems(lib, target, items).value;
    FlatIsPlain(after);
    ParseFlat(after);
    AssignmentsOfItems(after);
    NameOfItems(items);
    NameOfItems(after);
    StartIsKept(lib, target, ts);
    ValidityIsKept(lib, target.hostname, ts, FlatAll(after));
  }

  lemma ValidityIsKept(lib: UrlLibrary, hostname: string, ts: Tokens, r: Tokens)
    requires Validate(ts).Ok? && ContainerName(r) == ContainerName(ts)
    requires Assignments(r) == Ok(RewriteEach(lib, hostname, Assignments(ts).value))
    requires |r| >= 3 && r[0] == "docker" && r[1] == "run" && !Dashed(r[|r| - 1])
    ensures Validate(r) == Validate(ts)
  {
    EnvMapRewritten(lib, hostname, Assignments(ts).value);
  }

  /* ----- When the rewriting fails ----- */

  ghost predicate UrlsParse(lib: UrlLibrary, hostname: string, env: seq<Assignment>) {
    forall i :: 0 <= i < |env| && env[i].key in CENTRAL ==> RewriteUrlHost(lib, hostname, env[i].value).Ok?
  }

  lemma {:induction false} UrlItemsSucceedIff(lib: UrlLibrary, hostname: string, items: Items)
    requires EnvOf(items).Ok?
    ensures UrlItems(lib, hostname, items).Ok? <==> UrlsParse(lib, hostname, EnvOf(items).value)
  {
    if items != [] {
      UrlItemsSucceedIff(lib, hostname, items[1..]);
      if items[0].EnvPair? || items[0].EnvJoined? {
        var env := EnvOf(items).value;
        assert env[1..] == EnvOf(items[1..]).value;
        assert UrlsParse(lib, hostname, env) <==>
          (env[0].key in CENTRAL ==> RewriteUrlHost(lib, hostname, env[0].value).Ok?) && UrlsParse(lib, hostname, env[1..])
          by { UrlsParseSplit(lib, hostname, env); }
      }
    }
  }

  lemma UrlsParseSplit(lib: UrlLibrary, hostname: string, env: seq<Assignment>)
    requires env != []
    ensures UrlsParse(lib, hostname, env) <==>
      (env[0].key in CENTRAL ==> RewriteUrlHost(lib, hostname, env[0].value).Ok?) && UrlsParse(lib, hostname, env[1..])
  {
  }

  /** A plain command is rewritten exactly if it is valid and its three URLs can be taken apart. */
  lemma RewriteSucceedsIff(lib: UrlLibrary, target: Target, ts: Tokens)
    requires Plain(ts) && Proper(target)
    ensures Rewrite(lib, target, ts).Ok?
      <==> Validate(ts).Ok? && UrlsParse(lib, target.hostname, Assignments(ts).value)
  {
    if Validate(ts).Ok? {
      RetargetOnItems(lib, target, ts);
      ParsePlain(ts);
      AssignmentsOfItems(Parse(ts));
      UrlItemsSucceedIff(lib, target.hostname, Parse(ts));
    }
  }

  /* ----- Rewriting twice ----- */

  /** Taking apart a loopback URL that was put together with the new host gives back its parts and its port. */
  ghost predicate Lawful(lib: UrlLibrary, hostname: string) {
    forall value {:trigger lib.parse(value)} :: lib.parse(value).Some? ==> MovesBack(lib, hostname, lib.parse(value).value)
  }

  ghost predicate MovesBack(lib: UrlLibrary, hostname: string, url: Url) {
    var port := lib.port(url.netloc);
    var moved := url.(netloc := NewNetloc(hostname, port));
    lib.host(url.netloc) in LOOPBACK && port != BadPort ==>
      lib.parse(lib.unparse(moved)) == Some(moved) && lib.port(moved.netloc) == port
  }

  /** A URL of the machine itself keeps everything but its host, its port included; any other URL stays as it is. */
  lemma UrlIsMoved(lib: UrlLibrary, hostname: string, value: string)
    requires Lawful(lib, hostname) && RewriteUrlHost(lib, hostname, value).Ok?
    ensures var url, value' := lib.parse(value).value, RewriteUrlHost(lib, hostname, value).value;
      if lib.host(url.netloc) in LOOPBACK then
        var moved := lib.parse(value');
        moved.Some? && moved.value.scheme == url.scheme && moved.value.rest == url.rest
        && lib.port(moved.value.netloc) == lib.port(url.netloc) && hostname <= moved.value.netloc
      else value' == value
  {
  }

  lemma UrlIsSettled(lib: UrlLibrary, hostname: string, value: string)
    requires Lawful(lib, hostname) && RewriteUrlHost(lib, hostname, value).Ok?
    ensures RewriteUrlHost(lib, hostname, RewriteUrlHost(lib, hostname, value).value) == RewriteUrlHost(lib, hostname, value)
  {
  }

  lemma AssignmentIsSettled(lib: UrlLibrary, hostname: string, text: string)
    requires Lawful(lib, hostname) && RewriteAssignment(lib, hostname, text).Ok?
    ensures RewriteAssignment(lib, hostname, RewriteAssignment(lib, hostname, text).value) == RewriteAssignment(lib, hostname, text)
  {
    var (key, found, value) := Cut(text, '=');
    if found && key in CENTRAL {
      UrlIsSettled(lib, hostname, value);
      CutAt(key, '=', RewriteUrlHost(lib, hostname, value).value);
    }
  }

  ghost predicate Settled(lib: UrlLibrary, hostname: string, items: Items) {
    forall i :: 0 <= i < |items| ==> UrlItem(lib, hostname, items[i]) == Ok(items[i])
  }

  lemma {:induction false} UrlsAreSettled(lib: UrlLibrary, hostname: string, items: Items)
    requires Lawful(lib, hostname) && UrlItems(lib, hostname, items).Ok?
    ensures Settled(lib, hostname, UrlItems(lib, hostname, items).value)
  {
    if items != [] {
      UrlsAreSettled(lib, hostname, items[1..]);
      if items[0].EnvPair? || items[0].EnvJoined? {
        AssignmentIsSettled(lib, hostname, items[0].text);
      }
    }
  }

  lemma {:induction false} SettledStay(lib: UrlLibrary, hostname: string, items: Items)
    requires Settled(lib, hostname, items)
    ensures UrlItems(lib, hostname, items) == Ok(items)
  {
    if items != [] {
      SettledStay(lib, hostname, items[1..]);
      assert [items[0]] + items[1..] == items;
    }
  }

  lemma {:induction false} ReplacedStaySettled(lib: UrlLibrary, hostname: string, entry: string, items: Items)
    requires Settled(lib, hostname, items) && ReplaceItem(hostname, entry, items).Some?
    ensures Settled(lib, hostname, ReplaceItem(hostname, entry, items).value)
  {
    if !Matches(hostname, items[0]) {
      ReplacedStaySettled(lib, hostname, entry, items[1..]);
    }
  }

  lemma {:induction false} ReplaceTwice(hostname: string, entry: string, items: Items)
    requires IsHostEntry(hostname, entry) && ReplaceItem(hostname, entry, items).Some?
    ensures var r := ReplaceItem(hostname, entry, items).value; ReplaceItem(hostname, entry, r) == Some(r)
  {
    if !Matches(hostname, items[0]) {
      ReplaceTwice(hostname, entry, items[1..]);
    }
  }

  lemma {:induction false} ReplaceInserted(hostname: string, entry: string, items: Items)
    requires IsHostEntry(hostname, entry) && ReplaceItem(hostname, entry, items) == None && items != []
    ensures var r := InsertBeforeLast(items, HostJoined(entry)); ReplaceItem(hostname, entry, r) == Some(r)
  {
    if |items| == 1 {
      assert ([HostJoined(entry)] + items)[1..] == items;
    } else {
      ReplaceInserted(hostname, entry, items[1..]);
      assert InsertBeforeLast(items, HostJoined(entry))[1..] == InsertBeforeLast(items[1..], HostJoined(entry));
    }
  }

  lemma {:induction false} ReplaceThenImage(hostname: string, entry: string, items: Items, image: string)
    requires EndsInImage(items) && ReplaceItem(hostname, entry, items) == Some(items)
    ensures ReplaceItem(hostname, entry, SetImage(items, image)) == Some(SetImage(items, image))
  {
    var r := SetImage(items, image);
    if |items| > 1 {
      assert r[0] == items[0] && r[1..] == SetImage(items[1..], image) && [r[0]] + r[1..] == r;
      if Matches(hostname, items[0]) {
        assert items[0].(entry := entry) == ([items[0].(entry := entry)] + items[1..])[0] == items[0];
      } else {
        var rest := ReplaceItem(hostname, entry, items[1..]).value;
        assert rest == ([items[0]] + rest)[1..] == items[1..];
        ReplaceThenImage(hostname, entry, items[1..], image);
      }
    }
  }

  lemma UpsertTwice(target: Target, items: Items)
    requires EndsInImage(items) && ':' !in target.hostname
    ensures var entry := EntryFor(target.hostname, target.ip); var r := UpsertItem(target, items);
      ReplaceItem(target.hostname, entry, r) == Some(r)
  {
    var entry := EntryFor(target.hostname, target.ip);
    CutAt(target.hostname, ':', target.ip);
    if ReplaceItem(target.hostname, entry, items).Some? {
      ReplaceTwice(target.hostname, entry, items);
    } else {
      ReplaceInserted(target.hostname, entry, items);
    }
  }

  lemma UpsertStaysSettled(lib: UrlLibrary, target: Target, items: Items)
    requires EndsInImage(items) && Settled(lib, target.hostname, items)
    ensures Settled(lib, target.hostname, UpsertItem(target, items))
  {
    var entry := EntryFor(target.hostname, target.ip);
    if ReplaceItem(target.hostname, entry, items).Some? {
      ReplacedStaySettled(lib, target.hostname, entry, items);
    } else {
      InsertStaysSettled(lib, target.hostname, items, HostJoined(entry));
    }
  }

  lemma {:induction false} InsertStaysSettled(lib: UrlLibrary, hostname: string, items: Items, item: Item)
    requires Settled(lib, hostname, items) && items != [] && item.HostJoined?
    ensures Settled(lib, hostname, InsertBeforeLast(items, item))
  {
    if |items| > 1 {
      InsertStaysSettled(lib, hostname, items[1..], item);
    }
  }

  lemma ItemsSettle(lib: UrlLibrary, target: Target, items: Items)
    requires AllFormed(items) && EndsInImage(items) && Proper(target) && Lawful(lib, target.hostname)
    requires RewriteItems(lib, target, items).Ok? && ':' !in target.hostname
    ensures var r := RewriteItems(lib, target, items).value; r != [] && RewriteItems(lib, target, r) == Ok(r)
  {
    UrlItemsAreFormed(lib, target.hostname, items);
    UrlsAreSettled(lib, target.hostname, items);
    FinishSettles(lib, target, UrlItems(lib, target.hostname, items).value);
  }

  lemma FinishSettles(lib: UrlLibrary, target: Target, items: Items)
    requires AllFormed(items) && EndsInImage(items) && Proper(target)
    requires Settled(lib, target.hostname, items) && ':' !in target.hostname
    ensures var r := FinishItems(target, items); r != [] && RewriteItems(lib, target, r) == Ok(r)
  {
    UpsertSettles(lib, target, items);
    SameImage(UpsertItem(target, items), target.image);
    SettledItemsStay(lib, target, FinishItems(target, items));
  }

  lemma UpsertSettles(lib: UrlLibrary, target: Target, items: Items)
    requires AllFormed(items) && EndsInImage(items) && Proper(target)
    requires Settled(lib, target.hostname, items) && ':' !in target.hostname
    ensures var r := FinishItems(target, items);
      Settled(lib, target.hostname, r)
      && ReplaceItem(target.hostname, EntryFor(target.hostname, target.ip), r) == Some(r)
  {
    UpsertStaysSettled(lib, target, items);
    UpsertIsFormed(target, items);
    UpsertTwice(target, items);
    var upserted := UpsertItem(target, items);
    ReplaceThenImage(target.hostname, EntryFor(target.hostname, target.ip), upserted, target.image);
    ImageStaysSettled(lib, target.hostname, upserted, target.image);
  }

  lemma {:induction false} ImageStaysSettled(lib: UrlLibrary, hostname: string, items: Items, image: string)
    requires Settled(lib, hostname, items) && items != []
    ensures Settled(lib, hostname, SetImage(items, image))
  {
    if |items| > 1 {
      ImageStaysSettled(lib, hostname, items[1..], image);
    }
  }

  lemma {:induction false} SameImage(items: Items, image: string)
    requires items != []
    ensures |SetImage(items, image)| == |items| && SetImage(items, image)[|items| - 1] == Word(image)
    ensures items[|items| - 1] == Word(image) ==> SetImage(items, image) == items
  {
    if |items| > 1 {
      SameImage(items[1..], image);
    }
  }

  lemma SettledItemsStay(lib: UrlLibrary, target: Target, items: Items)
    requires Settled(lib, target.hostname, items) && items != [] && items[|items| - 1] == Word(target.image)
    requires ReplaceItem(target.hostname, EntryFor(target.hostname, target.ip), items) == Some(items)
    ensures RewriteItems(lib, target, items) == Ok(items)
  {
    SettledStay(lib, target.hostname, items);
    SameImage(items, target.image);
  }

  /** With a colon in the host name no entry is ever taken for one of this host, not even the one just added. */
  lemma {:induction false} ColonNeverMatches(hostname: string, entry: string, ts: Tokens)
    requires ':' in hostname
    ensures Replaced(hostname, entry, ts).Ok? ==> Replaced(hostname, entry, ts).value == None
  {
    if ts != [] {
      ColonNeverMatches(hostname, entry, ts[1..]);
    }
  }

  /** Rewriting a rewritten command changes nothing, exactly if there is no colon in the host name. */
  lemma RewriteTwiceIff(lib: UrlLibrary, target: Target, ts: Tokens)
    requires Plain(ts) && Proper(target) && Lawful(lib, target.hostname) && Rewrite(lib, target, ts).Ok?
    ensures var r := Rewrite(lib, target, ts).value;
      Rewrite(lib, target, r) == Ok(r) <==> ':' !in target.hostname
  {
    var r := Rewrite(lib, target, ts).value;
    if ':' in target.hostname {
      if Rewrite(lib, target, r).Ok? {
        ColonNeverSettles(lib, target, r);
      }
    } else {
      RewriteKeepsMeaning(lib, target, ts);
      RetargetOnItems(lib, target, ts);
      ParsePlain(ts);
      ItemsSettle(lib, target, Parse(ts));
      RetargetOnItems(lib, target, r);
      ParseFlat(RewriteItems(lib, target, Parse(ts)).value);
    }
  }

  /** With a colon in the host name every rewriting, of whatever command, adds a token. */
  lemma ColonNeverSettles(lib: UrlLibrary, target: Target, ts: Tokens)
    requires ':' in target.hostname && Rewrite(lib, target, ts).Ok?
    ensures |Rewrite(lib, target, ts).value| == |ts| + 1
  {
    var renamed := RewriteUrls(lib, target.hostname, ts);
    ColonNeverMatches(target.hostname, EntryFor(target.hostname, target.ip), renamed.value);
  }

  lemma EntryIsOfHostIff(hostname: string, ip: string)
    ensures IsHostEntry(hostname, EntryFor(hostname, ip)) <==> ':' !in hostname
  {
    if ':' !in hostname {
      CutAt(hostname, ':', ip);
    }
  }

  lemma {:induction false} UpsertHostTwice(hostname: string, ip: string, hosts: seq<string>)
    ensures var entry := EntryFor(hostname, ip); var once := UpsertHost(hostname, entry, hosts);
      UpsertHost(hostname, entry, once) == if ':' in hostname then once + [entry] else once
  {
    var entry := EntryFor(hostname, ip);
    EntryIsOfHostIff(hostname, ip);
    if hosts == [] {
      assert [entry][1..] == [];
    } else if IsHostEntry(hostname, hosts[0]) {
      assert ([entry] + hosts[1..])[1..] == hosts[1..];
    } else {
      UpsertHostTwice(hostname, ip, hosts[1..]);
      assert UpsertHost(hostname, entry, hosts)[1..] == UpsertHost(hostname, entry, hosts[1..]);
    }
  }

  /**
   If a rewritten command is rewritten again, it gets a second entry for the host exactly if there
   is a colon in the host name; otherwise its entries stay as they are.
   */
  lemma SecondEntryIff(lib: UrlLibrary, target: Target, ts: Tokens)
    requires Plain(ts) && Proper(target) && Rewrite(lib, target, ts).Ok?
    requires Rewrite(lib, target, Rewrite(lib, target, ts).value).Ok?
    ensures var once := Rewrite(lib, target, ts).value; var twice := Rewrite(lib, target, once).value;
      HostsOf(Parse(twice)) == HostsOf(Parse(once))
        + if ':' in target.hostname then [EntryFor(target.hostname, target.ip)] else []
  {
    var once := Rewrite(lib, target, ts).value;
    RewriteKeepsMeaning(lib, target, ts);
    RewriteKeepsMeaning(lib, target, once);
    UpsertHostTwice(target.hostname, target.ip, HostsOf(Parse(ts)));
  }
}
