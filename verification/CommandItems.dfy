/** A command as a list of items, each a flag with its value; what every pass of the rewriter does to them. */
module CommandItems {
  import opened Wire
  import opened CommandTokens

  datatype Item =
    | EnvPair(flag: string, text: string)
    | EnvJoined(text: string)
    | HostPair(entry: string)
    | HostJoined(entry: string)
    | NamePair(name: string)
    | Word(token: string)

  type Items = seq<Item>

  predicate Dashed(t: string) {
    "-" <= t
  }

  predicate TakesValue(t: string) {
    IsEnvFlag(t) || t == "--name" || t == "--add-host"
  }

  /* ----- Telling flags apart ----- */

  lemma Undashed(t: string)
    requires !Dashed(t)
    ensures !TakesValue(t) && !("--env=" <= t) && !("--add-host=" <= t) && !("--name=" <= t)
  {
  }

  lemma Literals()
    ensures !("--env=" <= "--add-host") && !("--env=" <= "--name")
    ensures !("--add-host=" <= "-e") && !("--add-host=" <= "--env") && !("--add-host=" <= "--name")
    ensures !("--name=" <= "-e") && !("--name=" <= "--env") && !("--name=" <= "--add-host")
  {
    assert "--env="[2] != "--add-host"[2] && "--env="[2] != "--name"[2];
    assert "--add-host="[2] != "--name"[2] && "--name="[2] != "--add-host"[2];
  }

  lemma JoinedEnv(text: string)
    ensures var t := "--env=" + text;
      "--env=" <= t && t[6..] == text && !TakesValue(t) && !("--add-host=" <= t) && !("--name=" <= t)
  {
    var t := "--env=" + text;
    assert t[2] == 'e' && t[5] == '=';
  }

  lemma JoinedHost(entry: string)
    ensures var t := "--add-host=" + entry;
      "--add-host=" <= t && t[11..] == entry && !TakesValue(t) && !("--env=" <= t) && !("--name=" <= t)
  {
    var t := "--add-host=" + entry;
    assert t[2] == 'a' && t[10] == '=';
  }

  /* ----- From items to tokens and back ----- */

  function Flat(item: Item): Tokens {
    match item
    case EnvPair(flag, text) => [flag, text]
    case EnvJoined(text) => ["--env=" + text]
    case HostPair(entry) => ["--add-host", entry]
    case HostJoined(entry) => ["--add-host=" + entry]
    case NamePair(name) => ["--name", name]
    case Word(token) => [token]
  }

  function FlatAll(items: Items): Tokens {
    if items == [] then [] else Flat(items[0]) + FlatAll(items[1..])
  }

  predicate Formed(item: Item) {
    match item
    case EnvPair(flag, text) => IsEnvFlag(flag) && !Dashed(text)
    case HostPair(entry) => !Dashed(entry)
    case NamePair(name) => !Dashed(name)
    case Word(token) => !TakesValue(token) && !("--env=" <= token) && !("--add-host=" <= token)
    case _ => true
  }

  predicate AllFormed(items: Items) {
    forall i :: 0 <= i < |items| ==> Formed(items[i])
  }

  /** The last item is the image. */
  predicate EndsInImage(items: Items) {
    items != [] && items[|items| - 1].Word? && !Dashed(items[|items| - 1].token)
  }

  /** No value of these flags begins with a dash, and the last token is the image and not a value. */
  ghost predicate Plain(ts: Tokens) {
    && ts != [] && !Dashed(ts[|ts| - 1])
    && forall i :: 0 <= i < |ts| && TakesValue(ts[i]) ==> i + 2 < |ts| && !Dashed(ts[i + 1])
  }

  function Parse(ts: Tokens): Items
    decreases |ts|
  {
    if ts == [] then []
    else if TakesValue(ts[0]) && |ts| >= 2 then [PairOf(ts[0], ts[1])] + Parse(ts[2..])
    else [SingleOf(ts[0])] + Parse(ts[1..])
  }

  function PairOf(flag: string, value: string): Item {
    if flag == "--name" then NamePair(value) else if flag == "--add-host" then HostPair(value) else EnvPair(flag, value)
  }

  function SingleOf(t: string): Item {
    if "--env=" <= t then EnvJoined(t[6..]) else if "--add-host=" <= t then HostJoined(t[11..]) else Word(t)
  }

  /** A plain command is made of well-formed items. */
  lemma {:induction false} ParsePlain(ts: Tokens)
    requires Plain(ts)
    ensures FlatAll(Parse(ts)) == ts && AllFormed(Parse(ts)) && EndsInImage(Parse(ts))
    decreases |ts|
  {
    var n := if TakesValue(ts[0]) then 2 else 1;
    if |ts| == 1 {
      Undashed(ts[0]);
      assert Parse(ts) == [Word(ts[0])];
    } else {
      PlainSuffix(ts, n);
      ParsePlain(ts[n..]);
      var first := if n == 2 then PairOf(ts[0], ts[1]) else SingleOf(ts[0]);
      assert Parse(ts) == [first] + Parse(ts[n..]);
      FirstItem(ts);
    }
  }

  lemma PlainSuffix(ts: Tokens, k: nat)
    requires Plain(ts) && k < |ts|
    ensures Plain(ts[k..])
  {
  }

  lemma FirstItem(ts: Tokens)
    requires Plain(ts)
    ensures TakesValue(ts[0]) ==>
      |ts| >= 2 && Formed(PairOf(ts[0], ts[1])) && Flat(PairOf(ts[0], ts[1])) == ts[..2]
    ensures !TakesValue(ts[0]) ==> Formed(SingleOf(ts[0])) && Flat(SingleOf(ts[0])) == ts[..1]
  {
    var t := ts[0];
    assert "--env=" <= t ==> t == "--env=" + t[6..];
    assert "--add-host=" <= t ==> t == "--add-host=" + t[11..];
  }

  /** Parsing is the only way to read a command as well-formed items. */
  lemma {:induction false} ParseFlat(items: Items)
    requires AllFormed(items)
    ensures Parse(FlatAll(items)) == items
  {
    if items != [] {
      FlatFirst(items);
      ParseFlat(items[1..]);
      ParseStep(items[0], FlatAll(items[1..]), FlatAll(items));
    }
  }

  lemma ParseStep(item: Item, rest: Tokens, ts: Tokens)
    requires Formed(item) && ts == Flat(item) + rest
    ensures Parse(ts) == [item] + Parse(rest)
  {
    assert ts[|Flat(item)|..] == rest;
    match item {
      case EnvJoined(text) => JoinedEnv(text);
      case HostJoined(e) => JoinedHost(e);
      case _ =>
    }
  }

  lemma {:induction false} FlatAllAppends(a: Items, b: Items)
    ensures FlatAll(a + b) == FlatAll(a) + FlatAll(b)
  {
    if a == [] {
      assert a + b == b;
    } else {
      FlatAllAppends(a[1..], b);
      assert (a + b)[0] == a[0] && (a + b)[1..] == a[1..] + b;
      Regroup(Flat(a[0]), FlatAll(a[1..]), FlatAll(b));
    }
  }

  lemma Regroup(a: Tokens, b: Tokens, c: Tokens)
    ensures a + (b + c) == (a + b) + c
  {
  }

  lemma FlatFirst(items: Items)
    requires items != []
    ensures var ts := FlatAll(items); var k := |Flat(items[0])|;
      ts != [] && |ts| >= k && ts[..k] == Flat(items[0]) && ts[k..] == FlatAll(items[1..])
  {
  }

  /** Well-formed items that end in the image make a plain command. */
  lemma {:induction false} FlatIsPlain(items: Items)
    requires AllFormed(items) && EndsInImage(items)
    ensures Plain(FlatAll(items))
  {
    FlatFirst(items);
    if |items| > 1 {
      FlatIsPlain(items[1..]);
      FlatFirst(items[1..]);
      PlainStep(items[0], FlatAll(items[1..]), FlatAll(items));
    } else {
      Undashed(items[0].token);
      assert FlatAll(items) == [items[0].token];
    }
  }

  lemma PlainStep(item: Item, rest: Tokens, ts: Tokens)
    requires Formed(item) && Plain(rest) && ts == Flat(item) + rest
    ensures Plain(ts)
  {
    var k := |Flat(item)|;
    match item {
      case EnvPair(flag, text) => Undashed(text);
      case EnvJoined(text) => JoinedEnv(text);
      case HostPair(e) => Undashed(e);
      case HostJoined(e) => JoinedHost(e);
      case NamePair(name) => Undashed(name);
      case Word(token) =>
    }
    forall i | 0 <= i < |ts| && TakesValue(ts[i]) ensures i + 2 < |ts| && !Dashed(ts[i + 1]) {
      if i >= k {
        assert ts[i] == rest[i - k];
      } else {
        assert i == 0 && ts[0] == Flat(item)[0];
      }
    }
  }

  /* ----- What the items say ----- */

  function EnvOf(items: Items): Result<seq<Assignment>> {
    if items == [] then Ok([])
    else if items[0].EnvPair? || items[0].EnvJoined? then Consed(ParseAssignment(items[0].text), EnvOf(items[1..]))
    else EnvOf(items[1..])
  }

  function HostsOf(items: Items): seq<string> {
    if items == [] then []
    else if items[0].HostPair? || items[0].HostJoined? then [items[0].entry] + HostsOf(items[1..])
    else HostsOf(items[1..])
  }

  function NameOf(items: Items): Result<string> {
    if items == [] then Err(MissingName)
    else if items[0].NamePair? then Ok(items[0].name)
    else if items[0].Word? && "--name=" <= items[0].token then
      if items[0].token == "--name=" then Err(MissingName) else Ok(items[0].token[7..])
    else NameOf(items[1..])
  }

  /** Everything that is neither an assignment nor a host entry. */
  function OthersOf(items: Items): Items {
    if items == [] then []
    else if items[0].NamePair? || items[0].Word? then [items[0]] + OthersOf(items[1..])
    else OthersOf(items[1..])
  }

  lemma {:induction false} AssignmentsOfItems(items: Items)
    requires AllFormed(items)
    ensures Assignments(FlatAll(items)) == EnvOf(items)
  {
    if items != [] {
      FlatFirst(items);
      AssignmentsOfItems(items[1..]);
      AssignmentsStep(items[0], FlatAll(items[1..]), FlatAll(items));
    }
  }

  lemma AssignmentsStep(item: Item, rest: Tokens, ts: Tokens)
    requires Formed(item) && ts == Flat(item) + rest
    ensures Assignments(ts) ==
      if item.EnvPair? || item.EnvJoined? then Consed(ParseAssignment(item.text), Assignments(rest)) else Assignments(rest)
  {
    assert ts[|Flat(item)|..] == rest;
    Literals();
    match item {
      case EnvPair(flag, text) => Undashed(text); assert ts[1..] == [text] + rest && ts[1..][1..] == rest;
      case EnvJoined(text) => JoinedEnv(text);
      case HostPair(e) => Undashed(e); assert ts[1..] == [e] + rest && ts[1..][1..] == rest;
      case HostJoined(e) => JoinedHost(e);
      case NamePair(name) => Undashed(name); assert ts[1..] == [name] + rest && ts[1..][1..] == rest;
      case Word(token) =>
    }
  }

  lemma {:induction false} NameOfItems(items: Items)
    requires AllFormed(items)
    ensures ContainerName(FlatAll(items)) == NameOf(items)
  {
    if items != [] {
      FlatFirst(items);
      NameOfItems(items[1..]);
      NameStep(items[0], FlatAll(items[1..]), FlatAll(items));
    }
  }

  lemma NameStep(item: Item, rest: Tokens, ts: Tokens)
    requires Formed(item) && ts == Flat(item) + rest
    ensures item.NamePair? ==> ContainerName(ts) == Ok(item.name)
    ensures !item.NamePair? && !(item.Word? && "--name=" <= item.token) ==> ContainerName(ts) == ContainerName(rest)
    ensures item.Word? && "--name=" <= item.token ==>
      ContainerName(ts) == if item.token == "--name=" then Err(MissingName) else Ok(item.token[7..])
  {
    assert ts[|Flat(item)|..] == rest;
    Literals();
    match item {
      case EnvPair(flag, text) => Undashed(text); assert ts[1..] == [text] + rest && ts[1..][1..] == rest;
      case EnvJoined(text) => JoinedEnv(text);
      case HostPair(e) => Undashed(e); assert ts[1..] == [e] + rest && ts[1..][1..] == rest;
      case HostJoined(e) => JoinedHost(e);
      case NamePair(name) => Undashed(name); assert ts[1..] == [name] + rest && ts[1..][1..] == rest;
      case Word(token) =>
    }
  }

  /* ----- The URLs ----- */

  function WithText(item: Item, text: Result<string>): Result<Item>
    requires item.EnvPair? || item.EnvJoined?
  {
    if text.Err? then Err(text.error) else Ok(item.(text := text.value))
  }

  function UrlItem(lib: UrlLibrary, hostname: string, item: Item): Result<Item> {
    if item.EnvPair? || item.EnvJoined? then WithText(item, RewriteAssignment(lib, hostname, item.text)) else Ok(item)
  }

  function UrlItems(lib: UrlLibrary, hostname: string, items: Items): Result<Items> {
    if items == [] then Ok([]) else Consed(UrlItem(lib, hostname, items[0]), UrlItems(lib, hostname, items[1..]))
  }

  function Flattened(items: Result<Items>): Result<Tokens> {
    if items.Err? then Err(items.error) else Ok(FlatAll(items.value))
  }

  lemma {:induction false} UrlPass(lib: UrlLibrary, hostname: string, items: Items)
    requires AllFormed(items)
    ensures RewriteUrls(lib, hostname, FlatAll(items)) == Flattened(UrlItems(lib, hostname, items))
  {
    if items != [] {
      FlatFirst(items);
      UrlPass(lib, hostname, items[1..]);
      UrlStep(lib, hostname, items[0], FlatAll(items[1..]), FlatAll(items));
    }
  }

  lemma UrlStep(lib: UrlLibrary, hostname: string, item: Item, rest: Tokens, ts: Tokens)
    requires Formed(item) && ts == Flat(item) + rest
    ensures RewriteUrls(lib, hostname, ts) ==
      if UrlItem(lib, hostname, item).Err? then Err(UrlItem(lib, hostname, item).error)
      else Prepended(Flat(UrlItem(lib, hostname, item).value), RewriteUrls(lib, hostname, rest))
  {
    assert ts[|Flat(item)|..] == rest;
    Literals();
    match item {
      case EnvPair(flag, text) => UrlPairStep(lib, hostname, flag, text, rest);
      case EnvJoined(text) => JoinedEnv(text);
      case HostPair(e) => UrlValueStep(lib, hostname, "--add-host", e, rest);
      case HostJoined(e) => JoinedHost(e);
      case NamePair(name) => UrlValueStep(lib, hostname, "--name", name, rest);
      case Word(token) =>
    }
  }

  lemma UrlPairStep(lib: UrlLibrary, hostname: string, flag: string, text: string, rest: Tokens)
    requires IsEnvFlag(flag)
    ensures var rewritten := RewriteAssignment(lib, hostname, text);
      RewriteUrls(lib, hostname, [flag, text] + rest)
      == if rewritten.Err? then Err(rewritten.error)
         else Prepended([flag, rewritten.value], RewriteUrls(lib, hostname, rest))
  {
    var r := RewriteUrls(lib, hostname, rest);
    assert ([flag, text] + rest)[2..] == rest;
    var rewritten := RewriteAssignment(lib, hostname, text);
    assert rewritten.Ok? && r.Ok? ==> [flag] + ([rewritten.value] + r.value) == [flag, rewritten.value] + r.value;
  }

  lemma UrlValueStep(lib: UrlLibrary, hostname: string, flag: string, value: string, rest: Tokens)
    requires !IsEnvFlag(flag) && !("--env=" <= flag) && !Dashed(value)
    ensures RewriteUrls(lib, hostname, [flag, value] + rest) == Prepended([flag, value], RewriteUrls(lib, hostname, rest))
  {
    Undashed(value);
    var ts := [flag, value] + rest;
    assert ts[1..] == [value] + rest && ([value] + rest)[1..] == rest;
    var r := RewriteUrls(lib, hostname, rest);
    assert r.Ok? ==> [flag] + ([value] + r.value) == [flag, value] + r.value;
  }

  /* ----- The host entry ----- */

  predicate Matches(hostname: string, item: Item) {
    (item.HostPair? || item.HostJoined?) && IsHostEntry(hostname, item.entry)
  }

  function ReplaceItem(hostname: string, entry: string, items: Items): Option<Items> {
    if items == [] then None
    else if Matches(hostname, items[0]) then Some([items[0].(entry := entry)] + items[1..])
    else match ReplaceItem(hostname, entry, items[1..]) case None => None case Some(rest) => Some([items[0]] + rest)
  }

  function FlattenedOption(items: Option<Items>): Result<Option<Tokens>> {
    if items == None then Ok(None) else Ok(Some(FlatAll(items.value)))
  }

  lemma {:induction false} ReplacePass(hostname: string, entry: string, items: Items)
    requires AllFormed(items)
    ensures Replaced(hostname, entry, FlatAll(items)) == FlattenedOption(ReplaceItem(hostname, entry, items))
  {
    if items != [] {
      FlatFirst(items);
      ReplacePass(hostname, entry, items[1..]);
      ReplaceStep(hostname, entry, items[0], FlatAll(items[1..]), FlatAll(items));
    }
  }

  lemma ReplaceStep(hostname: string, entry: string, item: Item, rest: Tokens, ts: Tokens)
    requires Formed(item) && ts == Flat(item) + rest
    ensures Matches(hostname, item) ==> Replaced(hostname, entry, ts) == Ok(Some(Flat(item.(entry := entry)) + rest))
    ensures !Matches(hostname, item) ==>
      Replaced(hostname, entry, ts) == PrependedTo(Flat(item), Replaced(hostname, entry, rest))
  {
    assert ts[|Flat(item)|..] == rest;
    Literals();
    match item {
      case EnvPair(flag, text) => ReplaceValueStep(hostname, entry, flag, text, rest);
      case EnvJoined(text) => JoinedEnv(text);
      case HostPair(e) =>
        if IsHostEntry(hostname, e) {
          assert ts[2..] == rest;
        } else {
          ReplaceValueStep(hostname, entry, "--add-host", e, rest);
        }
      case HostJoined(e) => JoinedHost(e);
      case NamePair(name) => ReplaceValueStep(hostname, entry, "--name", name, rest);
      case Word(token) =>
    }
  }

  lemma ReplaceValueStep(hostname: string, entry: string, flag: string, value: string, rest: Tokens)
    requires flag == "--add-host" ==> !IsHostEntry(hostname, value)
    requires !("--add-host=" <= flag) && !Dashed(value)
    ensures Replaced(hostname, entry, [flag, value] + rest) == PrependedTo([flag, value], Replaced(hostname, entry, rest))
  {
    Undashed(value);
    var ts := [flag, value] + rest;
    assert ts[1..] == [value] + rest && ([value] + rest)[1..] == rest;
    var r := Replaced(hostname, entry, rest);
    assert r.Ok? && r.value.Some? ==> [flag] + ([value] + r.value.value) == [flag, value] + r.value.value;
  }

  function InsertBeforeLast(items: Items, item: Item): Items
    requires items != []
  {
    if |items| == 1 then [item] + items else [items[0]] + InsertBeforeLast(items[1..], item)
  }

  function SetImage(items: Items, image: string): Items
    requires items != []
  {
    if |items| == 1 then [Word(image)] else [items[0]] + SetImage(items[1..], image)
  }

  lemma {:induction false} InsertAndSetBySlices(items: Items, item: Item, image: string)
    requires items != []
    ensures InsertBeforeLast(items, item) == items[..|items| - 1] + [item] + items[|items| - 1..]
    ensures SetImage(items, image) == items[..|items| - 1] + [Word(image)]
  {
    if |items| > 1 {
      InsertAndSetBySlices(items[1..], item, image);
      assert [items[0]] + items[1..][..|items| - 2] == items[..|items| - 1];
      assert items[1..][|items| - 2..] == items[|items| - 1..];
    }
  }

  function UpsertItem(target: Target, items: Items): Items
    requires items != []
  {
    var entry := EntryFor(target.hostname, target.ip);
    var replaced := ReplaceItem(target.hostname, entry, items);
    if replaced.Some? then replaced.value else InsertBeforeLast(items, HostJoined(entry))
  }

  lemma UpsertPass(target: Target, items: Items)
    requires AllFormed(items) && EndsInImage(items)
    ensures FlatAll(items) != []
    ensures Upsert(target.hostname, target.ip, FlatAll(items)) == Ok(FlatAll(UpsertItem(target, items)))
  {
    var entry := EntryFor(target.hostname, target.ip);
    ReplacePass(target.hostname, entry, items);
    LastFlat(items);
    var n := |items| - 1;
    InsertAndSetBySlices(items, HostJoined(entry), "");
    FlatAllAppends(items[..n] + [HostJoined(entry)], items[n..]);
    FlatAllAppends(items[..n], [HostJoined(entry)]);
    assert FlatAll([HostJoined(entry)]) == ["--add-host=" + entry];
  }

  /** The last token is the image. */
  lemma LastFlat(items: Items)
    requires EndsInImage(items)
    ensures var ts, n := FlatAll(items), |items| - 1;
      ts != [] && ts[..|ts| - 1] == FlatAll(items[..n]) && ts[|ts| - 1..] == FlatAll(items[n..]) == [items[n].token]
  {
    var n := |items| - 1;
    FlatAllAppends(items[..n], items[n..]);
    assert items == items[..n] + items[n..];
    assert FlatAll(items[n..]) == [items[n].token] + FlatAll(items[n..][1..]);
  }

  lemma ImagePass(items: Items, image: string)
    requires EndsInImage(items)
    ensures FlatAll(items) != [] && WithImage(FlatAll(items), image) == FlatAll(SetImage(items, image))
  {
  }
}
