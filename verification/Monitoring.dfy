/** Which containers are monitored: the persisted set of "name|image" keys and the commands that change it. */
module Monitoring {
  import opened Wire
  import opened Strings

  /* ----- Keys ----- */

  const BAR := '|'

  /** The composite key string used for map lookups. */
  function KeyString(k: ContainerKey): string {
    k.name + [BAR] + k.image
  }

  /** Splits at the first bar; without a bar the whole string is the name. */
  function ParseKey(s: string): ContainerKey {
    if s == [] then ContainerKey([], [])
    else if s[0] == BAR then ContainerKey([], s[1..])
    else var rest := ParseKey(s[1..]); rest.(name := [s[0]] + rest.name)
  }

  lemma {:induction false} ParsedNameHasNoBar(s: string)
    ensures BAR !in ParseKey(s).name
  {
    if s != [] && s[0] != BAR {
      ParsedNameHasNoBar(s[1..]);
    }
  }

  lemma {:induction false} ParseBareName(name: string, image: string)
    requires BAR !in name
    ensures ParseKey(name + [BAR] + image) == ContainerKey(name, image)
  {
    var s := name + [BAR] + image;
    if name == [] {
      assert s == [BAR] + image;
    } else {
      assert s[1..] == name[1..] + [BAR] + image;
      ParseBareName(name[1..], image);
    }
  }

  /** The key survives the round trip exactly when its name contains no bar. */
  lemma KeyRoundTrip(k: ContainerKey)
    ensures ParseKey(KeyString(k)) == k <==> BAR !in k.name
  {
    if BAR !in k.name {
      ParseBareName(k.name, k.image);
    } else {
      ParsedNameHasNoBar(KeyString(k));
    }
  }

  /** In the other direction the string survives exactly when it contains a bar. */
  lemma {:induction false} StringRoundTrip(s: string)
    ensures KeyString(ParseKey(s)) == s <==> BAR in s
  {
    if s != [] && s[0] != BAR {
      StringRoundTrip(s[1..]);
      var rest := ParseKey(s[1..]);
      assert KeyString(ParseKey(s)) == [s[0]] + KeyString(rest);
      assert s == [s[0]] + s[1..];
      if KeyString(ParseKey(s)) == s {
        assert KeyString(rest) == KeyString(ParseKey(s))[1..] == s[1..];
      }
    } else if s != [] {
      assert s == [BAR] + s[1..];
    }
  }

  /* ----- Normalisation ----- */

  function NormalizeName(name: string): string {
    TrimSpace(if name != [] && name[0] == '/' then name[1..] else name)
  }

  function NormalizeImage(image: string): string {
    TrimSpace(image)
  }

  /* ----- The abstract state and the commands ----- */

  type Containers = map<string, bool>

  datatype Entry = Entry(name: string, image: string, enabled: bool)

  datatype Command =
    | Toggle(name: string, image: string, enabled: bool)
    | Sync(entries: seq<Entry>)

  /** What SetEnabled leaves: no other key of that name, and this key exactly when it is enabled. */
  function AfterToggle(m: Containers, name: string, image: string, enabled: bool): Containers {
    var n := NormalizeName(name);
    if n == "" then m
    else
      var others := map raw | raw in m && ParseKey(raw).name != n :: m[raw];
      if enabled then others[KeyString(ContainerKey(n, NormalizeImage(image))) := true] else others
  }

  /** What HandleSync leaves: one key for each enabled entry. */
  function AfterSync(entries: seq<Entry>): Containers {
    map i | 0 <= i < |entries| && entries[i].enabled :: KeyString(ContainerKey(entries[i].name, entries[i].image)) := true
  }

  function Apply(m: Containers, command: Command): Containers {
    match command
    case Toggle(name, image, enabled) => AfterToggle(m, name, image, enabled)
    case Sync(entries) => AfterSync(entries)
  }

  function ApplyAll(m: Containers, commands: seq<Command>): Containers {
    if commands == [] then m
    else Apply(ApplyAll(m, commands[..|commands| - 1]), commands[|commands| - 1])
  }

  /** The images under which a name is monitored. */
  function Images(m: Containers, n: string): set<string> {
    set raw | raw in m && ParseKey(raw).name == n :: ParseKey(raw).image
  }

  /* ----- Last writer wins ----- */

  /** The images that the last command about a name asks for, or those of the initial state. */
  function LastAsked(m: Containers, commands: seq<Command>, n: string): set<string> {
    if commands == [] then Images(m, n)
    else
      match commands[|commands| - 1]
      case Toggle(name, image, enabled) =>
        if NormalizeName(name) != n then LastAsked(m, commands[..|commands| - 1], n)
        else if enabled then {NormalizeImage(image)} else {}
      case Sync(entries) =>
        set i | 0 <= i < |entries| && entries[i].enabled && entries[i].name == n :: entries[i].image
  }

  /** No name that a command switches on contains a bar. */
  predicate BarFree(command: Command) {
    match command
    case Toggle(name, _, enabled) => enabled ==> BAR !in NormalizeName(name)
    case Sync(entries) => forall i :: 0 <= i < |entries| && entries[i].enabled ==> BAR !in entries[i].name
  }

  lemma ToggleImages(m: Containers, name: string, image: string, enabled: bool, n: string)
    requires enabled ==> BAR !in NormalizeName(name)
    requires n != ""
    ensures Images(AfterToggle(m, name, image, enabled), n)
      == if NormalizeName(name) != n then Images(m, n) else if enabled then {NormalizeImage(image)} else {}
  {
    var key := ContainerKey(NormalizeName(name), NormalizeImage(image));
    var after := AfterToggle(m, name, image, enabled);
    if enabled {
      KeyRoundTrip(key);
    }
    if key.name == n && enabled {
      assert KeyString(key) in after;
    }
  }

  /** The engine's leading slash and white space around it make no difference to a toggle. */
  lemma SlashIsDropped(m: Containers, n: string, image: string, enabled: bool)
    requires n != "" && TrimSpace(n) == n && n[0] != '/'
    ensures NormalizeName("/" + n) == NormalizeName(n) == n
    ensures AfterToggle(m, "/" + n, image, enabled) == AfterToggle(m, n, image, enabled)
    ensures BAR !in n ==> Images(AfterToggle(m, "/" + n, image, true), n) == {TrimSpace(image)}
  {
    assert ("/" + n)[1..] == n;
    if BAR !in n {
      ToggleImages(m, "/" + n, image, true, n);
    }
  }

  /** A toggle of a name that is blank but for the leading slash is ignored. */
  lemma BlankNameIsIgnored(m: Containers, name: string, image: string, enabled: bool)
    requires AllSpace(if name != "" && name[0] == '/' then name[1..] else name)
    ensures AfterToggle(m, name, image, enabled) == m
  {
    TrimmedEmptyIff(if name != "" && name[0] == '/' then name[1..] else name);
  }

  lemma SyncImages(entries: seq<Entry>, n: string)
    requires BarFree(Sync(entries))
    ensures Images(AfterSync(entries), n)
      == set i | 0 <= i < |entries| && entries[i].enabled && entries[i].name == n :: entries[i].image
  {
    var asked := set i | 0 <= i < |entries| && entries[i].enabled && entries[i].name == n :: entries[i].image;
    forall i | 0 <= i < |entries| && entries[i].enabled
      ensures ParseKey(KeyString(ContainerKey(entries[i].name, entries[i].image)))
        == ContainerKey(entries[i].name, entries[i].image)
    {
      KeyRoundTrip(ContainerKey(entries[i].name, entries[i].image));
    }
    forall image | image in asked ensures image in Images(AfterSync(entries), n) {
      var i :| 0 <= i < |entries| && entries[i].enabled && entries[i].name == n && entries[i].image == image;
      assert KeyString(ContainerKey(n, image)) in AfterSync(entries);
    }
  }

  /** After any run of toggles and syncs a name is monitored under exactly the images last asked for. */
  lemma {:induction false} LastWriterWins(m: Containers, commands: seq<Command>, n: string)
    requires forall i :: 0 <= i < |commands| ==> BarFree(commands[i])
    requires n != ""
    ensures Images(ApplyAll(m, commands), n) == LastAsked(m, commands, n)
  {
    if commands != [] {
      var rest := commands[..|commands| - 1];
      match commands[|commands| - 1]
      case Toggle(name, image, enabled) =>
        LastWriterWins(m, rest, n);
        ToggleImages(ApplyAll(m, rest), name, image, enabled, n);
      case Sync(entries) => SyncImages(entries, n);
    }
  }

  /** Switching a container off removes the key that switching it on added, exactly when its name has no bar. */
  lemma DisableUndoesEnableIff(m: Containers, name: string, image: string)
    requires NormalizeName(name) != ""
    ensures var key := KeyString(ContainerKey(NormalizeName(name), NormalizeImage(image)));
      key !in AfterToggle(AfterToggle(m, name, image, true), name, image, false) <==> BAR !in NormalizeName(name)
  {
    var key := ContainerKey(NormalizeName(name), NormalizeImage(image));
    KeyRoundTrip(key);
    ParsedNameHasNoBar(KeyString(key));
  }

  /* ----- What the state answers ----- */

  /** Some key is enabled under this name; an exact key match only matters for names with a bar. */
  ghost predicate Monitored(m: Containers, name: string, image: string) {
    var n := NormalizeName(name);
    && n != ""
    && ((var key := KeyString(ContainerKey(n, NormalizeImage(image))); key in m && m[key])
        || exists raw :: raw in m && m[raw] && ParseKey(raw).name == n)
  }

  /** Every stored key is an enabled one, and its string contains the bar. */
  ghost predicate Stored(m: Containers) {
    forall raw :: raw in m ==> m[raw] && BAR in raw
  }

  lemma {:induction false} StoredAlways(m: Containers, commands: seq<Command>)
    requires Stored(m)
    ensures Stored(ApplyAll(m, commands))
  {
    if commands != [] {
      StoredAlways(m, commands[..|commands| - 1]);
      var k: ContainerKey -> bool := key => KeyString(key)[|key.name|] == BAR;
      assert forall key :: k(key);
    }
  }

  /** A bar-free name is monitored exactly when the last command about it asked for some image. */
  lemma MonitoredIffAsked(m: Containers, commands: seq<Command>, n: string, image: string)
    requires Stored(m) && forall i :: 0 <= i < |commands| ==> BarFree(commands[i])
    requires n != "" && NormalizeName(n) == n && BAR !in n
    ensures Monitored(ApplyAll(m, commands), n, image) <==> LastAsked(m, commands, n) != {}
  {
    var now := ApplyAll(m, commands);
    LastWriterWins(m, commands, n);
    StoredAlways(m, commands);
    var key := KeyString(ContainerKey(n, NormalizeImage(image)));
    KeyRoundTrip(ContainerKey(n, NormalizeImage(image)));
    if Monitored(now, n, image) {
      var raw :| raw in now && ParseKey(raw).name == n;
      assert ParseKey(raw).image in Images(now, n);
    }
  }

  /** Each name is monitored under at most one image. */
  ghost predicate UniqueNames(m: Containers) {
    forall a, b :: a in m && b in m && ParseKey(a).name == ParseKey(b).name ==> a == b
  }

  /** A sync lists at most one enabled image per name. */
  predicate OneImagePerName(command: Command) {
    match command
    case Toggle(_, _, _) => true
    case Sync(entries) =>
      forall i, j :: 0 <= i < j < |entries| && entries[i].enabled && entries[j].enabled && entries[i].name == entries[j].name
        ==> entries[i].image == entries[j].image
  }

  lemma {:induction false} NamesStayUnique(m: Containers, commands: seq<Command>)
    requires UniqueNames(m)
    requires forall i :: 0 <= i < |commands| ==> BarFree(commands[i]) && OneImagePerName(commands[i])
    ensures UniqueNames(ApplyAll(m, commands))
  {
    if commands != [] {
      NamesStayUnique(m, commands[..|commands| - 1]);
      NamesUniqueNext(ApplyAll(m, commands[..|commands| - 1]), commands[|commands| - 1]);
    }
  }

  lemma NamesUniqueNext(m: Containers, c: Command)
    requires UniqueNames(m) && BarFree(c) && OneImagePerName(c)
    ensures UniqueNames(Apply(m, c))
  {
    match c
    case Toggle(name, image, enabled) => KeyRoundTrip(ContainerKey(NormalizeName(name), NormalizeImage(image)));
    case Sync(entries) => SyncedNamesAreUnique(entries);
  }

  lemma SyncedNamesAreUnique(entries: seq<Entry>)
    requires BarFree(Sync(entries)) && OneImagePerName(Sync(entries))
    ensures UniqueNames(AfterSync(entries))
  {
    forall i | 0 <= i < |entries| && entries[i].enabled
      ensures ParseKey(KeyString(ContainerKey(entries[i].name, entries[i].image))).name == entries[i].name
    {
      KeyRoundTrip(ContainerKey(entries[i].name, entries[i].image));
    }
  }

  /** With unique names a lookup by name succeeds for exactly the monitored names. */
  lemma LookupIffMonitored(m: Containers, n: string, image: string, found: Option<ContainerKey>)
    requires Stored(m) && UniqueNames(m) && BAR !in n && n != "" && NormalizeName(n) == n
    requires Answers(m, n, found)
    ensures found.Some? <==> Monitored(m, n, image)
    ensures found.Some? ==> KeyString(found.value) in m
  {
    KeyRoundTrip(ContainerKey(n, NormalizeImage(image)));
    if found.Some? {
      var raw :| raw in m && ParseKey(raw) == found.value;
      StringRoundTrip(raw);
    }
  }

  /** What KeyForName answers: the key of that name when there is exactly one, and nothing otherwise. */
  ghost predicate Answers(m: Containers, n: string, found: Option<ContainerKey>) {
    match found
    case Some(key) =>
      && key.name == n
      && exists raw :: raw in m && ParseKey(raw) == key && OnlyOne(m, n, raw)
    case None => forall raw :: raw in m && ParseKey(raw).name == n ==> !OnlyOne(m, n, raw)
  }

  ghost predicate OnlyOne(m: Containers, n: string, raw: string) {
    forall other :: other in m && ParseKey(other).name == n ==> other == raw
  }

  /* ----- The state object ----- */

  class MonitoringState {
    var containers: Containers

    constructor ()
      ensures containers == map[]
    {
      containers := map[];
    }

    /** Adds or removes a container; the loop visits the keys in an arbitrary order. */
    method SetEnabled(name: string, image: string, enabled: bool)
      modifies this
      ensures containers == AfterToggle(old(containers), name, image, enabled)
    {
      var n := NormalizeName(name);
      if n == "" {
        return;
      }
      var before := containers;
      var todo := containers.Keys;
      while todo != {}
        invariant todo <= before.Keys
        invariant containers == map raw | raw in before && (raw in todo || ParseKey(raw).name != n) :: before[raw]
        decreases todo
      {
        var raw :| raw in todo;
        todo := todo - {raw};
        if ParseKey(raw).name == n {
          containers := containers - {raw};
        }
      }
      if enabled {
        containers := containers[KeyString(ContainerKey(n, NormalizeImage(image))) := true];
      }
    }

    method IsMonitored(name: string, image: string) returns (r: bool)
      ensures r == Monitored(containers, name, image)
    {
      var n := NormalizeName(name);
      if n == "" {
        return false;
      }
      var key := KeyString(ContainerKey(n, NormalizeImage(image)));
      if key in containers && containers[key] {
        return true;
      }
      var todo := containers.Keys;
      while todo != {}
        invariant todo <= containers.Keys
        invariant forall raw :: raw in containers && raw !in todo ==> !(containers[raw] && ParseKey(raw).name == n)
        decreases todo
      {
        var raw :| raw in todo;
        todo := todo - {raw};
        if containers[raw] && ParseKey(raw).name == n {
          return true;
        }
      }
      return false;
    }

    method KeyForName(name: string) returns (found: Option<ContainerKey>)
      ensures NormalizeName(name) == "" ==> found == None
      ensures NormalizeName(name) != "" ==> Answers(containers, NormalizeName(name), found)
    {
      var n := NormalizeName(name);
      if n == "" {
        return None;
      }
      found := None;
      ghost var first := "";
      var todo := containers.Keys;
      while todo != {}
        invariant todo <= containers.Keys
        invariant found == None ==> forall raw :: raw in containers && raw !in todo ==> ParseKey(raw).name != n
        invariant found.Some? ==>
          && first in containers && first !in todo && ParseKey(first) == found.value && found.value.name == n
          && forall raw :: raw in containers && raw !in todo && ParseKey(raw).name == n ==> raw == first
        decreases todo
      {
        var raw :| raw in todo;
        todo := todo - {raw};
        var key := ParseKey(raw);
        if key.name == n {
          if found.Some? {
            assert forall other :: !OnlyOne(containers, n, other);
            return None;
          }
          found := Some(key);
          first := raw;
        }
      }
      assert found.Some? ==> OnlyOne(containers, n, first);
    }

    /** The keys, in an arbitrary order, each parsed from its string. */
    method MonitoredKeys() returns (keys: seq<ContainerKey>)
      ensures ListsKeys(containers, keys)
    {
      keys := [];
      ghost var raws: seq<string> := [];
      var todo := containers.Keys;
      while todo != {}
        invariant todo <= containers.Keys
        invariant |raws| == |keys|
        invariant forall raw :: raw in raws <==> raw in containers && raw !in todo
        invariant forall i :: 0 <= i < |keys| ==> keys[i] == ParseKey(raws[i])
        invariant forall i, j :: 0 <= i < j < |raws| ==> raws[i] != raws[j]
        decreases todo
      {
        var raw :| raw in todo;
        todo := todo - {raw};
        keys := keys + [ParseKey(raw)];
        raws := raws + [raw];
      }
      assert Lists(containers, raws, keys);
    }

    method ReplaceAll(next: Containers)
      modifies this
      ensures containers == map raw | raw in next && next[raw] :: true
    {
      containers := map[];
      var todo := next.Keys;
      while todo != {}
        invariant todo <= next.Keys
        invariant containers == map raw | raw in next && raw !in todo && next[raw] :: true
        decreases todo
      {
        var raw :| raw in todo;
        todo := todo - {raw};
        if next[raw] {
          containers := containers[raw := true];
        }
      }
    }
  }

  /** The keys are the parsed strings of the map, each listed once. */
  ghost predicate Lists(m: Containers, raws: seq<string>, keys: seq<ContainerKey>) {
    && |raws| == |keys|
    && (forall raw :: raw in raws <==> raw in m)
    && (forall i :: 0 <= i < |keys| ==> keys[i] == ParseKey(raws[i]))
    && (forall i, j :: 0 <= i < j < |raws| ==> raws[i] != raws[j])
  }

  ghost predicate ListsKeys(m: Containers, keys: seq<ContainerKey>) {
    exists raws :: Lists(m, raws, keys)
  }

  /** However the keys of a run are listed, their names are bar-free and distinct. */
  lemma ListedNames(m: Containers, keys: seq<ContainerKey>)
    requires UniqueNames(m) && ListsKeys(m, keys)
    ensures forall i :: 0 <= i < |keys| ==> BAR !in keys[i].name
    ensures forall i, j :: 0 <= i < j < |keys| ==> keys[i].name != keys[j].name
  {
    var raws :| Lists(m, raws, keys);
    forall i | 0 <= i < |keys| ensures BAR !in keys[i].name {
      ParsedNameHasNoBar(raws[i]);
    }
    forall i, j | 0 <= i < j < |keys| ensures keys[i].name != keys[j].name {
      assert raws[i] in raws && raws[j] in raws;
    }
  }
}
