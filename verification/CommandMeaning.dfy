/** What a command says, before and after its rewriting, told flag by flag. */
module CommandMeaning {
  import opened Wire
  import opened Strings
  import opened CommandTokens
  import opened CommandItems
  import opened CommandRewrites

  /* ----- Reading ----- */

  /** An assignment is a key that is not empty, the first equals sign, and a value. */
  lemma AssignmentIff(text: string, key: string, value: string)
    ensures ParseAssignment(text) == Ok(Assignment(key, value)) <==> key != "" && '=' !in key && text == key + "=" + value
    ensures ParseAssignment(text).Err? <==> '=' !in text || text[0] == '='
  {
    if '=' !in key {
      CutAt(key, '=', value);
      assert key + ['='] + value == key + "=" + value;
    }
  }

  /** The three ways of writing an assignment, and the two of writing a name. */
  lemma FlagForms(text: string, ts: Tokens)
    ensures Assignments(["-e", text] + ts) == Assignments(["--env", text] + ts) == Consed(ParseAssignment(text), Assignments(ts))
    ensures Assignments(["--env=" + text] + ts) == Consed(ParseAssignment(text), Assignments(ts))
    ensures ContainerName(["--name", text] + ts) == Ok(text)
    ensures ContainerName(["--name=" + text] + ts) == if text == "" then Err(MissingName) else Ok(text)
  {
    JoinedEnv(text);
    var pair, long, one := ["-e", text] + ts, ["--env", text] + ts, ["--env=" + text] + ts;
    assert pair[2..] == ts && long[2..] == ts && one[1..] == ts;
    NameForms(text, ts);
  }

  lemma NameForms(text: string, ts: Tokens)
    ensures ContainerName(["--name", text] + ts) == Ok(text)
    ensures ContainerName(["--name=" + text] + ts) == if text == "" then Err(MissingName) else Ok(text)
  {
    var t := "--name=" + text;
    assert t[6] == '=' && t[7..] == text && (text == "" ==> t == "--name=");
    assert (["--name=" + text] + ts)[0] == t;
  }

  /** The last assignment of a key decides. */
  ghost predicate LastIs(env: seq<Assignment>, key: string, value: string) {
    exists i :: 0 <= i < |env| && env[i] == Assignment(key, value) && forall j :: i < j < |env| ==> env[j].key != key
  }

  ghost predicate Assigns(env: seq<Assignment>, key: string) {
    exists i :: 0 <= i < |env| && env[i].key == key
  }

  lemma {:induction false} EnvMapIff(env: seq<Assignment>, key: string, value: string)
    ensures key in EnvMap(env) <==> Assigns(env, key)
    ensures key in EnvMap(env) && EnvMap(env)[key] == value <==> LastIs(env, key, value)
  {
    if env != [] {
      var n := |env| - 1;
      EnvMapIff(env[..n], key, value);
      if env[n].key != key {
        if LastIs(env, key, value) {
          var i :| 0 <= i < |env| && env[i] == Assignment(key, value) && forall j :: i < j < |env| ==> env[j].key != key;
          assert env[..n][i] == env[i];
        }
        if Assigns(env, key) {
          var i :| 0 <= i < |env| && env[i].key == key;
          assert env[..n][i].key == key;
        }
      }
    }
  }

  predicate IsEnrollKey(key: string) {
    || key == "AGENT_NAME" || key == "CENTRAL_WS_URL" || key == "CENTRAL_URL" || key == "CENTRAL_MTLS_URL"
    || key == "ENROLL_TOKEN" || key == "CA_FINGERPRINT" || key == "HOST_ID" || key == "HERALD_NAME"
    || key == "HERALD_ID" || key == "ENVIRONMENT"
  }

  ghost predicate Canonical(ts: Tokens) {
    |ts| >= 3 && ts[0] == "docker" && ts[1] == "run" && !Dashed(ts[|ts| - 1])
  }

  ghost predicate AssignsAll(env: seq<Assignment>) {
    forall key :: IsEnrollKey(key) ==> Assigns(env, key)
  }

  /**
   A command is valid exactly if it is a `docker run` that ends in an image, every assignment in it can
   be read, each of the ten keys is assigned, the environment is production in the end, and there is a
   name. Whatever is wrong first is what is reported.
   */
  lemma ValidIff(ts: Tokens, name: string)
    ensures Validate(ts) == Ok(name) <==>
      && Canonical(ts) && Assignments(ts).Ok? && AssignsAll(Assignments(ts).value)
      && LastIs(Assignments(ts).value, "ENVIRONMENT", "production") && ContainerName(ts) == Ok(name)
    ensures !Canonical(ts) ==> Validate(ts) == Err(NotCanonical)
    ensures Canonical(ts) && Assignments(ts).Ok? ==>
      && (!AssignsAll(Assignments(ts).value) ==> Validate(ts) == Err(MissingFields))
      && (AssignsAll(Assignments(ts).value) && !LastIs(Assignments(ts).value, "ENVIRONMENT", "production") ==>
            Validate(ts) == Err(NotProduction))
  {
    if Assignments(ts).Ok? {
      var env := Assignments(ts).value;
      EnvMapIff(env, "ENVIRONMENT", "production");
      RequiredIff(env);
    }
  }

  lemma RequiredIff(env: seq<Assignment>)
    ensures REQUIRED <= EnvMap(env).Keys <==> AssignsAll(env)
  {
    forall key ensures key in EnvMap(env) <==> Assigns(env, key) {
      EnvMapIff(env, key, "");
    }
    assert forall key :: key in REQUIRED <==> IsEnrollKey(key);
  }

  /* ----- The URLs ----- */

  predicate IsCentralUrl(key: string) {
    key == "CENTRAL_WS_URL" || key == "CENTRAL_URL" || key == "CENTRAL_MTLS_URL"
  }

  predicate IsLoopback(host: string) {
    host == "localhost" || host == "127.0.0.1" || host == "::1"
  }

  /** A URL with the new host and, if it had a port, that port. */
  function Moved(lib: UrlLibrary, hostname: string, url: Url): string {
    match lib.port(url.netloc)
    case Port(text) => lib.unparse(Url(url.scheme, hostname + ":" + text, url.rest))
    case _ => lib.unparse(Url(url.scheme, hostname, url.rest))
  }

  /** What the rewriting makes of a variable: a loopback URL of Central is moved, and nothing else changes. */
  ghost predicate BecomesMoved(lib: UrlLibrary, hostname: string, key: string, before: string, after: string) {
    if IsCentralUrl(key) then
      && lib.parse(before).Some?
      && var url := lib.parse(before).value;
         if IsLoopback(lib.host(url.netloc)) then lib.port(url.netloc) != BadPort && after == Moved(lib, hostname, url)
         else after == before
    else after == before
  }

  lemma RewrittenOne(lib: UrlLibrary, hostname: string, a: Assignment)
    requires a.key in CENTRAL ==> RewriteUrlHost(lib, hostname, a.value).Ok?
    ensures BecomesMoved(lib, hostname, a.key, a.value, RewriteOne(lib, hostname, a).value)
    ensures RewriteOne(lib, hostname, a).key == a.key
  {
    if lib.parse(a.value).Some? {
      var url := lib.parse(a.value).value;
      assert url.(netloc := hostname) == Url(url.scheme, hostname, url.rest);
    }
  }

  /* ----- The host entries ----- */

  /** The entry is set: in place of the first one for the host or, failing that, after all others. */
  ghost predicate EntryIsSet(hostname: string, entry: string, before: seq<string>, after: seq<string>, i: nat) {
    && i <= |before|
    && (forall j :: 0 <= j < i ==> Cut(before[j], ':').0 != hostname)
    && (i < |before| ==> Cut(before[i], ':').0 == hostname)
    && after == before[..i] + [entry] + if i < |before| then before[i + 1..] else []
  }

  lemma {:induction false} EntryIsPlaced(hostname: string, entry: string, hosts: seq<string>) returns (i: nat)
    ensures EntryIsSet(hostname, entry, hosts, UpsertHost(hostname, entry, hosts), i)
  {
    if hosts == [] || IsHostEntry(hostname, hosts[0]) {
      i := 0;
    } else {
      i := EntryIsPlaced(hostname, entry, hosts[1..]);
      PlacedBehind(hostname, entry, hosts, UpsertHost(hostname, entry, hosts[1..]), i);
      i := i + 1;
    }
  }

  lemma PlacedBehind(hostname: string, entry: string, hosts: seq<string>, after: seq<string>, i: nat)
    requires hosts != [] && Cut(hosts[0], ':').0 != hostname && EntryIsSet(hostname, entry, hosts[1..], after, i)
    ensures EntryIsSet(hostname, entry, hosts, [hosts[0]] + after, i + 1)
  {
    var rest := hosts[1..];
    assert hosts[..i + 1] == [hosts[0]] + rest[..i];
    assert i < |rest| ==> rest[i + 1..] == hosts[i + 2..] && rest[i] == hosts[i + 1];
    assert forall j :: 1 <= j < i + 1 ==> hosts[j] == rest[j - 1];
    ConsThree(hosts[0], rest[..i], [entry], if i < |rest| then rest[i + 1..] else []);
  }

  lemma ConsThree(x: string, a: seq<string>, b: seq<string>, c: seq<string>)
    ensures [x] + (a + b + c) == ([x] + a) + b + c
  {
  }

  /* ----- The rewritten command ----- */

  /** Every variable that the command sets is set again, moved if it is a loopback URL of Central. */
  ghost predicate EnvironmentMoved(lib: UrlLibrary, hostname: string, before: map<string, string>, after: map<string, string>) {
    && after.Keys == before.Keys
    && forall key :: key in before ==> BecomesMoved(lib, hostname, key, before[key], after[key])
  }

  /**
   The rewritten command, part by part. The environment is the same but for the loopback URLs of
   Central; the first entry for the host, or a new one at the end, carries the given address, and all
   other entries stay in order; the last token is the given image, and the rest stays as it is.
   */
  lemma RewrittenCommand(lib: UrlLibrary, target: Target, ts: Tokens) returns (r: Tokens, i: nat)
    requires Plain(ts) && Proper(target) && Rewrite(lib, target, ts).Ok?
    ensures Rewrite(lib, target, ts) == Ok(r) && EnvOf(Parse(ts)).Ok? && EnvOf(Parse(r)).Ok?
    ensures EnvironmentMoved(lib, target.hostname, EnvMap(EnvOf(Parse(ts)).value), EnvMap(EnvOf(Parse(r)).value))
    ensures EntryIsSet(target.hostname, target.hostname + ":" + target.ip, HostsOf(Parse(ts)), HostsOf(Parse(r)), i)
    ensures ':' !in target.hostname ==> Cut(HostsOf(Parse(r))[i], ':') == (target.hostname, true, target.ip)
    ensures var before, after := OthersOf(Parse(ts)), OthersOf(Parse(r));
      && |after| == |before| > 0 && after[|after| - 1] == Word(target.image)
      && after[..|after| - 1] == before[..|before| - 1]
    ensures r[|r| - 1] == target.image
  {
    r := Rewrite(lib, target, ts).value;
    RewriteSucceedsIff(lib, target, ts);
    RewriteKeepsMeaning(lib, target, ts);
    StartIsKept(lib, target, ts);
    RewrittenEnvironment(lib, target, ts);
    i := RewrittenHosts(lib, target, Parse(ts), Parse(r));
    ImageIsSet(OthersOf(Parse(ts)), target.image);
  }

  lemma RewrittenEnvironment(lib: UrlLibrary, target: Target, ts: Tokens)
    requires Plain(ts) && Proper(target) && Rewrite(lib, target, ts).Ok?
    ensures EnvOf(Parse(ts)).Ok?
    ensures var env := EnvOf(Parse(ts)).value;
      EnvironmentMoved(lib, target.hostname, EnvMap(env), EnvMap(RewriteEach(lib, target.hostname, env)))
  {
    RewriteSucceedsIff(lib, target, ts);
    ParsePlain(ts);
    AssignmentsOfItems(Parse(ts));
    EnvironmentIsMoved(lib, target.hostname, EnvOf(Parse(ts)).value);
  }

  lemma RewrittenHosts(lib: UrlLibrary, target: Target, before: Items, after: Items) returns (i: nat)
    requires Retargeted(lib, target, before, after)
    ensures EntryIsSet(target.hostname, target.hostname + ":" + target.ip, HostsOf(before), HostsOf(after), i)
    ensures ':' !in target.hostname ==> Cut(HostsOf(after)[i], ':') == (target.hostname, true, target.ip)
  {
    i := EntryIsPlaced(target.hostname, EntryFor(target.hostname, target.ip), HostsOf(before));
    if ':' !in target.hostname {
      CutAt(target.hostname, ':', target.ip);
      assert target.hostname + [':'] + target.ip == target.hostname + ":" + target.ip;
    }
  }

  lemma {:induction false} ImageIsSet(items: Items, image: string)
    requires items != []
    ensures var after := SetImage(items, image);
      |after| == |items| && after[|after| - 1] == Word(image) && after[..|after| - 1] == items[..|items| - 1]
  {
    if |items| > 1 {
      ImageIsSet(items[1..], image);
      assert SetImage(items, image)[1..] == SetImage(items[1..], image);
    }
  }

  lemma EnvironmentIsMoved(lib: UrlLibrary, hostname: string, env: seq<Assignment>)
    requires UrlsParse(lib, hostname, env)
    ensures EnvironmentMoved(lib, hostname, EnvMap(env), EnvMap(RewriteEach(lib, hostname, env)))
  {
    EnvMapRewritten(lib, hostname, env);
    forall key | key in EnvMap(env)
      ensures BecomesMoved(lib, hostname, key, EnvMap(env)[key], EnvMap(RewriteEach(lib, hostname, env))[key])
    {
      EnvMapIff(env, key, EnvMap(env)[key]);
      var i :| 0 <= i < |env| && env[i] == Assignment(key, EnvMap(env)[key]);
      RewrittenOne(lib, hostname, env[i]);
    }
  }

  /** A command without host entries gets one before its image, with the address. */
  lemma AddressIsAdded(hostname: string, ip: string, image: string)
    requires !Dashed(image)
    ensures Upsert(hostname, ip, ["docker", "run", image])
      == Ok(["docker", "run", "--add-host=" + hostname + ":" + ip, image])
  {
    var ts := ["docker", "run", image];
    assert "docker"[0] == 'd' && "run"[0] == 'r';
    Undashed(image);
    Undashed("docker");
    Undashed("run");
    assert ts[1..] == ["run", image] && ts[1..][1..] == [image] && [image][1..] == [];
    var entry := EntryFor(hostname, ip);
    assert Replaced(hostname, entry, [image]) == Ok(None);
    assert Replaced(hostname, entry, ["run", image]) == Ok(None);
    assert Replaced(hostname, entry, ts) == Ok(None);
    assert ts[..2] == ["docker", "run"] && ts[2..] == [image];
    assert "--add-host=" + entry == "--add-host=" + hostname + ":" + ip;
    assert ts[..|ts| - 1] + ["--add-host=" + entry] + ts[|ts| - 1..] == ["docker", "run", "--add-host=" + entry, image];
  }
}
