/** The loops that read a command and rewrite its token list in place. */
module CommandRewriters {
  import opened Wire
  import opened CommandTokens

  function AsMap(assignments: Result<seq<Assignment>>): Result<map<string, string>> {
    if assignments.Err? then Err(assignments.error) else Ok(EnvMap(assignments.value))
  }

  lemma Onward(ts: Tokens, i: nat, k: nat)
    requires i + k <= |ts|
    ensures ts[i..][k..] == ts[i + k..]
  {
  }

  lemma PrependedConsed<T>(done: seq<T>, first: Result<T>, rest: Result<seq<T>>)
    ensures first.Ok? ==> Prepended(done, Consed(first, rest)) == Prepended(done + [first.value], rest)
  {
    assert first.Ok? && rest.Ok? ==> done + ([first.value] + rest.value) == (done + [first.value]) + rest.value;
  }

  lemma PrependedNothing<T>(rest: Result<seq<T>>, done: seq<T>)
    ensures Prepended([], rest) == rest && Prepended(done, Ok([])) == Ok(done)
  {
    assert rest.Ok? ==> [] + rest.value == rest.value;
    assert done + [] == done;
  }

  lemma PrependedToNothing(rest: Result<Option<Tokens>>)
    ensures PrependedTo([], rest) == rest
  {
    assert rest.Ok? && rest.value.Some? ==> [] + rest.value.value == rest.value.value;
  }

  method ReadEnvKeys(ts: Tokens) returns (r: Result<map<string, string>>)
    ensures r == AsMap(Assignments(ts))
  {
    var env, i := map[], 0;
    ghost var done: seq<Assignment> := [];
    assert ts[0..] == ts;
    PrependedNothing(Assignments(ts), done);
    while i < |ts|
      invariant 0 <= i <= |ts| && env == EnvMap(done)
      invariant Assignments(ts) == Prepended(done, Assignments(ts[i..]))
    {
      var text: string;
      var width := 1;
      if IsEnvFlag(ts[i]) {
        if i + 1 >= |ts| {
          return Err(MissingValue);
        }
        text, width := ts[i + 1], 2;
      } else if "--env=" <= ts[i] {
        text := ts[i][6..];
      } else {
        Onward(ts, i, 1);
        i := i + 1;
        continue;
      }
      var assignment := ParseAssignment(text);
      Onward(ts, i, width);
      PrependedConsed(done, assignment, Assignments(ts[i + width..]));
      if assignment.Err? {
        return Err(assignment.error);
      }
      env := env[assignment.value.key := assignment.value.value];
      EnvMapGrows(done, assignment.value);
      done := done + [assignment.value];
      i := i + width;
    }
    PrependedNothing(Assignments(ts), done);
    return Ok(env);
  }

  lemma EnvMapGrows(done: seq<Assignment>, a: Assignment)
    ensures EnvMap(done + [a]) == EnvMap(done)[a.key := a.value]
  {
  }

  method ExtractContainerName(ts: Tokens) returns (r: Result<string>)
    ensures r == ContainerName(ts)
  {
    assert ts[0..] == ts;
    for i := 0 to |ts|
      invariant ContainerName(ts) == ContainerName(ts[i..])
    {
      Onward(ts, i, 1);
      if ts[i] == "--name" {
        if i + 1 >= |ts| {
          return Err(MissingValue);
        }
        return Ok(ts[i + 1]);
      }
      if "--name=" <= ts[i] {
        if ts[i][7..] == "" {
          return Err(MissingName);
        }
        return Ok(ts[i][7..]);
      }
    }
    return Err(MissingName);
  }

  method ValidateGeneratedCommand(ts: Tokens) returns (r: Result<string>)
    ensures r == Validate(ts)
  {
    if |ts| < 3 || ts[0] != "docker" || ts[1] != "run" || "-" <= ts[|ts| - 1] {
      return Err(NotCanonical);
    }
    var env := ReadEnvKeys(ts);
    if env.Err? {
      return Err(env.error);
    }
    if !(REQUIRED <= env.value.Keys) {
      return Err(MissingFields);
    }
    if env.value["ENVIRONMENT"] != "production" {
      return Err(NotProduction);
    }
    r := ExtractContainerName(ts);
  }

  class TokenList {
    var tokens: Tokens

    constructor (ts: Tokens)
      ensures tokens == ts
    {
      tokens := ts;
    }

    /** Rewrites the tokens one after another; what an error leaves behind is of no use to the caller. */
    method RewriteCentralEnvUrls(lib: UrlLibrary, hostname: string) returns (error: Option<Error>)
      modifies this
      ensures match RewriteUrls(lib, hostname, old(tokens))
              case Ok(rewritten) => error == None && tokens == rewritten
              case Err(e) => error == Some(e)
    {
      var i := 0;
      ghost var start := tokens;
      assert start[0..] == start && tokens[..0] == [];
      PrependedNothing(RewriteUrls(lib, hostname, start), []);
      while i < |tokens|
        invariant 0 <= i <= |tokens| == |start| && tokens[i..] == start[i..]
        invariant RewriteUrls(lib, hostname, start) == Prepended(tokens[..i], RewriteUrls(lib, hostname, start[i..]))
      {
        Onward(start, i, 1);
        assert tokens[i] == tokens[i..][0] == start[i];
        if IsEnvFlag(tokens[i]) {
          if i + 1 >= |tokens| {
            return Some(MissingValue);
          }
          Onward(start, i, 2);
          assert tokens[i + 1] == tokens[i..][1] == start[i + 1];
          var text := RewriteAssignment(lib, hostname, tokens[i + 1]);
          RewrotePair(tokens[..i], tokens[i], text, RewriteUrls(lib, hostname, start[i + 2..]));
          if text.Err? {
            return Some(text.error);
          }
          Onward(tokens, i, 2);
          tokens := tokens[i + 1 := text.value];
          assert tokens[..i + 2] == tokens[..i] + [tokens[i], text.value];
          i := i + 2;
        } else if "--env=" <= tokens[i] {
          var text := WithEnvPrefix(RewriteAssignment(lib, hostname, tokens[i][6..]));
          PrependedConsed(tokens[..i], text, RewriteUrls(lib, hostname, start[i + 1..]));
          if text.Err? {
            return Some(text.error);
          }
          Onward(tokens, i, 1);
          tokens := tokens[i := text.value];
          assert tokens[..i + 1] == tokens[..i] + [text.value];
          i := i + 1;
        } else {
          Onward(tokens, i, 1);
          PrependedConsed(tokens[..i], Ok(tokens[i]), RewriteUrls(lib, hostname, start[i + 1..]));
          assert tokens[..i + 1] == tokens[..i] + [tokens[i]];
          i := i + 1;
        }
      }
      PrependedNothing(RewriteUrls(lib, hostname, start), tokens);
      return None;
    }

    method UpsertAddHost(hostname: string, ip: string) returns (error: Option<Error>)
      requires tokens != []
      modifies this
      ensures match Upsert(hostname, ip, old(tokens))
              case Ok(upserted) => error == None && tokens == upserted
              case Err(e) => error == Some(e)
    {
      var entry := EntryFor(hostname, ip);
      assert tokens[0..] == tokens && tokens[..0] == [];
      PrependedToNothing(Replaced(hostname, entry, tokens));
      for i := 0 to |tokens|
        invariant tokens == old(tokens)
        invariant Replaced(hostname, entry, tokens) == PrependedTo(tokens[..i], Replaced(hostname, entry, tokens[i..]))
      {
        if tokens[i] == "--add-host" {
          if i + 1 >= |tokens| {
            return Some(MissingValue);
          }
          if IsHostEntry(hostname, tokens[i + 1]) {
            PairFound(hostname, entry, tokens, i);
            tokens := tokens[i + 1 := entry];
            return None;
          }
        } else if "--add-host=" <= tokens[i] && IsHostEntry(hostname, tokens[i][11..]) {
          JoinedFound(hostname, entry, tokens, i);
          tokens := tokens[i := "--add-host=" + entry];
          return None;
        }
        NotFoundYet(hostname, entry, tokens, i);
      }
      tokens := tokens[..|tokens| - 1] + ["--add-host=" + entry] + tokens[|tokens| - 1..];
      return None;
    }

    /** The whole rewriting of a token list; the name goes into the commands that remove the old container. */
    method RewriteGeneratedCommand(lib: UrlLibrary, target: Target) returns (name: Result<string>)
      modifies this
      ensures match Rewrite(lib, target, old(tokens))
              case Ok(rewritten) => name == Validate(old(tokens)) && tokens == rewritten
              case Err(e) => name == Err(e)
    {
      name := ValidateGeneratedCommand(tokens);
      if name.Err? {
        return;
      }
      var error := RewriteCentralEnvUrls(lib, target.hostname);
      if error.Some? {
        return Err(error.value);
      }
      error := UpsertAddHost(target.hostname, target.ip);
      if error.Some? {
        return Err(error.value);
      }
      tokens := tokens[|tokens| - 1 := target.image];
      assert tokens == WithImage(tokens, target.image);
    }
  }

  lemma RewrotePair(done: Tokens, flag: string, text: Result<string>, rest: Result<Tokens>)
    ensures text.Ok? ==>
      Prepended(done, Prepended([flag], Consed(text, rest))) == Prepended(done + [flag, text.value], rest)
  {
    assert text.Ok? && rest.Ok? ==> done + ([flag] + ([text.value] + rest.value)) == (done + [flag, text.value]) + rest.value;
  }

  lemma PairFound(hostname: string, entry: string, ts: Tokens, i: nat)
    requires i + 1 < |ts| && ts[i] == "--add-host" && IsHostEntry(hostname, ts[i + 1])
    ensures PrependedTo(ts[..i], Replaced(hostname, entry, ts[i..])) == Ok(Some(ts[i + 1 := entry]))
  {
    Onward(ts, i, 2);
    assert ts[i + 1 := entry] == ts[..i] + ([ts[i], entry] + ts[i + 2..]);
  }

  lemma JoinedFound(hostname: string, entry: string, ts: Tokens, i: nat)
    requires i < |ts| && ts[i] != "--add-host" && "--add-host=" <= ts[i] && IsHostEntry(hostname, ts[i][11..])
    ensures PrependedTo(ts[..i], Replaced(hostname, entry, ts[i..])) == Ok(Some(ts[i := "--add-host=" + entry]))
  {
    Onward(ts, i, 1);
    assert ts[i := "--add-host=" + entry] == ts[..i] + (["--add-host=" + entry] + ts[i + 1..]);
  }

  lemma NotFoundYet(hostname: string, entry: string, ts: Tokens, i: nat)
    requires i < |ts|
    requires ts[i] == "--add-host" ==> i + 1 < |ts| && !IsHostEntry(hostname, ts[i + 1])
    requires "--add-host=" <= ts[i] ==> !IsHostEntry(hostname, ts[i][11..])
    ensures PrependedTo(ts[..i], Replaced(hostname, entry, ts[i..])) == PrependedTo(ts[..i + 1], Replaced(hostname, entry, ts[i + 1..]))
  {
    Onward(ts, i, 1);
    var rest := Replaced(hostname, entry, ts[i + 1..]);
    assert rest.Ok? && rest.value.Some? ==> ts[..i] + ([ts[i]] + rest.value.value) == ts[..i + 1] + rest.value.value;
  }
}
