/** The generated `docker run` command as a list of tokens: how it is read, validated and rewritten. */
module CommandTokens {
  import opened Wire
  import opened Strings

  datatype Error =
    | MissingValue | BadAssignment | MissingName | BadUrl | NotCanonical | MissingFields | NotProduction

  datatype Result<T> = Ok(value: T) | Err(error: Error)

  type Tokens = seq<string>

  const REQUIRED: set<string> := {
    "AGENT_NAME", "CENTRAL_WS_URL", "CENTRAL_URL", "CENTRAL_MTLS_URL", "ENROLL_TOKEN",
    "CA_FINGERPRINT", "HOST_ID", "HERALD_NAME", "HERALD_ID", "ENVIRONMENT" }
  const CENTRAL: set<string> := {"CENTRAL_WS_URL", "CENTRAL_URL", "CENTRAL_MTLS_URL"}
  const LOOPBACK: set<string> := {"localhost", "127.0.0.1", "::1"}

  predicate IsEnvFlag(t: string) {
    t == "-e" || t == "--env"
  }

  /* ----- Reading ----- */

  datatype Assignment = Assignment(key: string, value: string)

  function ParseAssignment(text: string): Result<Assignment> {
    var (key, found, value) := Cut(text, '=');
    if !found || key == "" then Err(BadAssignment) else Ok(Assignment(key, value))
  }

  /** Whatever is wrong first is what is reported. */
  function Consed<T>(first: Result<T>, rest: Result<seq<T>>): Result<seq<T>> {
    if first.Err? then Err(first.error) else if rest.Err? then rest else Ok([first.value] + rest.value)
  }

  function Prepended<T>(start: seq<T>, rest: Result<seq<T>>): Result<seq<T>> {
    if rest.Err? then rest else Ok(start + rest.value)
  }

  /** The environment assignments, in the order in which the command makes them. */
  function Assignments(ts: Tokens): Result<seq<Assignment>>
    decreases |ts|
  {
    if ts == [] then Ok([])
    else if IsEnvFlag(ts[0]) then
      if |ts| < 2 then Err(MissingValue) else Consed(ParseAssignment(ts[1]), Assignments(ts[2..]))
    else if "--env=" <= ts[0] then Consed(ParseAssignment(ts[0][6..]), Assignments(ts[1..]))
    else Assignments(ts[1..])
  }

  /** A later assignment overrides an earlier one. */
  function EnvMap(assignments: seq<Assignment>): map<string, string> {
    if assignments == [] then map[]
    else
      var last := assignments[|assignments| - 1];
      EnvMap(assignments[..|assignments| - 1])[last.key := last.value]
  }

  function ContainerName(ts: Tokens): Result<string> {
    if ts == [] then Err(MissingName)
    else if ts[0] == "--name" then
      if |ts| < 2 then Err(MissingValue) else Ok(ts[1])
    else if "--name=" <= ts[0] then
      if ts[0] == "--name=" then Err(MissingName) else Ok(ts[0][7..])
    else ContainerName(ts[1..])
  }

  function Validate(ts: Tokens): Result<string> {
    if |ts| < 3 || ts[0] != "docker" || ts[1] != "run" || "-" <= ts[|ts| - 1] then Err(NotCanonical)
    else
      var assignments := Assignments(ts);
      if assignments.Err? then Err(assignments.error)
      else
        var env := EnvMap(assignments.value);
        if !(REQUIRED <= env.Keys) then Err(MissingFields)
        else if env["ENVIRONMENT"] != "production" then Err(NotProduction)
        else ContainerName(ts)
  }

  /* ----- Rewriting the URLs ----- */

  datatype Port = NoPort | BadPort | Port(text: string)

  datatype Url = Url(scheme: string, netloc: string, rest: string)

  /** What the library does: takes a URL apart, if it can, and puts one together. */
  datatype UrlLibrary = UrlLibrary(
    parse: string -> Option<Url>,
    unparse: Url -> string,
    host: string -> string,
    port: string -> Port)

  function NewNetloc(hostname: string, port: Port): string {
    if port.Port? then hostname + ":" + port.text else hostname
  }

  /** Only a URL of the machine itself gets the new host; its port stays. */
  function RewriteUrlHost(lib: UrlLibrary, hostname: string, value: string): Result<string> {
    var parsed := lib.parse(value);
    if parsed == None then Err(BadUrl)
    else
      var url := parsed.value;
      if lib.host(url.netloc) !in LOOPBACK then Ok(value)
      else
        var port := lib.port(url.netloc);
        if port == BadPort then Err(BadUrl) else Ok(lib.unparse(url.(netloc := NewNetloc(hostname, port))))
  }

  function RewriteAssignment(lib: UrlLibrary, hostname: string, text: string): Result<string> {
    var (key, found, value) := Cut(text, '=');
    if !found || key !in CENTRAL then Ok(text)
    else
      var url := RewriteUrlHost(lib, hostname, value);
      if url.Err? then url else Ok(key + "=" + url.value)
  }

  function RewriteUrls(lib: UrlLibrary, hostname: string, ts: Tokens): (r: Result<Tokens>)
    ensures r.Ok? ==> |r.value| == |ts|
    decreases |ts|
  {
    if ts == [] then Ok([])
    else if IsEnvFlag(ts[0]) then
      if |ts| < 2 then Err(MissingValue)
      else Prepended([ts[0]], Consed(RewriteAssignment(lib, hostname, ts[1]), RewriteUrls(lib, hostname, ts[2..])))
    else if "--env=" <= ts[0] then
      Consed(WithEnvPrefix(RewriteAssignment(lib, hostname, ts[0][6..])), RewriteUrls(lib, hostname, ts[1..]))
    else Prepended([ts[0]], RewriteUrls(lib, hostname, ts[1..]))
  }

  function WithEnvPrefix(text: Result<string>): Result<string> {
    if text.Err? then text else Ok("--env=" + text.value)
  }

  /* ----- The host entry ----- */

  predicate IsHostEntry(hostname: string, entry: string) {
    Cut(entry, ':').0 == hostname
  }

  /** The tokens with the first entry for the host replaced, if there is such an entry. */
  function Replaced(hostname: string, entry: string, ts: Tokens): (r: Result<Option<Tokens>>)
    ensures r.Ok? && r.value.Some? ==> |r.value.value| == |ts|
  {
    if ts == [] then Ok(None)
    else if ts[0] == "--add-host" && |ts| < 2 then Err(MissingValue)
    else if ts[0] == "--add-host" && IsHostEntry(hostname, ts[1]) then Ok(Some([ts[0], entry] + ts[2..]))
    else if "--add-host=" <= ts[0] && IsHostEntry(hostname, ts[0][11..]) then Ok(Some(["--add-host=" + entry] + ts[1..]))
    else PrependedTo([ts[0]], Replaced(hostname, entry, ts[1..]))
  }

  function PrependedTo(start: Tokens, rest: Result<Option<Tokens>>): Result<Option<Tokens>> {
    if rest.Err? || rest.value == None then rest else Ok(Some(start + rest.value.value))
  }

  function EntryFor(hostname: string, ip: string): string {
    hostname + ":" + ip
  }

  /** Without an entry for the host, one is put before the image. */
  function Upsert(hostname: string, ip: string, ts: Tokens): (r: Result<Tokens>)
    requires ts != []
    ensures r.Ok? ==> |ts| <= |r.value| <= |ts| + 1
  {
    var entry := EntryFor(hostname, ip);
    var replaced := Replaced(hostname, entry, ts);
    if replaced.Err? then Err(replaced.error)
    else if replaced.value.Some? then Ok(replaced.value.value)
    else Ok(ts[..|ts| - 1] + ["--add-host=" + entry] + ts[|ts| - 1..])
  }

  function WithImage(ts: Tokens, image: string): Tokens
    requires ts != []
  {
    ts[..|ts| - 1] + [image]
  }

  datatype Target = Target(image: string, hostname: string, ip: string)

  /** The three passes over a command. */
  function Retarget(lib: UrlLibrary, target: Target, ts: Tokens): Result<Tokens>
    requires ts != []
  {
    var renamed := RewriteUrls(lib, target.hostname, ts);
    if renamed.Err? then renamed else Finish(target, renamed.value)
  }

  function Finish(target: Target, ts: Tokens): Result<Tokens>
    requires ts != []
  {
    var upserted := Upsert(target.hostname, target.ip, ts);
    if upserted.Err? then upserted else Ok(WithImage(upserted.value, target.image))
  }

  /** The rewritten tokens, or the first error. */
  function Rewrite(lib: UrlLibrary, target: Target, ts: Tokens): Result<Tokens> {
    var name := Validate(ts);
    if name.Err? then Err(name.error) else Retarget(lib, target, ts)
  }
}
