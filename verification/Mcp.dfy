/**
 The five MCP declaration forms around one definition (internal/agentinterop/mcp_model.go:161-506).
 */
module Mcp {
  import opened Options
  import opened McpValues
  import opened Ordering

  datatype Json = Text(text: string) | Texts(texts: seq<string>) | Table(table: map<string, string>) | Flag(flag: bool)

  type Fields = map<string, Json>

  datatype Transport = Stdio | Http

  datatype Definition = Definition(transport: Transport, command: string, args: seq<string>, env: map<string, Value>,
                                   url: string, headers: map<string, Value>, cwd: string)

  const HTTP := "streamable-http"
  const BEARER := "Bearer "
  const AUTHORIZATION := "Authorization"

  function Keys(agent: Agent): set<string> {
    match agent
    case Claude => {"type", "command", "args", "env", "url", "headers"}
    case Codex => {"command", "args", "env", "env_vars", "url", "http_headers", "env_http_headers",
        "bearer_token_env_var", "cwd", "enabled"}
    case Cursor => {"type", "command", "args", "env", "url", "headers"}
    case Gemini => {"type", "command", "args", "env", "url", "httpUrl", "headers", "cwd"}
    case OpenCode => {"type", "command", "environment", "url", "headers", "cwd", "enabled", "oauth"}
  }

  function EnvKey(agent: Agent): string {
    if agent == OpenCode then "environment" else "env"
  }

  function HeaderKey(agent: Agent): string {
    if agent == Codex then "http_headers" else "headers"
  }

  function Lower(s: string): string {
    seq(|s|, i requires 0 <= i < |s| => if 'A' <= s[i] <= 'Z' then (s[i] as int + 32) as char else s[i])
  }

  predicate StandsAt(s: string, t: string, i: nat) {
    i + |t| <= |s| && s[i..i + |t|] == t
  }

  predicate Contains(s: string, t: string) {
    exists i: nat :: i <= |s| && StandsAt(s, t, i)
  }

  predicate Sensitive(name: string) {
    exists term :: term in {"token", "secret", "password", "passwd", "api_key", "apikey", "private_key", "credential", "authorization"}
                   && Contains(Lower(name), term)
  }

  predicate Authorizes(name: string) {
    Lower(name) == "authorization"
  }

  predicate FreeHeader(name: string) {
    name in {"Accept", "Content-Type", "User-Agent"}
  }

  // Reading single fields; None is an error.

  function TextAt(p: Policy, f: Fields, key: string): Option<string> {
    if key !in f then Some("") else if f[key].Text? && p.safe(f[key].text) then Some(f[key].text) else None
  }

  function TextsAt(p: Policy, f: Fields, key: string): Option<seq<string>> {
    if key !in f then Some([])
    else if f[key].Texts? && forall t <- f[key].texts :: p.safe(t) then Some(f[key].texts) else None
  }

  function TableAt(f: Fields, key: string): Option<map<string, string>> {
    if key !in f then Some(map[]) else if f[key].Table? then Some(f[key].table) else None
  }

  // The server part: how it is reached.

  datatype Server = Server(transport: Transport, command: string, args: seq<string>, url: string, cwd: string)

  predicate CommandOk(p: Policy, command: string) {
    !HasAny(command, "${}\r\n") && !p.known(command)
  }

  predicate ArgOk(p: Policy, arg: string) {
    !Sensitive(arg) && !p.known(arg) && !HasAny(arg, TEMPLATE)
  }

  function Launch(p: Policy, agent: Agent, f: Fields): Option<(string, seq<string>)> {
    if agent == OpenCode then
      match TextsAt(p, f, "command")
      case None => None
      case Some(words) => Some(if words == [] then ("", []) else (words[0], words[1..]))
    else
      match (TextAt(p, f, "command"), TextsAt(p, f, "args"))
      case (Some(command), Some(args)) => Some((command, args))
      case _ => None
  }

  /** The transport of an endpoint declared with `kind`, None if it is refused. */
  function Remote(agent: Agent, kind: string, native: bool, transport: string, urlGiven: bool): Option<Transport> {
    if agent == OpenCode && kind != "remote" then None
    else if kind == "remote" && agent != OpenCode then None
    else if kind !in {"http", HTTP, "", "remote"} then None
    else if !(kind in {"http", HTTP} || native || agent == Codex) && transport != HTTP then None
    else if agent == Gemini && kind == "" && urlGiven then None
    else Some(Http)
  }

  function Assemble(p: Policy, agent: Agent, command: string, args: seq<string>, url: string, httpUrl: string,
      kind: string, cwd: string,
                    transport: string, urlGiven: bool): Option<Server>
  {
    var endpoint := if httpUrl != "" then httpUrl else url;
    if httpUrl != "" && url != "" then None
    else if command != "" then
      if endpoint != "" || !(kind in {"", "stdio"} || (agent == OpenCode && kind == "local")) then None
      else if !CommandOk(p, command) || !(forall a <- args :: ArgOk(p, a)) then None
      else Some(Server(Stdio, command, args, "", cwd))
    else if endpoint == "" || Remote(agent, kind, httpUrl != "", transport, urlGiven) == None || !p.endpoint(endpoint) then None
    else if args != [] || cwd != "" then None
    else Some(Server(Http, "", [], endpoint, ""))
  }

  function ParseServer(p: Policy, agent: Agent, f: Fields, transport: string): Option<Server> {
    match (Launch(p, agent, f), TextAt(p, f, "url"), TextAt(p, f, "httpUrl"), TextAt(p, f, "type"), TextAt(p, f, "cwd"))
    case (Some(launch), Some(url), Some(httpUrl), Some(kind), Some(cwd)) =>
      Assemble(p, agent, launch.0, launch.1, url, httpUrl, kind, cwd, transport, "url" in f)
    case _ => None
  }

  // Environment and headers.

  predicate EnvEntryOk(p: Policy, agent: Agent, name: string, text: string) {
    && IsName(name)
    && ParseValue(p, agent, text).Some?
    && (Sensitive(name) ==> SecretByReference(ParseValue(p, agent, text).value))
  }

  predicate SecretByReference(v: Value) {
    v.variable != "" && (v.fallback.Some? ==> v.fallback.value == "")
  }

  function EnvOf(p: Policy, agent: Agent, table: map<string, string>): Option<map<string, Value>> {
    if forall name <- table :: EnvEntryOk(p, agent, name, table[name])
    then Some(map name | name in table :: ParseValue(p, agent, table[name]).value)
    else None
  }

  /** Names forwarded under their own name. */
  function Forwarded(names: seq<string>): map<string, Value> {
    map name | name in names :: Reference(name, None)
  }

  function ParseEnv(p: Policy, agent: Agent, f: Fields): Option<map<string, Value>> {
    match (TableAt(f, EnvKey(agent)), if agent == Codex then TextsAt(p, f, "env_vars") else Some([]))
    case (Some(table), Some(names)) =>
      if EnvOf(p, agent, table).Some? && NoDuplicates(names) && forall n <- names :: IsName(n) && n !in table
      then Some(EnvOf(p, agent, table).value + Forwarded(names)) else None
    case _ => None
  }

  predicate NoDuplicates(s: seq<string>) {
    forall i, j :: 0 <= i < j < |s| ==> s[i] != s[j]
  }

  function HeaderPrefix(name: string, text: string): string {
    if Authorizes(name) && BEARER <= text then BEARER else ""
  }

  function HeaderValue(p: Policy, agent: Agent, name: string, text: string): Option<Value> {
    var prefix := HeaderPrefix(name, text);
    match ParseValue(p, agent, text[|prefix|..])
    case None => None
    case Some(v) =>
      if !p.safe(name) || (v.variable == "" && !FreeHeader(name)) || (v.fallback.Some? && v.fallback.value != "") then None
      else Some(v.(prefix := prefix))
  }

  function HeadersOf(p: Policy, agent: Agent, table: map<string, string>): Option<map<string, Value>> {
    if forall name <- table :: HeaderValue(p, agent, name, table[name]).Some?
    then Some(map name | name in table :: HeaderValue(p, agent, name, table[name]).value)
    else None
  }

  /** Codex's headers taken from variables. */
  function VariableHeaders(table: map<string, string>): map<string, Value> {
    map name | name in table :: Reference(table[name], None)
  }

  function BearerHeader(bearer: string): map<string, Value> {
    if bearer == "" then map[] else map[AUTHORIZATION := Value(bearer, "", None, BEARER)]
  }

  function ParseHeaders(p: Policy, agent: Agent, f: Fields): Option<map<string, Value>> {
    match TableAt(f, HeaderKey(agent))
    case None => None
    case Some(table) =>
      if HeadersOf(p, agent, table) == None then None
      else if agent != Codex then HeadersOf(p, agent, table)
      else
        match (TableAt(f, "env_http_headers"), TextAt(p, f, "bearer_token_env_var"))
        case (Some(names), Some(bearer)) =>
          if (forall n <- names :: IsName(names[n]) && p.safe(n) && n !in table)
             && (bearer != "" ==> IsName(bearer) && AUTHORIZATION !in table && AUTHORIZATION !in names)
          then Some(HeadersOf(p, agent, table).value + VariableHeaders(names) + BearerHeader(bearer))
          else None
        case _ => None
  }

  /** `parseMCP`. */
  function Parse(p: Policy, agent: Agent, f: Fields, transport: string): Option<Definition> {
    if !(f.Keys <= Keys(agent)) || ("enabled" in f && f["enabled"] != Flag(true)) || ("oauth" in f && f["oauth"] != Flag(false)) then None
    else
      match (ParseServer(p, agent, f, transport), ParseEnv(p, agent, f), ParseHeaders(p, agent, f))
      case (Some(s), Some(env), Some(headers)) =>
        if s.transport == Stdio && headers != map[] then None
        else Some(Definition(s.transport, s.command, s.args, env, s.url, headers, s.cwd))
      case _ => None
  }

  // Rendering.

  function If(c: bool, key: string, j: Json): Fields {
    if c then map[key := j] else map[]
  }

  function RenderServer(agent: Agent, d: Definition): Option<Fields> {
    match d.transport
    case Stdio =>
      if d.cwd != "" && agent !in {Codex, Gemini, OpenCode} then None
      else Some((if agent == OpenCode then map["type" := Text("local"), "command" := Texts([d.command] + d.args)]
                 else map["command" := Text(d.command)] + If(d.args != [], "args", Texts(d.args)))
                + If(d.cwd != "", "cwd", Text(d.cwd)))
    case Http =>
      match agent
      case Claude => Some(map["type" := Text("http"), "url" := Text(d.url)])
      case Gemini => Some(map["httpUrl" := Text(d.url)])
      case OpenCode => Some(map["type" := Text("remote"), "url" := Text(d.url), "oauth" := Flag(false)])
      case _ => Some(map["url" := Text(d.url)])
  }

  predicate ForwardsName(name: string, v: Value) {
    v.variable == name && v.fallback == None && v.prefix == ""
  }

  /** The table of formatted values, None when one of them cannot be spelled. */
  function Formatted(agent: Agent, values: map<string, Value>): Option<map<string, string>> {
    if forall n <- values :: FormatValue(agent, values[n]).Some?
    then Some(map n | n in values :: FormatValue(agent, values[n]).value)
    else None
  }

  function Literals(values: map<string, Value>): map<string, string> {
    map n | n in values && values[n].variable == "" :: values[n].literal
  }

  function References(values: map<string, Value>): map<string, Value> {
    map n | n in values && values[n].variable != "" :: values[n]
  }

  function TableField(key: string, table: map<string, string>): Fields {
    If(table != map[], key, Table(table))
  }

  function RenderEnv(agent: Agent, env: map<string, Value>): Option<Fields> {
    if agent != Codex then
      match Formatted(agent, env)
      case Some(table) => Some(TableField(EnvKey(agent), table))
      case None => None
    else if forall n <- References(env) :: ForwardsName(n, env[n]) then
      Some(TableField("env", Literals(env)) + If(References(env) != map[], "env_vars", Texts(Listed(References(env).Keys))))
    else None
  }

  predicate IsBearer(name: string, v: Value) {
    Authorizes(name) && v.prefix == BEARER
  }

  /** Codex's `env_http_headers`. */
  function NamedVariables(headers: map<string, Value>): map<string, string> {
    map n | n in headers && headers[n].variable != "" && !IsBearer(n, headers[n]) :: headers[n].variable
  }

  /** `bearer` is the name of the header rendered as the bearer variable, "" when there is none. */
  predicate BearerChosen(headers: map<string, Value>, bearer: string) {
    if bearer == "" then forall n <- headers :: headers[n].variable != "" ==> !IsBearer(n, headers[n])
    else bearer in headers && headers[bearer].variable != "" && IsBearer(bearer, headers[bearer])
  }

  function RenderHeaders(agent: Agent, headers: map<string, Value>, bearer: string): Option<Fields>
    requires BearerChosen(headers, bearer)
  {
    if agent != Codex then
      match Formatted(agent, headers)
      case Some(table) => Some(TableField("headers", table))
      case None => None
    else if forall n <- References(headers) :: headers[n].fallback == None && (headers[n].prefix == "" || IsBearer(n, headers[n])) then
      Some(TableField("http_headers", Literals(headers)) + TableField("env_http_headers", NamedVariables(headers))
           + If(bearer != "", "bearer_token_env_var", Text(if bearer == "" then "" else headers[bearer].variable)))
    else None
  }

  /** `renderMCP`; `bearer` is the Authorization header that map iteration reaches last. */
  function Render(agent: Agent, d: Definition, bearer: string): Option<Fields>
    requires BearerChosen(d.headers, bearer)
  {
    match RenderServer(agent, d)
    case None => None
    case Some(server) =>
      if d.transport == Stdio then
        match RenderEnv(agent, d.env)
        case Some(env) => Some(server + env)
        case None => None
      else if d.env != map[] then None
      else
        match RenderHeaders(agent, d.headers, bearer)
        case Some(headers) => Some(server + headers)
        case None => None
  }

  // What an accepted definition is, whoever declared it.

  predicate ServerSound(p: Policy, d: Definition) {
    (d.cwd != "" ==> p.safe(d.cwd)) &&
    match d.transport
    case Stdio =>
      && d.command != "" && d.url == "" && d.headers == map[]
      && p.safe(d.command) && CommandOk(p, d.command) && forall a <- d.args :: p.safe(a) && ArgOk(p, a)
    case Http =>
      && d.command == "" && d.args == [] && d.cwd == "" && d.url != "" && p.safe(d.url) && p.endpoint(d.url)
  }

  predicate EnvSound(p: Policy, env: map<string, Value>) {
    forall n <- env :: IsName(n) && Plain(p, env[n]) && (Sensitive(n) ==> SecretByReference(env[n]))
  }

  predicate HeaderSound(p: Policy, n: string, v: Value) {
    && (v.prefix == "" || (v.prefix == BEARER && Authorizes(n)))
    && Plain(p, v.(prefix := ""))
    && (v.variable == "" ==> FreeHeader(n))
    && (v.fallback.Some? ==> v.fallback.value == "")
  }

  predicate HeadersSound(p: Policy, headers: map<string, Value>) {
    forall n <- headers :: HeaderSound(p, n, headers[n])
  }

  predicate Sound(p: Policy, d: Definition) {
    ServerSound(p, d) && EnvSound(p, d.env) && HeadersSound(p, d.headers)
  }

  lemma ServerIsSound(p: Policy, agent: Agent, f: Fields, transport: string, d: Definition)
    requires Parse(p, agent, f, transport) == Some(d)
    ensures ServerSound(p, d)
  {
    hide ParseEnv, ParseHeaders, CommandOk, ArgOk;
  }

  lemma EnvIsSound(p: Policy, agent: Agent, f: Fields)
    ensures ParseEnv(p, agent, f).Some? ==> EnvSound(p, ParseEnv(p, agent, f).value)
  {
    if ParseEnv(p, agent, f).Some? {
      var env, table := ParseEnv(p, agent, f).value, TableAt(f, EnvKey(agent)).value;
      forall n | n in env
        ensures IsName(n) && Plain(p, env[n]) && (Sensitive(n) ==> SecretByReference(env[n]))
      {
        if n in table {
          ParsedIsPlain(p, agent, table[n]);
          assert EnvEntryOk(p, agent, n, table[n]);
        }
      }
    }
  }

  lemma HeadersAreSound(p: Policy, agent: Agent, f: Fields)
    ensures ParseHeaders(p, agent, f).Some? ==> HeadersSound(p, ParseHeaders(p, agent, f).value)
  {
    forall n: string, t: string
      ensures HeaderValue(p, agent, n, t).Some? ==> HeaderSound(p, n, HeaderValue(p, agent, n, t).value)
    {
      HeaderIsSound(p, agent, n, t);
    }
    assert Authorizes(AUTHORIZATION);
    hide HeaderValue, HeaderPrefix, Authorizes;
  }

  lemma HeaderIsSound(p: Policy, agent: Agent, n: string, t: string)
    ensures HeaderValue(p, agent, n, t).Some? ==> HeaderSound(p, n, HeaderValue(p, agent, n, t).value)
  {
    ParsedIsPlain(p, agent, t[|HeaderPrefix(n, t)|..]);
  }

  /** Whatever client declared it, an accepted definition meets every rule of every other client's parser
      that does not concern spelling. */
  lemma ParsedIsSound(p: Policy, agent: Agent, f: Fields, transport: string, d: Definition)
    requires Parse(p, agent, f, transport) == Some(d)
    ensures Sound(p, d)
  {
    ServerIsSound(p, agent, f, transport, d);
    EnvIsSound(p, agent, f);
    HeadersAreSound(p, agent, f);
    hide ServerSound, EnvSound, HeadersSound, ParseServer, ParseEnv, ParseHeaders, Keys;
  }

  // Reading back what was rendered.

  /** The text of a header value, without its prefix. */
  function Shown(agent: Agent, v: Value): Option<string> {
    FormatValue(agent, v.(prefix := ""))
  }

  predicate EnvReadable(p: Policy, agent: Agent, env: map<string, Value>) {
    forall n <- env :: if agent == Codex then env[n].variable != "" ==> p.safe(n)
                       else FormatValue(agent, env[n]).Some? ==> Clean(p, FormatValue(agent, env[n]).value)
  }

  predicate HeadersReadable(p: Policy, agent: Agent, headers: map<string, Value>, bearer: string) {
    if agent == Codex then
      forall n <- headers ::
        if headers[n].variable != "" && IsBearer(n, headers[n]) then n == bearer == AUTHORIZATION
            && p.safe(headers[n].variable) else p.safe(n)
    else
      forall n <- headers :: p.safe(n) && (Shown(agent, headers[n]).Some? ==> Clean(p, Shown(agent, headers[n]).value))
  }

  /** The rendered text passes the destination's text tests and, for Codex, Authorization is written so. */
  predicate Readable(p: Policy, agent: Agent, d: Definition, bearer: string) {
    if d.transport == Stdio then EnvReadable(p, agent, d.env) else HeadersReadable(p, agent, d.headers, bearer)
  }

  /** Short printable ASCII is safe text. */
  ghost predicate Sane(p: Policy) {
    forall s: string :: |s| <= 4096 && (forall i :: 0 <= i < |s| ==> ' ' <= s[i] <= '~') ==> p.safe(s)
  }

  lemma ServerTrip(p: Policy, agent: Agent, d: Definition, rest: Fields)
    requires Sane(p) && ServerSound(p, d) && RenderServer(agent, d).Some?
    requires forall k <- rest :: !ServerKey(k)
    ensures ParseServer(p, agent, RenderServer(agent, d).value + rest, HTTP) == Some(Server(d.transport, d.command, d.args, d.url, d.cwd))
    ensures var f := RenderServer(agent, d).value + rest; ("enabled" !in f) && ("oauth" in f ==> f["oauth"] == Flag(false))
  {
    if d.transport == Stdio {
      StdioTrip(p, agent, d, rest);
    } else {
      HttpTrip(p, agent, d, rest);
    }
  }

  lemma WordsAreSafe(p: Policy)
    requires Sane(p)
    ensures p.safe("http") && p.safe("remote") && p.safe("local")
  {
  }

  lemma StdioTrip(p: Policy, agent: Agent, d: Definition, rest: Fields)
    requires Sane(p) && ServerSound(p, d) && RenderServer(agent, d).Some? && d.transport == Stdio
    requires forall k <- rest :: !ServerKey(k)
    ensures ParseServer(p, agent, RenderServer(agent, d).value + rest, HTTP) == Some(Server(Stdio, d.command, d.args, "", d.cwd))
    ensures var f := RenderServer(agent, d).value + rest; "enabled" !in f && "oauth" !in f
  {
    hide *;
    WordsAreSafe(p);
    LaunchTrip(p, agent, d, rest);
    StdioLookups(p, agent, d, rest);
    StdioAssembles(p, agent, d, RenderServer(agent, d).value + rest);
  }

  lemma StdioLookups(p: Policy, agent: Agent, d: Definition, rest: Fields)
    requires p.safe("local") && ServerSound(p, d) && RenderServer(agent, d).Some? && d.transport == Stdio
    requires forall k <- rest :: !ServerKey(k)
    ensures var f := RenderServer(agent, d).value + rest;
            && TextAt(p, f, "cwd") == Some(d.cwd) && TextAt(p, f, "url") == Some("") && TextAt(p, f, "httpUrl") == Some("")
            && TextAt(p, f, "type") == Some(if agent == OpenCode then "local" else "")
            && "enabled" !in f && "oauth" !in f
  {
    hide CommandOk, ArgOk;
  }

  lemma StdioAssembles(p: Policy, agent: Agent, d: Definition, f: Fields)
    requires ServerSound(p, d) && d.transport == Stdio && Launch(p, agent, f) == Some((d.command, d.args))
    requires TextAt(p, f, "cwd") == Some(d.cwd) && TextAt(p, f, "url") == Some("") && TextAt(p, f, "httpUrl") == Some("")
    requires TextAt(p, f, "type") == Some(if agent == OpenCode then "local" else "")
    ensures ParseServer(p, agent, f, HTTP) == Some(Server(Stdio, d.command, d.args, "", d.cwd))
  {
    hide Launch, TextAt, CommandOk, ArgOk;
  }

  lemma LaunchTrip(p: Policy, agent: Agent, d: Definition, rest: Fields)
    requires ServerSound(p, d) && RenderServer(agent, d).Some? && d.transport == Stdio
    requires forall k <- rest :: !ServerKey(k)
    ensures Launch(p, agent, RenderServer(agent, d).value + rest) == Some((d.command, d.args))
  {
    hide CommandOk, ArgOk;
    var f := RenderServer(agent, d).value + rest;
    if agent == OpenCode {
      assert f["command"].texts == [d.command] + d.args && f["command"].texts[1..] == d.args;
      assert forall t <- f["command"].texts :: t == d.command || t in d.args;
    } else if d.args != [] {
      assert f["args"] == Texts(d.args);
    } else {
      assert "args" !in f;
    }
  }

  lemma HttpTrip(p: Policy, agent: Agent, d: Definition, rest: Fields)
    requires Sane(p) && ServerSound(p, d) && RenderServer(agent, d).Some? && d.transport == Http
    requires forall k <- rest :: !ServerKey(k)
    ensures ParseServer(p, agent, RenderServer(agent, d).value + rest, HTTP) == Some(Server(Http, "", [], d.url, ""))
    ensures var f := RenderServer(agent, d).value + rest; "enabled" !in f && ("oauth" in f ==> f["oauth"] == Flag(false))
  {
    hide *;
    WordsAreSafe(p);
    HttpLookups(p, agent, d, rest);
    HttpAssembles(p, agent, d, RenderServer(agent, d).value + rest);
  }

  lemma HttpLookups(p: Policy, agent: Agent, d: Definition, rest: Fields)
    requires p.safe("http") && p.safe("remote") && ServerSound(p, d) && d.transport == Http
    requires forall k <- rest :: !ServerKey(k)
    ensures var f := RenderServer(agent, d).value + rest;
            && Launch(p, agent, f) == Some(("", [])) && TextAt(p, f, "cwd") == Some("")
            && TextAt(p, f, "type") == Some(match agent case Claude => "http" case OpenCode => "remote" case _ => "")
            && TextAt(p, f, if agent == Gemini then "httpUrl" else "url") == Some(d.url)
            && TextAt(p, f, if agent == Gemini then "url" else "httpUrl") == Some("")
            && ("url" in f <==> agent != Gemini) && "enabled" !in f && ("oauth" in f ==> f["oauth"] == Flag(false))
  {
  }

  lemma HttpAssembles(p: Policy, agent: Agent, d: Definition, f: Fields)
    requires ServerSound(p, d) && d.transport == Http
    requires Launch(p, agent, f) == Some(("", [])) && TextAt(p, f, "cwd") == Some("")
    requires TextAt(p, f, "type") == Some(match agent case Claude => "http" case OpenCode => "remote" case _ => "")
    requires TextAt(p, f, if agent == Gemini then "httpUrl" else "url") == Some(d.url)
    requires TextAt(p, f, if agent == Gemini then "url" else "httpUrl") == Some("") && ("url" in f <==> agent != Gemini)
    ensures ParseServer(p, agent, f, HTTP) == Some(Server(Http, "", [], d.url, ""))
  {
    hide Launch, TextAt;
  }

  /** A table whose every text reads back as its value, if it is clean. */
  lemma EnvOfTrip(p: Policy, agent: Agent, env: map<string, Value>, table: map<string, string>)
    requires table.Keys == env.Keys && EnvSound(p, env)
    requires forall n <- env :: ParseValue(p, agent, table[n]) == if Clean(p, table[n]) then Some(env[n]) else None
    ensures EnvOf(p, agent, table) == if forall n <- env :: Clean(p, table[n]) then Some(env) else None
  {
    hide ParseValue, Sensitive, Plain, Clean, IsName, SecretByReference;
    if n :| n in env && !Clean(p, table[n]) {
      assert !EnvEntryOk(p, agent, n, table[n]);
    } else {
      assert forall n <- table :: EnvEntryOk(p, agent, n, table[n]);
      assert EnvOf(p, agent, table).value == env;
    }
  }

  lemma EnvTrip(p: Policy, agent: Agent, env: map<string, Value>, f: Fields)
    requires agent != Codex && EnvSound(p, env) && Formatted(agent, env).Some?
    requires TableAt(f, EnvKey(agent)) == Some(Formatted(agent, env).value)
    ensures ParseEnv(p, agent, f) == if EnvReadable(p, agent, env) then Some(env) else None
  {
    hide *;
    FormattedReads(p, agent, env);
    EnvOfTrip(p, agent, env, Formatted(agent, env).value);
    EnvJoin(p, agent, env, Formatted(agent, env).value, f);
  }

  lemma FormattedReads(p: Policy, agent: Agent, env: map<string, Value>)
    requires EnvSound(p, env) && Formatted(agent, env).Some?
    ensures var table := Formatted(agent, env).value;
            && table.Keys == env.Keys
            && forall n <- env :: FormatValue(agent, env[n]) == Some(table[n])
                                  && ParseValue(p, agent, table[n]) == if Clean(p, table[n]) then Some(env[n]) else None
  {
    var table := Formatted(agent, env).value;
    forall n | n in env
      ensures ParseValue(p, agent, table[n]) == if Clean(p, table[n]) then Some(env[n]) else None
    {
      ValueRoundTrip(p, agent, env[n]);
    }
  }

  lemma EnvJoin(p: Policy, agent: Agent, env: map<string, Value>, table: map<string, string>, f: Fields)
    requires agent != Codex && table.Keys == env.Keys && forall n <- env :: FormatValue(agent, env[n]) == Some(table[n])
    requires TableAt(f, EnvKey(agent)) == Some(table)
    requires EnvOf(p, agent, table) == if forall n <- env :: Clean(p, table[n]) then Some(env) else None
    ensures ParseEnv(p, agent, f) == if EnvReadable(p, agent, env) then Some(env) else None
  {
    hide FormatValue, EnvOf, Clean, TableAt, EnvKey;
    assert Forwarded([]) == map[];
    assert EnvReadable(p, agent, env) <==> forall n <- env :: Clean(p, table[n]);
    assert env + Forwarded([]) == env;
  }

  lemma CodexEnvTrip(p: Policy, env: map<string, Value>, f: Fields)
    requires EnvSound(p, env) && forall n <- References(env) :: ForwardsName(n, env[n])
    requires TableAt(f, "env") == Some(Literals(env))
    requires TextsAt(p, f, "env_vars") == SafeTexts(p, Listed(References(env).Keys))
    ensures ParseEnv(p, Codex, f) == if EnvReadable(p, Codex, env) then Some(env) else None
  {
    var table, names := Literals(env), Listed(References(env).Keys);
    var kept := map n | n in env && env[n].variable == "" :: env[n];
    CodexLiterals(p, env, kept);
    AscendingDistinct(names);
    CodexNames(p, env, names);
    hide *;
    CodexJoin(p, env, f, kept, table, names);
  }

  lemma CodexLiterals(p: Policy, env: map<string, Value>, kept: map<string, Value>)
    requires EnvSound(p, env) && kept == map n | n in env && env[n].variable == "" :: env[n]
    ensures EnvOf(p, Codex, Literals(env)) == Some(kept)
  {
    var table := Literals(env);
    forall n | n in kept
      ensures ParseValue(p, Codex, table[n]) == Some(kept[n]) && Clean(p, table[n])
    {
      assert Plain(p, env[n]) && FormatValue(Codex, env[n]) == Some(table[n]);
      ValueRoundTrip(p, Codex, env[n]);
    }
    hide ParseValue, Sensitive, Clean, Plain, SecretByReference;
    EnvOfTrip(p, Codex, kept, table);
  }

  lemma CodexJoin(p: Policy, env: map<string, Value>, f: Fields, kept: map<string, Value>, table: map<string, string>,
      names: seq<string>)
    requires TableAt(f, "env") == Some(table) && TextsAt(p, f, "env_vars") == SafeTexts(p, names)
    requires kept == (map n | n in env && env[n].variable == "" :: env[n]) && EnvOf(p, Codex, table) == Some(kept)
    requires table.Keys == kept.Keys
    requires NoDuplicates(names) && forall n <- names :: IsName(n) && n in env && env[n] == Reference(n, None)
    requires forall n <- env :: env[n].variable != "" ==> n in names
    requires EnvReadable(p, Codex, env) <==> SafeTexts(p, names) == Some(names)
    requires !EnvReadable(p, Codex, env) <==> SafeTexts(p, names) == None
    ensures ParseEnv(p, Codex, f) == if EnvReadable(p, Codex, env) then Some(env) else None
  {
    hide EnvOf, EnvReadable, SafeTexts, NoDuplicates, TableAt, TextsAt;
    assert forall n <- names :: n !in table by { hide IsName; assert forall n <- names :: IsName(n) ==> n != ""; }
    assert kept + Forwarded(names) == env;
  }

  function SafeTexts(p: Policy, names: seq<string>): Option<seq<string>> {
    if forall n <- names :: p.safe(n) then Some(names) else None
  }

  lemma AscendingDistinct(names: seq<string>)
    requires Ascending(names)
    ensures NoDuplicates(names)
  {
    forall i, j | 0 <= i < j < |names|
      ensures names[i] != names[j]
    {
      LessTotal(names[i], names[j]);
    }
  }

  lemma CodexNames(p: Policy, env: map<string, Value>, names: seq<string>)
    requires EnvSound(p, env) && names == Listed(References(env).Keys) && forall n <- References(env) :: ForwardsName(n, env[n])
    ensures EnvReadable(p, Codex, env) <==> SafeTexts(p, names) == Some(names)
    ensures !EnvReadable(p, Codex, env) <==> SafeTexts(p, names) == None
    ensures forall n <- names :: IsName(n) && n in env && env[n] == Reference(n, None)
    ensures forall n <- env :: env[n].variable != "" ==> n in names
  {
    hide Sensitive, Clean;
  }

  lemma HeaderTrip(p: Policy, agent: Agent, n: string, v: Value)
    requires agent != Codex && HeaderSound(p, n, v) && FormatValue(agent, v).Some?
    ensures Shown(agent, v).Some?
    ensures HeaderValue(p, agent, n, FormatValue(agent, v).value) == if p.safe(n) && Clean(p, Shown(agent, v).value) then Some(v) else None
  {
    var text, shown := FormatValue(agent, v).value, Shown(agent, v).value;
    ValueRoundTrip(p, agent, v.(prefix := ""));
    if v.variable != "" {
      assert shown == Spelled(agent, v).value by { assert "" + Spelled(agent, v).value == Spelled(agent, v).value; }
      assert shown[0] in "${";
      assert text == v.prefix + shown;
    }
    assert HeaderPrefix(n, text) == v.prefix;
    assert text[|v.prefix|..] == shown;
  }

  lemma HeadersTrip(p: Policy, agent: Agent, headers: map<string, Value>, f: Fields)
    requires agent != Codex && HeadersSound(p, headers) && Formatted(agent, headers).Some?
    requires TableAt(f, "headers") == Some(Formatted(agent, headers).value)
    ensures ParseHeaders(p, agent, f) == if HeadersReadable(p, agent, headers, "") then Some(headers) else None
  {
    var table := Formatted(agent, headers).value;
    forall n | n in headers
      ensures Shown(agent, headers[n]).Some?
      ensures HeaderValue(p, agent, n, table[n]) == if p.safe(n) && Clean(p, Shown(agent, headers[n]).value) then Some(headers[n]) else None
    {
      HeaderTrip(p, agent, n, headers[n]);
    }
    hide *;
    HeadersJoin(p, agent, headers, table, f);
  }

  lemma HeadersJoin(p: Policy, agent: Agent, headers: map<string, Value>, table: map<string, string>, f: Fields)
    requires agent != Codex && table.Keys == headers.Keys && TableAt(f, "headers") == Some(table)
    requires forall n <- headers :: Shown(agent, headers[n]).Some?
                                    && HeaderValue(p, agent, n, table[n]) == if p.safe(n)
                                          && Clean(p, Shown(agent, headers[n]).value) then Some(headers[n]) else None
    ensures ParseHeaders(p, agent, f) == if HeadersReadable(p, agent, headers, "") then Some(headers) else None
  {
    hide HeaderValue, Clean, Shown, TableAt;
    if n :| n in headers && !(p.safe(n) && Clean(p, Shown(agent, headers[n]).value)) {
      assert HeaderValue(p, agent, n, table[n]) == None;
    } else {
      assert HeadersOf(p, agent, table).value == headers;
    }
  }

  predicate CodexSpells(headers: map<string, Value>) {
    forall n <- References(headers) :: headers[n].fallback == None && (headers[n].prefix == "" || IsBearer(n, headers[n]))
  }

  /** What the Codex parser finds in the three header fields. */
  function CodexRead(p: Policy, table: map<string, string>, names: map<string, string>,
      bearer: Option<string>): Option<map<string, Value>> {
    if HeadersOf(p, Codex, table) == None || bearer == None then None
    else if (forall n <- names :: IsName(names[n]) && p.safe(n) && n !in table)
            && (bearer.value != "" ==> IsName(bearer.value) && AUTHORIZATION !in table && AUTHORIZATION !in names)
    then Some(HeadersOf(p, Codex, table).value + VariableHeaders(names) + BearerHeader(bearer.value))
    else None
  }

  lemma CodexReads(p: Policy, f: Fields, table: map<string, string>, names: map<string, string>, bearer: Option<string>)
    requires TableAt(f, "http_headers") == Some(table) && TableAt(f, "env_http_headers") == Some(names)
    requires TextAt(p, f, "bearer_token_env_var") == bearer
    ensures ParseHeaders(p, Codex, f) == CodexRead(p, table, names, bearer)
  {
    hide HeadersOf, TableAt, TextAt;
  }

  lemma CodexLiteralHeaders(p: Policy, headers: map<string, Value>)
    requires HeadersSound(p, headers)
    ensures HeadersOf(p, Codex, Literals(headers)) ==
            if forall n <- Literals(headers) :: p.safe(n) then Some(map n | n in headers
                && headers[n].variable == "" :: headers[n]) else None
  {
    var table, kept := Literals(headers), map n | n in headers && headers[n].variable == "" :: headers[n];
    forall n | n in kept
      ensures HeaderValue(p, Codex, n, table[n]) == if p.safe(n) then Some(kept[n]) else None
    {
      assert HeaderSound(p, n, headers[n]);
      LiteralHeader(p, n, headers[n]);
    }
    hide HeaderValue, HeadersSound;
    if n :| n in table && !p.safe(n) {
      assert HeaderValue(p, Codex, n, table[n]) == None;
    } else {
      assert HeadersOf(p, Codex, table).value == kept;
    }
  }

  lemma LiteralHeader(p: Policy, n: string, v: Value)
    requires HeaderSound(p, n, v) && v.variable == ""
    ensures HeaderValue(p, Codex, n, v.literal) == if p.safe(n) then Some(v) else None
  {
    assert !Authorizes(n) by { FreeIsNoAuthorization(n); }
    assert v.literal[0..] == v.literal;
  }

  lemma FreeIsNoAuthorization(n: string)
    ensures FreeHeader(n) ==> !Authorizes(n) && n != AUTHORIZATION
    ensures Authorizes(AUTHORIZATION)
  {
    assert |Lower("Accept")| == 6 && |Lower("Content-Type")| == 12 && |Lower("User-Agent")| == 10;
    assert Lower(AUTHORIZATION) == "authorization";
  }

  /** Read back for Codex exactly when the names are safe text and the bearer header is written Authorization. */
  lemma CodexHeadersTrip(p: Policy, headers: map<string, Value>, bearer: string, f: Fields)
    requires HeadersSound(p, headers) && BearerChosen(headers, bearer) && CodexSpells(headers)
    requires TableAt(f, "http_headers") == Some(Literals(headers)) && TableAt(f, "env_http_headers") == Some(NamedVariables(headers))
    requires TextAt(p, f, "bearer_token_env_var") == SafeBearer(p, headers, bearer)
    ensures ParseHeaders(p, Codex, f) == Some(headers) <==> HeadersReadable(p, Codex, headers, bearer)
  {
    hide *;
    CodexReads(p, f, Literals(headers), NamedVariables(headers), SafeBearer(p, headers, bearer));
    CodexLiteralHeaders(p, headers);
    if HeadersReadable(p, Codex, headers, bearer) {
      CodexReadable(p, headers, bearer);
    } else if CodexRead(p, Literals(headers), NamedVariables(headers), SafeBearer(p, headers, bearer)) == Some(headers) {
      CodexWasReadable(p, headers, bearer);
    }
  }

  function SafeBearer(p: Policy, headers: map<string, Value>, bearer: string): Option<string>
    requires BearerChosen(headers, bearer)
  {
    if bearer == "" then Some("") else if p.safe(headers[bearer].variable) then Some(headers[bearer].variable) else None
  }

  lemma CodexReadable(p: Policy, headers: map<string, Value>, bearer: string)
    requires HeadersSound(p, headers) && BearerChosen(headers, bearer) && CodexSpells(headers) && HeadersReadable(p, Codex, headers, bearer)
    requires HeadersOf(p, Codex, Literals(headers)) ==
            if forall n <- Literals(headers) :: p.safe(n) then Some(map n | n in headers
                && headers[n].variable == "" :: headers[n]) else None
    ensures CodexRead(p, Literals(headers), NamedVariables(headers), SafeBearer(p, headers, bearer)) == Some(headers)
  {
    var kept := map n | n in headers && headers[n].variable == "" :: headers[n];
    var names, b := NamedVariables(headers), SafeBearer(p, headers, bearer);
    SafeLiterals(p, headers, bearer);
    SafeNames(p, headers, bearer);
    SafeBearerName(p, headers, bearer);
    hide HeadersOf, Authorizes, HeadersSound, SafeBearer, IsName, HeadersReadable, BearerChosen, CodexSpells, Literals,
        NamedVariables, IsBearer;
    CodexUnion(headers, kept, names, b.value);
  }

  lemma SafeLiterals(p: Policy, headers: map<string, Value>, bearer: string)
    requires HeadersSound(p, headers) && HeadersReadable(p, Codex, headers, bearer)
    ensures forall n <- Literals(headers) :: p.safe(n) && n != AUTHORIZATION
    ensures forall n <- headers :: headers[n].variable != "" ==> headers[n].literal == ""
  {
    forall n | n in Literals(headers)
      ensures n != AUTHORIZATION && p.safe(n)
    {
      assert HeaderSound(p, n, headers[n]);
      FreeIsNoAuthorization(n);
    }
    assert forall n <- headers :: HeaderSound(p, n, headers[n]);
    hide HeadersReadable, FreeHeader, Authorizes, Clean, HasAny;
  }

  lemma SafeNames(p: Policy, headers: map<string, Value>, bearer: string)
    requires HeadersSound(p, headers) && HeadersReadable(p, Codex, headers, bearer)
    ensures var names := NamedVariables(headers);
            forall n <- names :: IsName(names[n]) && p.safe(n) && n !in Literals(headers)
  {
    assert forall n <- headers :: HeaderSound(p, n, headers[n]);
    hide Authorizes, IsName, Clean, HasAny, FreeHeader;
  }

  lemma SafeBearerName(p: Policy, headers: map<string, Value>, bearer: string)
    requires HeadersSound(p, headers) && BearerChosen(headers, bearer) && HeadersReadable(p, Codex, headers, bearer)
    ensures SafeBearer(p, headers, bearer).Some?
    ensures var b := SafeBearer(p, headers, bearer).value;
            if b == "" then forall n <- headers :: headers[n].variable != "" ==> !IsBearer(n, headers[n])
            else IsName(b) && AUTHORIZATION in headers && headers[AUTHORIZATION].variable == b
                 && IsBearer(AUTHORIZATION, headers[AUTHORIZATION]) && AUTHORIZATION !in NamedVariables(headers)
                 && forall n <- headers :: headers[n].variable != "" && IsBearer(n, headers[n]) ==> n == AUTHORIZATION
  {
    assert forall n <- headers :: HeaderSound(p, n, headers[n]);
    hide Authorizes, IsName, Clean, HasAny, FreeHeader;
  }

  lemma CodexUnion(headers: map<string, Value>, kept: map<string, Value>, names: map<string, string>, b: string)
    requires kept == map n | n in headers && headers[n].variable == "" :: headers[n]
    requires names == NamedVariables(headers) && CodexSpells(headers)
    requires forall n <- headers :: headers[n].variable != "" ==> headers[n].literal == ""
    requires if b == "" then forall n <- headers :: headers[n].variable != "" ==> !IsBearer(n, headers[n])
             else AUTHORIZATION in headers && headers[AUTHORIZATION].variable == b && IsBearer(AUTHORIZATION, headers[AUTHORIZATION])
                  && forall n <- headers :: headers[n].variable != "" && IsBearer(n, headers[n]) ==> n == AUTHORIZATION
    ensures kept + VariableHeaders(names) + BearerHeader(b) == headers
  {
    hide Authorizes;
    var all := kept + VariableHeaders(names) + BearerHeader(b);
    forall n | n in headers
      ensures n in all && all[n] == headers[n]
    {
      if headers[n].variable != "" {
        assert n in References(headers);
        if IsBearer(n, headers[n]) {
          assert headers[n] == Value(b, "", None, BEARER);
        } else {
          assert n in names && headers[n] == Reference(names[n], None);
        }
      }
    }
    assert all.Keys == headers.Keys;
  }

  lemma CodexWasReadable(p: Policy, headers: map<string, Value>, bearer: string)
    requires HeadersSound(p, headers) && BearerChosen(headers, bearer) && CodexSpells(headers)
    requires HeadersOf(p, Codex, Literals(headers)) ==
            if forall n <- Literals(headers) :: p.safe(n) then Some(map n | n in headers
                && headers[n].variable == "" :: headers[n]) else None
    requires CodexRead(p, Literals(headers), NamedVariables(headers), SafeBearer(p, headers, bearer)) == Some(headers)
    ensures HeadersReadable(p, Codex, headers, bearer)
  {
    hide HeadersOf, Authorizes, Clean, HasAny, HeadersSound;
    var b := SafeBearer(p, headers, bearer);
    var kept := map n | n in headers && headers[n].variable == "" :: headers[n];
    assert kept + VariableHeaders(NamedVariables(headers)) + BearerHeader(b.value) == headers;
    forall n | n in headers
      ensures if headers[n].variable != "" && IsBearer(n, headers[n]) then n == bearer == AUTHORIZATION
                && p.safe(headers[n].variable) else p.safe(n)
    {
      if headers[n].variable != "" && IsBearer(n, headers[n]) {
        assert bearer in headers && bearer != "";
        assert n !in kept && n !in NamedVariables(headers) && n in BearerHeader(b.value);
        assert bearer !in kept && bearer !in NamedVariables(headers) && bearer in BearerHeader(b.value);
      } else if headers[n].variable == "" {
        assert n in Literals(headers);
      } else {
        assert n in NamedVariables(headers);
      }
    }
  }

  // The whole declaration.

  /** The keys of the rendered server part, and of nothing else. */
  predicate ServerKey(k: string) {
    k == "type" || k == "command" || k == "args" || k == "url" || k == "httpUrl" || k == "cwd" || k == "enabled" || k == "oauth"
  }

  lemma RenderedServerKeys(agent: Agent, d: Definition)
    requires RenderServer(agent, d).Some?
    ensures forall k <- RenderServer(agent, d).value :: k in Keys(agent) && ServerKey(k)
  {
  }

  /** A key of the environment part, which the server and header parts never use. */
  predicate EnvOnlyKey(agent: Agent, k: string) {
    && k in Keys(agent) && !ServerKey(k)
    && k != HeaderKey(agent) && k != "env_http_headers" && k != "bearer_token_env_var"
  }

  lemma RenderedEnvKeys(agent: Agent, env: map<string, Value>)
    requires RenderEnv(agent, env).Some?
    ensures forall k <- RenderEnv(agent, env).value :: k in Keys(agent) && !ServerKey(k) && k != HeaderKey(agent)
    ensures forall k <- RenderEnv(agent, env).value :: k != "env_http_headers" && k != "bearer_token_env_var"
  {
    hide *;
    EnvKeysApart(agent);
    EnvKeysAre(agent, env);
    forall k | k in RenderEnv(agent, env).value
      ensures k in Keys(agent) && !ServerKey(k) && k != HeaderKey(agent) && k != "env_http_headers" && k != "bearer_token_env_var"
    {
      EnvOnlyIs(agent, k);
    }
  }

  lemma EnvOnlyIs(agent: Agent, k: string)
    ensures EnvOnlyKey(agent, k) ==> k in Keys(agent) && !ServerKey(k)
    ensures EnvOnlyKey(agent, k) ==> k != HeaderKey(agent) && k != "env_http_headers" && k != "bearer_token_env_var"
  {
    hide Keys, ServerKey, HeaderKey;
  }

  lemma EnvKeysAre(agent: Agent, env: map<string, Value>)
    requires RenderEnv(agent, env).Some?
    ensures forall k <- RenderEnv(agent, env).value :: k == EnvKey(agent) || (agent == Codex && k == "env_vars")
  {
    hide Formatted, Literals, References, Listed;
  }

  lemma EnvKeysApart(agent: Agent)
    ensures EnvOnlyKey(agent, EnvKey(agent))
    ensures agent == Codex ==> EnvOnlyKey(agent, "env_vars")
  {
  }

  lemma RenderedHeaderKeys(agent: Agent, headers: map<string, Value>, bearer: string)
    requires BearerChosen(headers, bearer) && RenderHeaders(agent, headers, bearer).Some?
    ensures forall k <- RenderHeaders(agent, headers, bearer).value :: k in Keys(agent) && !ServerKey(k)
              && k != EnvKey(agent) && k != "env_vars"
  {
    HeaderKeysApart(agent);
    HeaderKeysAre(agent, headers, bearer);
    hide Keys, ServerKey, EnvKey, RenderHeaders, BearerChosen;
  }

  lemma HeaderKeysAre(agent: Agent, headers: map<string, Value>, bearer: string)
    requires BearerChosen(headers, bearer) && RenderHeaders(agent, headers, bearer).Some?
    ensures forall k <- RenderHeaders(agent, headers, bearer).value ::
              k == HeaderKey(agent) || (agent == Codex && (k == "env_http_headers" || k == "bearer_token_env_var"))
  {
    hide Formatted, Literals, References, NamedVariables;
  }

  lemma HeaderKeysApart(agent: Agent)
    ensures var k := HeaderKey(agent); k in Keys(agent) && !ServerKey(k) && k != EnvKey(agent) && k != "env_vars"
    ensures agent == Codex ==> forall k :: k == "env_http_headers" || k == "bearer_token_env_var" ==>
                                           k in Keys(agent) && !ServerKey(k) && k != EnvKey(agent) && k != "env_vars"
  {
  }

  lemma KeysJoined(agent: Agent, a: Fields, b: Fields)
    requires forall k <- a :: k in Keys(agent) && ServerKey(k)
    requires forall k <- b :: k in Keys(agent) && !ServerKey(k)
    ensures (a + b).Keys <= Keys(agent)
    ensures forall k :: !ServerKey(k) ==> (k in a + b <==> k in b) && (k in b ==> (a + b)[k] == b[k])
  {
    hide Keys, ServerKey;
  }

  lemma SoundParts(p: Policy, d: Definition)
    requires Sound(p, d)
    ensures ServerSound(p, d) && EnvSound(p, d.env) && HeadersSound(p, d.headers)
    ensures d.transport == Stdio ==> d.headers == map[] && d.url == ""
    ensures d.transport == Http ==> d.command == "" && d.args == [] && d.cwd == ""
  {
    hide EnvSound, HeadersSound;
  }

  /** The three parts of a declaration are read independently. */
  lemma ParseIs(p: Policy, agent: Agent, f: Fields, d: Definition)
    requires f.Keys <= Keys(agent) && "enabled" !in f && ("oauth" in f ==> f["oauth"] == Flag(false))
    requires d.transport == Stdio ==> d.headers == map[]
    ensures Parse(p, agent, f, HTTP) == Some(d) <==>
              && ParseServer(p, agent, f, HTTP) == Some(Server(d.transport, d.command, d.args, d.url, d.cwd))
              && ParseEnv(p, agent, f) == Some(d.env) && ParseHeaders(p, agent, f) == Some(d.headers)
  {
    hide Keys, ParseServer, ParseEnv, ParseHeaders;
  }

  lemma NoHeadersFound(p: Policy, agent: Agent, f: Fields)
    requires HeaderKey(agent) !in f && "env_http_headers" !in f && "bearer_token_env_var" !in f
    ensures ParseHeaders(p, agent, f) == Some(map[])
  {
    hide HeaderValue;
    assert HeadersOf(p, agent, map[]) == Some(map[]);
  }

  lemma NoEnvFound(p: Policy, agent: Agent, f: Fields)
    requires EnvKey(agent) !in f && "env_vars" !in f
    ensures ParseEnv(p, agent, f) == Some(map[])
  {
    hide EnvEntryOk;
    assert EnvOf(p, agent, map[]) == Some(map[]);
  }

  lemma PartKeys(agent: Agent)
    ensures !ServerKey(EnvKey(agent)) && !ServerKey("env_vars") && !ServerKey(HeaderKey(agent))
    ensures !ServerKey("env_http_headers") && !ServerKey("bearer_token_env_var")
  {
  }

  lemma EnvPartTrip(p: Policy, agent: Agent, env: map<string, Value>, f: Fields, part: Fields)
    requires EnvSound(p, env) && RenderEnv(agent, env) == Some(part)
    requires forall k :: !ServerKey(k) ==> (k in f <==> k in part) && (k in part ==> f[k] == part[k])
    ensures ParseEnv(p, agent, f) == if EnvReadable(p, agent, env) then Some(env) else None
  {
    PartKeys(agent);
    hide ServerKey;
    if agent == Codex {
      CodexEnvLookups(p, env, f, part);
      CodexEnvTrip(p, env, f);
    } else {
      var table := Formatted(agent, env).value;
      assert table.Keys == env.Keys;
      TableFound(f, part, EnvKey(agent), table);
      EnvTrip(p, agent, env, f);
    }
  }

  lemma TableFound(f: Fields, part: Fields, key: string, table: map<string, string>)
    requires part == TableField(key, table) && (key in f <==> key in part) && (key in part ==> f[key] == part[key])
    ensures TableAt(f, key) == Some(table)
  {
  }

  lemma CodexEnvLookups(p: Policy, env: map<string, Value>, f: Fields, part: Fields)
    requires RenderEnv(Codex, env) == Some(part)
    requires ("env" in f <==> "env" in part) && ("env" in part ==> f["env"] == part["env"])
    requires ("env_vars" in f <==> "env_vars" in part) && ("env_vars" in part ==> f["env_vars"] == part["env_vars"])
    ensures TableAt(f, "env") == Some(Literals(env)) && TextsAt(p, f, "env_vars") == SafeTexts(p, Listed(References(env).Keys))
    ensures forall n <- References(env) :: ForwardsName(n, env[n])
  {
    var names := Listed(References(env).Keys);
    CodexEnvPart(env, part);
    hide Literals, ForwardsName, References, Listed, RenderEnv;
  }

  lemma CodexEnvPart(env: map<string, Value>, part: Fields)
    requires RenderEnv(Codex, env) == Some(part)
    ensures if Literals(env) == map[] then "env" !in part else "env" in part && part["env"] == Table(Literals(env))
    ensures var names := Listed(References(env).Keys);
            if names == [] then "env_vars" !in part else "env_vars" in part && part["env_vars"] == Texts(names)
    ensures forall n <- References(env) :: ForwardsName(n, env[n])
  {
    var refs := References(env);
    assert Listed(refs.Keys) == [] <==> refs == map[] by {
      assert |Listed(refs.Keys)| == |refs.Keys|;
    }
    hide Literals, ForwardsName, References, Listed;
  }

  /** A declaration for a stdio server reads back exactly when its environment does. */
  lemma StdioRoundTrip(p: Policy, agent: Agent, d: Definition)
    requires Sane(p) && Sound(p, d) && d.transport == Stdio && RenderServer(agent, d).Some? && RenderEnv(agent, d.env).Some?
    ensures Parse(p, agent, RenderServer(agent, d).value + RenderEnv(agent, d.env).value, HTTP) == Some(d) <==>
              EnvReadable(p, agent, d.env)
  {
    hide *;
    var server, env := RenderServer(agent, d).value, RenderEnv(agent, d.env).value;
    var f := server + env;
    SoundParts(p, d);
    RenderedServerKeys(agent, d);
    RenderedEnvKeys(agent, d.env);
    KeysJoined(agent, server, env);
    PartKeys(agent);
    ServerTrip(p, agent, d, env);
    EnvPartTrip(p, agent, d.env, f, env);
    NoHeadersFound(p, agent, f);
    ParseIs(p, agent, f, d);
  }

  lemma HeaderPartTrip(p: Policy, agent: Agent, headers: map<string, Value>, bearer: string, f: Fields, part: Fields)
    requires HeadersSound(p, headers) && BearerChosen(headers, bearer) && RenderHeaders(agent, headers, bearer) == Some(part)
    requires forall k :: !ServerKey(k) ==> (k in f <==> k in part) && (k in part ==> f[k] == part[k])
    ensures ParseHeaders(p, agent, f) == Some(headers) <==> HeadersReadable(p, agent, headers, bearer)
  {
    PartKeys(agent);
    hide ServerKey;
    if agent == Codex {
      CodexHeaderLookups(p, headers, bearer, f, part);
      CodexHeadersTrip(p, headers, bearer, f);
    } else {
      var table := Formatted(agent, headers).value;
      TableFound(f, part, "headers", table);
      HeadersTrip(p, agent, headers, f);
      SameReadable(p, agent, headers, bearer);
    }
  }

  lemma SameReadable(p: Policy, agent: Agent, headers: map<string, Value>, bearer: string)
    requires agent != Codex
    ensures HeadersReadable(p, agent, headers, bearer) == HeadersReadable(p, agent, headers, "")
  {
  }

  lemma CodexHeaderLookups(p: Policy, headers: map<string, Value>, bearer: string, f: Fields, part: Fields)
    requires BearerChosen(headers, bearer) && RenderHeaders(Codex, headers, bearer) == Some(part)
    requires forall k <- ["http_headers", "env_http_headers", "bearer_token_env_var"] :: (k in f <==>
              k in part) && (k in part ==> f[k] == part[k])
    ensures TableAt(f, "http_headers") == Some(Literals(headers)) && TableAt(f, "env_http_headers") == Some(NamedVariables(headers))
    ensures TextAt(p, f, "bearer_token_env_var") == SafeBearer(p, headers, bearer) && CodexSpells(headers)
  {
    var ks := ["http_headers", "env_http_headers", "bearer_token_env_var"];
    assert ks[0] in ks && ks[1] in ks && ks[2] in ks;
    CodexHeaderPart(headers, bearer, part);
    hide Literals, NamedVariables, IsBearer, RenderHeaders, BearerChosen;
  }

  lemma CodexHeaderPart(headers: map<string, Value>, bearer: string, part: Fields)
    requires BearerChosen(headers, bearer) && RenderHeaders(Codex, headers, bearer) == Some(part)
    ensures if Literals(headers) == map[] then "http_headers" !in part
            else "http_headers" in part && part["http_headers"] == Table(Literals(headers))
    ensures if NamedVariables(headers) == map[] then "env_http_headers" !in part
            else "env_http_headers" in part && part["env_http_headers"] == Table(NamedVariables(headers))
    ensures if bearer == "" then "bearer_token_env_var" !in part
            else bearer in headers && "bearer_token_env_var" in part && part["bearer_token_env_var"] == Text(headers[bearer].variable)
    ensures CodexSpells(headers)
  {
    hide Literals, NamedVariables, IsBearer;
  }

  lemma HttpRoundTrip(p: Policy, agent: Agent, d: Definition, bearer: string)
    requires Sane(p) && Sound(p, d) && d.transport == Http && d.env == map[] && BearerChosen(d.headers, bearer)
    requires RenderServer(agent, d).Some? && RenderHeaders(agent, d.headers, bearer).Some?
    ensures Parse(p, agent, RenderServer(agent, d).value + RenderHeaders(agent, d.headers, bearer).value, HTTP) == Some(d) <==>
            HeadersReadable(p, agent, d.headers, bearer)
  {
    hide *;
    var server, headers := RenderServer(agent, d).value, RenderHeaders(agent, d.headers, bearer).value;
    var f := server + headers;
    SoundParts(p, d);
    RenderedServerKeys(agent, d);
    RenderedHeaderKeys(agent, d.headers, bearer);
    KeysJoined(agent, server, headers);
    PartKeys(agent);
    ServerTrip(p, agent, d, headers);
    HeaderPartTrip(p, agent, d.headers, bearer, f, headers);
    NoEnvFound(p, agent, f);
    ParseIs(p, agent, f, d);
  }

  lemma RenderParts(p: Policy, agent: Agent, d: Definition, bearer: string, f: Fields)
    requires BearerChosen(d.headers, bearer) && Render(agent, d, bearer) == Some(f)
    ensures RenderServer(agent, d).Some?
    ensures d.transport == Stdio ==>
              RenderEnv(agent, d.env).Some? && f == RenderServer(agent, d).value + RenderEnv(agent, d.env).value
    ensures d.transport == Http ==> d.env == map[] && RenderHeaders(agent, d.headers, bearer).Some?
                                    && f == RenderServer(agent, d).value + RenderHeaders(agent, d.headers, bearer).value
    ensures Readable(p, agent, d, bearer) == if d.transport == Stdio then EnvReadable(p, agent, d.env)
              else HeadersReadable(p, agent, d.headers, bearer)
  {
    hide RenderServer, RenderEnv, RenderHeaders, EnvReadable, HeadersReadable, BearerChosen;
  }

  /** Whatever client's declaration is accepted and whatever client it is rendered for, reading the
      rendered form gives the same definition exactly when the rendered text passes the text tests and,
      for Codex, the bearer header is spelled Authorization. */
  lemma RoundTrip(p: Policy, from: Agent, declared: Fields, transport: string, d: Definition, to: Agent,
      bearer: string, rendered: Fields)
    requires Sane(p) && Parse(p, from, declared, transport) == Some(d)
    requires BearerChosen(d.headers, bearer) && Render(to, d, bearer) == Some(rendered)
    ensures Parse(p, to, rendered, HTTP) == Some(d) <==> Readable(p, to, d, bearer)
  {
    hide *;
    ParsedIsSound(p, from, declared, transport, d);
    RenderParts(p, to, d, bearer, rendered);
    if d.transport == Stdio {
      StdioRoundTrip(p, to, d);
    } else {
      HttpRoundTrip(p, to, d, bearer);
    }
  }

  function BearerOnly(name: string, variable: string, url: string): Definition {
    Definition(Http, "", [], map[], url, map[name := Value(variable, "", None, BEARER)], "")
  }

  /** The text tests pass what the example below holds: the endpoint, and `${variable}`. */
  ghost predicate Passes(p: Policy, variable: string, url: string) {
    Sane(p) && p.safe(url) && p.endpoint(url) && Clean(p, "${" + variable + "}")
  }

  /** Written in any other case (as `authorization`, say), the bearer header comes back from Codex under
      another name: the translation is accepted and reads back as a different definition. */
  lemma OtherCaseIsRenamed(p: Policy, name: string, variable: string, url: string)
    returns (declared: Fields, rendered: Fields)
    requires Passes(p, variable, url)
    requires Authorizes(name) && name != AUTHORIZATION && IsName(variable) && url != ""
    ensures Parse(p, Claude, declared, HTTP) == Some(BearerOnly(name, variable, url))
    ensures BearerChosen(BearerOnly(name, variable, url).headers, name)
    ensures Render(Codex, BearerOnly(name, variable, url), name) == Some(rendered)
    ensures Parse(p, Codex, rendered, HTTP) != Some(BearerOnly(name, variable, url))
  {
    var d := BearerOnly(name, variable, url);
    BearerOnlyFacts(p, name, variable, url);
    declared := RenderServer(Claude, d).value + RenderHeaders(Claude, d.headers, name).value;
    rendered := RenderServer(Codex, d).value + RenderHeaders(Codex, d.headers, name).value;
    hide *;
    HttpRoundTrip(p, Claude, d, name);
    HttpRoundTrip(p, Codex, d, name);
    RenderIs(Codex, d, name);
  }

  lemma BearerOnlyFacts(p: Policy, name: string, variable: string, url: string)
    requires Passes(p, variable, url)
    requires Authorizes(name) && name != AUTHORIZATION && IsName(variable) && url != ""
    ensures var d := BearerOnly(name, variable, url);
            && Sane(p) && Sound(p, d) && d.transport == Http && d.env == map[] && BearerChosen(d.headers, name)
            && RenderServer(Claude, d).Some? && RenderHeaders(Claude, d.headers, name).Some? && HeadersReadable(p, Claude, d.headers, name)
            && RenderServer(Codex, d).Some? && RenderHeaders(Codex, d.headers, name).Some? && !HeadersReadable(p, Codex, d.headers, name)
  {
    hide *;
    BearerIsSound(p, name, variable, url);
    AuthorizingIsSafe(p, name);
    PassesIs(p, variable, url);
    BearerForClaude(p, BearerOnly(name, variable, url).headers, name);
    BearerForCodex(p, BearerOnly(name, variable, url).headers, name);
  }

  lemma BearerIsSound(p: Policy, name: string, variable: string, url: string)
    requires Passes(p, variable, url)
    requires Authorizes(name) && IsName(variable) && url != ""
    ensures var d := BearerOnly(name, variable, url);
            && Sane(p) && Sound(p, d) && d.transport == Http && d.env == map[] && RenderServer(Claude, d).Some?
                  && RenderServer(Codex, d).Some?
            && d.headers.Keys == {name} && name in d.headers && d.headers[name] == Value(variable, "", None, BEARER) && variable != ""
  {
    hide *;
    var d := BearerOnly(name, variable, url);
    PassesIs(p, variable, url);
    BearerOnlyIs(name, variable, url);
    BearerHeaderSound(p, d.headers, name, variable);
    BearerServerSound(p, d);
    SoundFrom(p, d);
  }

  lemma BearerOnlyIs(name: string, variable: string, url: string)
    requires IsName(variable)
    ensures BearerOnly(name, variable, url) ==
            Definition(Http, "", [], map[], url, map[name := Value(variable, "", None, BEARER)], "")
    ensures variable != ""
  {
  }

  lemma BearerHeaderSound(p: Policy, headers: map<string, Value>, name: string, variable: string)
    requires headers == map[name := Value(variable, "", None, BEARER)] && Authorizes(name) && IsName(variable)
    ensures HeadersSound(p, headers)
  {
    hide Authorizes, Clean;
    assert HeaderSound(p, name, headers[name]);
    hide HeaderSound;
  }

  lemma BearerServerSound(p: Policy, d: Definition)
    requires d.transport == Http && d.command == "" && d.args == [] && d.cwd == "" && d.url != "" && d.env == map[]
    requires p.safe(d.url) && p.endpoint(d.url)
    ensures ServerSound(p, d) && EnvSound(p, d.env) && RenderServer(Claude, d).Some? && RenderServer(Codex, d).Some?
  {
    hide CommandOk, ArgOk;
  }

  lemma SoundFrom(p: Policy, d: Definition)
    requires ServerSound(p, d) && EnvSound(p, d.env) && HeadersSound(p, d.headers)
    ensures Sound(p, d)
  {
    hide ServerSound, EnvSound, HeadersSound;
  }

  lemma NamelessAuthorizesNothing()
    ensures !Authorizes("")
  {
    assert |Lower("")| == 0;
  }

  lemma PassesIs(p: Policy, variable: string, url: string)
    requires Passes(p, variable, url)
    ensures Sane(p) && p.safe(url) && p.endpoint(url) && Clean(p, "${" + variable + "}")
  {
    hide Sane, Clean;
  }

  predicate Printable(s: string) { forall i :: 0 <= i < |s| ==> ' ' <= s[i] <= '~' }

  lemma LowerIsPrintable(s: string)
    requires Printable(Lower(s))
    ensures Printable(s) && |Lower(s)| == |s|
  {
    var lower := Lower(s);
    forall i | 0 <= i < |s|
      ensures ' ' <= s[i] <= '~'
    {
      assert ' ' <= lower[i] <= '~';
    }
  }

  /** A name that reads `authorization` in lower case is made of letters. */
  lemma AuthorizingIsSafe(p: Policy, name: string)
    requires Sane(p) && Authorizes(name)
    ensures p.safe(name)
  {
    hide *;
    AuthorizesIs(name);
    LowerIsPrintable(name);
    PrintableIsSafe(p, name);
  }

  lemma AuthorizesIs(name: string)
    requires Authorizes(name)
    ensures |Lower(name)| == 13 && Printable(Lower(name))
  {
    hide Lower;
  }

  lemma PrintableIsSafe(p: Policy, s: string)
    requires Sane(p) && |s| <= 4096 && Printable(s)
    ensures p.safe(s)
  {
  }

  lemma BearerForClaude(p: Policy, headers: map<string, Value>, name: string)
    requires headers.Keys == {name} && headers[name].prefix == BEARER && headers[name].variable != "" && headers[name].fallback == None
    requires Authorizes(name) && p.safe(name) && Clean(p, "${" + headers[name].variable + "}")
    ensures BearerChosen(headers, name) && RenderHeaders(Claude, headers, name).Some? && HeadersReadable(p, Claude, headers, name)
  {
    hide Authorizes;
    assert name in headers && IsBearer(name, headers[name]);
    assert name != "" by { NamelessAuthorizesNothing(); }
    assert FormatValue(Claude, headers[name]).Some?;
    assert Formatted(Claude, headers).Some?;
    var plain := headers[name].(prefix := "");
    assert "${" + plain.variable + "" + "}" == "${" + plain.variable + "}";
    var spelled := "${" + plain.variable + "}";
    assert "" + spelled == spelled;
    assert Shown(Claude, headers[name]) == Some(spelled);
    hide FormatValue, Formatted, IsBearer, Shown;
    forall n | n in headers
      ensures p.safe(n) && (Shown(Claude, headers[n]).Some? ==> Clean(p, Shown(Claude, headers[n]).value))
    {
    }
  }

  lemma BearerForCodex(p: Policy, headers: map<string, Value>, name: string)
    requires headers.Keys == {name} && headers[name].prefix == BEARER && headers[name].variable != "" && headers[name].fallback == None
    requires Authorizes(name) && name != AUTHORIZATION && BearerChosen(headers, name)
    ensures RenderHeaders(Codex, headers, name).Some? && !HeadersReadable(p, Codex, headers, name)
  {
    assert name in headers && IsBearer(name, headers[name]);
    hide Authorizes, IsBearer, TableField, Literals, NamedVariables, If;
  }

  lemma RenderIs(agent: Agent, d: Definition, bearer: string)
    requires d.transport == Http && d.env == map[] && BearerChosen(d.headers, bearer)
    requires RenderServer(agent, d).Some? && RenderHeaders(agent, d.headers, bearer).Some?
    ensures Render(agent, d, bearer) == Some(RenderServer(agent, d).value + RenderHeaders(agent, d.headers, bearer).value)
  {
    hide RenderServer, RenderHeaders, BearerChosen;
  }
}
