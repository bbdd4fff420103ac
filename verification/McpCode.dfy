/**
 `parseMCP` and `renderMCP` as they fill their tables entry by entry (internal/agentinterop/mcp_model.go:161-506).
 */
module McpTranslator {
  import opened Options
  import opened Ordering
  import opened McpValues
  import opened Mcp

  method ReadEnvironment(p: Policy, agent: Agent, table: map<string, string>) returns (r: Option<map<string, Value>>)
    ensures r == EnvOf(p, agent, table)
  {
    hide ParseValue, IsName, Sensitive, SecretByReference;
    var env: map<string, Value>, left := map[], table.Keys;
    while left != {}
      invariant left <= table.Keys && env.Keys == table.Keys - left
      invariant forall n <- env :: EnvEntryOk(p, agent, n, table[n]) && ParseValue(p, agent, table[n]) == Some(env[n])
      decreases |left|
    {
      var name :| name in left;
      if !EnvEntryOk(p, agent, name, table[name]) {
        return None;
      }
      env := env[name := ParseValue(p, agent, table[name]).value];
      left := left - {name};
    }
    assert env == EnvOf(p, agent, table).value;
    return Some(env);
  }

  predicate Forwardable(names: seq<string>, env: map<string, Value>) {
    NoDuplicates(names) && forall n <- names :: IsName(n) && n !in env
  }

  /** Each name is valid, new to the environment and not forwarded twice. */
  method ForwardNames(names: seq<string>, env: map<string, Value>) returns (r: Option<map<string, Value>>)
    ensures r == if Forwardable(names, env) then Some(env + Forwarded(names)) else None
  {
    hide IsName, NoDuplicates, Forwarded;
    var out := env;
    NothingForwarded(env);
    hide Forwardable;
    for i := 0 to |names|
      invariant Forwardable(names[..i], env) && out == env + Forwarded(names[..i])
    {
      ForwardedMore(names, env, i);
      if !IsName(names[i]) || names[i] in out {
        return None;
      }
      out := out[names[i] := Reference(names[i], None)];
    }
    assert names[..|names|] == names;
    return Some(out);
  }

  lemma NothingForwarded(env: map<string, Value>)
    ensures Forwardable([], env) && env + Forwarded([]) == env
  {
    assert Forwarded([]) == map[];
  }

  lemma ForwardedMore(names: seq<string>, env: map<string, Value>, i: nat)
    requires i < |names| && Forwardable(names[..i], env)
    ensures var out := env + Forwarded(names[..i]);
            if IsName(names[i]) && names[i] !in out
            then Forwardable(names[..i + 1], env) && out[names[i] := Reference(names[i], None)] == env + Forwarded(names[..i + 1])
            else !Forwardable(names, env)
  {
    hide IsName;
    var more := names[..i + 1];
    assert more == names[..i] + [names[i]];
    if IsName(names[i]) && names[i] !in env + Forwarded(names[..i]) {
      assert Forwarded(more) == Forwarded(names[..i])[names[i] := Reference(names[i], None)];
    } else if names[i] in names[..i] {
      assert !NoDuplicates(names);
    } else {
      assert names[i] in names;
    }
  }

  method ReadHeaders(p: Policy, agent: Agent, table: map<string, string>) returns (r: Option<map<string, Value>>)
    ensures r == HeadersOf(p, agent, table)
  {
    hide HeaderValue;
    var headers: map<string, Value>, left := map[], table.Keys;
    while left != {}
      invariant left <= table.Keys && headers.Keys == table.Keys - left
      invariant forall n <- headers :: HeaderValue(p, agent, n, table[n]) == Some(headers[n])
      decreases |left|
    {
      var name :| name in left;
      var v := HeaderValue(p, agent, name, table[name]);
      if v == None {
        return None;
      }
      headers := headers[name := v.value];
      left := left - {name};
    }
    assert headers == HeadersOf(p, agent, table).value;
    return Some(headers);
  }

  method FormatAll(agent: Agent, values: map<string, Value>) returns (r: Option<map<string, string>>)
    ensures r == Formatted(agent, values)
  {
    hide FormatValue;
    var table: map<string, string>, left := map[], values.Keys;
    while left != {}
      invariant left <= values.Keys && table.Keys == values.Keys - left
      invariant forall n <- table :: FormatValue(agent, values[n]) == Some(table[n])
      decreases |left|
    {
      var name :| name in left;
      var v := FormatValue(agent, values[name]);
      if v == None {
        return None;
      }
      table := table[name := v.value];
      left := left - {name};
    }
    assert table == Formatted(agent, values).value;
    return Some(table);
  }

  function Seen(headers: map<string, Value>, left: set<string>): map<string, Value> {
    map n | n in headers && n !in left :: headers[n]
  }

  /** The headers outside `left`, sorted into the three Codex fields. */
  predicate Sorted(headers: map<string, Value>, left: set<string>, literals: map<string, string>,
      named: map<string, string>, bearer: string) {
    var seen := Seen(headers, left);
    literals == Literals(seen) && named == NamedVariables(seen) && BearerChosen(seen, bearer) && CodexSpells(seen)
  }

  lemma SeenMore(headers: map<string, Value>, left: set<string>, name: string)
    requires name in headers && name in left
    ensures name !in Seen(headers, left) && Seen(headers, left - {name}) == Seen(headers, left)[name := headers[name]]
  {
  }

  lemma LiteralsMore(seen: map<string, Value>, name: string, v: Value)
    requires name !in seen
    ensures Literals(seen[name := v]) == if v.variable == "" then Literals(seen)[name := v.literal] else Literals(seen)
  {
  }

  lemma NamedMore(seen: map<string, Value>, name: string, v: Value)
    requires name !in seen
    ensures NamedVariables(seen[name := v]) ==
            if v.variable != "" && !IsBearer(name, v) then NamedVariables(seen)[name := v.variable] else NamedVariables(seen)
  {
    hide IsBearer;
  }

  lemma ChosenMore(seen: map<string, Value>, name: string, v: Value, bearer: string)
    requires name !in seen && BearerChosen(seen, bearer)
    ensures BearerChosen(seen[name := v], if v.variable != "" && IsBearer(name, v) then name else bearer)
  {
    NamelessIsNoBearer(v);
    hide IsBearer;
  }

  predicate SpelledAlone(name: string, v: Value) {
    v.variable != "" ==> v.fallback == None && (v.prefix == "" || IsBearer(name, v))
  }

  lemma SpellsMore(seen: map<string, Value>, name: string, v: Value)
    requires name !in seen && CodexSpells(seen)
    ensures CodexSpells(seen[name := v]) <==> SpelledAlone(name, v)
  {
    hide IsBearer;
    var more := seen[name := v];
    assert v.variable != "" ==> name in References(more);
    assert forall n <- References(more) :: n != name ==> n in References(seen) && more[n] == seen[n];
  }

  lemma SpellsAll(headers: map<string, Value>, name: string)
    requires name in headers && CodexSpells(headers)
    ensures SpelledAlone(name, headers[name])
  {
    assert headers[name].variable != "" ==> name in References(headers);
  }

  lemma SortedMore(headers: map<string, Value>, left: set<string>, literals: map<string, string>,
      named: map<string, string>, bearer: string, name: string)
    requires Sorted(headers, left, literals, named, bearer) && name in headers && name in left
    ensures var v := headers[name];
            && (!SpelledAlone(name, v) ==> !CodexSpells(headers))
            && (SpelledAlone(name, v) ==>
                  Sorted(headers, left - {name}, if v.variable == "" then literals[name := v.literal] else literals,
                         if v.variable != "" && !IsBearer(name, v) then named[name := v.variable] else named,
                         if v.variable != "" && IsBearer(name, v) then name else bearer))
  {
    var v, seen := headers[name], Seen(headers, left);
    SeenMore(headers, left, name);
    LiteralsMore(seen, name, v);
    NamedMore(seen, name, v);
    ChosenMore(seen, name, v, bearer);
    SpellsMore(seen, name, v);
    if CodexSpells(headers) {
      SpellsAll(headers, name);
    }
    hide Seen, Literals, NamedVariables, BearerChosen, CodexSpells, SpelledAlone, IsBearer;
  }

  lemma NamelessIsNoBearer(v: Value)
    ensures !IsBearer("", v)
  {
    assert |Lower("")| == 0;
  }

  /** Codex keeps literals, variable headers and the bearer variable apart; the last Authorization header wins. */
  method SortHeaders(headers: map<string, Value>)
    returns (ok: bool, literals: map<string, string>, named: map<string, string>, bearer: string)
    ensures ok <==> CodexSpells(headers)
    ensures ok ==> literals == Literals(headers) && named == NamedVariables(headers) && BearerChosen(headers, bearer)
  {
    literals, named, bearer := map[], map[], "";
    var left := headers.Keys;
    NothingSorted(headers);
    hide Literals, NamedVariables, BearerChosen, CodexSpells, IsBearer, Sorted;
    while left != {}
      invariant left <= headers.Keys && Sorted(headers, left, literals, named, bearer)
      decreases |left|
    {
      var name :| name in left;
      SortedMore(headers, left, literals, named, bearer, name);
      left := left - {name};
      var v := headers[name];
      if v.variable != "" {
        if v.fallback.Some? {
          return false, literals, named, bearer;
        }
        if IsBearer(name, v) {
          bearer := name;
        } else if v.prefix != "" {
          return false, literals, named, bearer;
        } else {
          named := named[name := v.variable];
        }
      } else {
        literals := literals[name := v.literal];
      }
    }
    AllSorted(headers, literals, named, bearer);
    return true, literals, named, bearer;
  }

  lemma NothingSorted(headers: map<string, Value>)
    ensures Sorted(headers, headers.Keys, map[], map[], "")
  {
    assert Seen(headers, headers.Keys) == map[];
    assert Literals(map[]) == map[] && NamedVariables(map[]) == map[];
  }

  lemma AllSorted(headers: map<string, Value>, literals: map<string, string>, named: map<string, string>,
      bearer: string)
    requires Sorted(headers, {}, literals, named, bearer)
    ensures literals == Literals(headers) && named == NamedVariables(headers) && BearerChosen(headers, bearer) && CodexSpells(headers)
  {
    assert Seen(headers, {}) == headers;
  }

  /** Local reads used by `parseMCP`. */
  method ReadServerPart(p: Policy, agent: Agent, f: Fields, transport: string) returns (r: Option<Server>)
    ensures r == ParseServer(p, agent, f, transport)
  {
    var launch, url, httpUrl, kind, cwd := Launch(p, agent, f), TextAt(p, f, "url"), TextAt(p, f, "httpUrl"),
        TextAt(p, f, "type"), TextAt(p, f, "cwd");
    if launch == None || url == None || httpUrl == None || kind == None || cwd == None {
      return None;
    }
    hide Launch, TextAt, Assemble;
    return Assemble(p, agent, launch.value.0, launch.value.1, url.value, httpUrl.value, kind.value, cwd.value, transport, "url" in f);
  }

  method ReadEnvPart(p: Policy, agent: Agent, f: Fields) returns (r: Option<map<string, Value>>)
    ensures r == ParseEnv(p, agent, f)
  {
    hide EnvOf, TableAt, TextsAt, Forwarded, IsName, NoDuplicates;
    var table := TableAt(f, EnvKey(agent));
    var names := if agent == Codex then TextsAt(p, f, "env_vars") else Some([]);
    if table == None || names == None {
      return None;
    }
    r := ReadEnvironment(p, agent, table.value);
    if r == None {
      return;
    }
    EnvOfKeys(p, agent, table.value);
    r := ForwardNames(names.value, r.value);
  }

  lemma EnvOfKeys(p: Policy, agent: Agent, table: map<string, string>)
    ensures EnvOf(p, agent, table).Some? ==> EnvOf(p, agent, table).value.Keys == table.Keys
  {
    hide EnvEntryOk;
  }

  method ReadHeaderPart(p: Policy, agent: Agent, f: Fields) returns (r: Option<map<string, Value>>)
    ensures r == ParseHeaders(p, agent, f)
  {
    hide HeadersOf, TableAt, TextAt, IsName;
    var table := TableAt(f, HeaderKey(agent));
    if table == None {
      return None;
    }
    r := ReadHeaders(p, agent, table.value);
    if r == None || agent != Codex {
      return;
    }
    var names, bearer := TableAt(f, "env_http_headers"), TextAt(p, f, "bearer_token_env_var");
    if names == None || bearer == None {
      return None;
    }
    if !(forall n <- names.value :: IsName(names.value[n]) && p.safe(n) && n !in table.value) {
      return None;
    }
    if bearer.value != "" && !(IsName(bearer.value) && AUTHORIZATION !in table.value && AUTHORIZATION !in names.value) {
      return None;
    }
    r := Some(r.value + VariableHeaders(names.value) + BearerHeader(bearer.value));
  }

  method ParseMcp(p: Policy, agent: Agent, f: Fields, transport: string) returns (r: Option<Definition>)
    ensures r == Parse(p, agent, f, transport)
  {
    hide ParseServer, ParseEnv, ParseHeaders, Keys;
    if !(f.Keys <= Keys(agent)) || ("enabled" in f && f["enabled"] != Flag(true)) || ("oauth" in f && f["oauth"] != Flag(false)) {
      return None;
    }
    var server := ReadServerPart(p, agent, f, transport);
    if server == None {
      return None;
    }
    var env := ReadEnvPart(p, agent, f);
    if env == None {
      return None;
    }
    var headers := ReadHeaderPart(p, agent, f);
    if headers == None || (server.value.transport == Stdio && headers.value != map[]) {
      return None;
    }
    var s := server.value;
    return Some(Definition(s.transport, s.command, s.args, env.value, s.url, headers.value, s.cwd));
  }

  method RenderHeaderPart(agent: Agent, headers: map<string, Value>) returns (r: Option<Fields>, bearer: string)
    ensures BearerChosen(headers, bearer) && r == RenderHeaders(agent, headers, bearer)
  {
    hide Literals, NamedVariables, IsBearer;
    if agent == Codex {
      var ok, literals, named, chosen := SortHeaders(headers);
      bearer := chosen;
      if !ok {
        bearer := AnyBearer(headers);
        return None, bearer;
      }
      r := Some(TableField("http_headers", literals) + TableField("env_http_headers", named)
                + If(bearer != "", "bearer_token_env_var", Text(if bearer == "" then "" else headers[bearer].variable)));
    } else {
      var table := FormatAll(agent, headers);
      r := if table == None then None else Some(TableField("headers", table.value));
      bearer := AnyBearer(headers);
    }
  }

  method AnyBearer(headers: map<string, Value>) returns (bearer: string)
    ensures BearerChosen(headers, bearer)
  {
    if n :| n in headers && headers[n].variable != "" && IsBearer(n, headers[n]) {
      NamelessIsNoBearer(headers[n]);
      return n;
    }
    return "";
  }

  method RenderMcp(agent: Agent, d: Definition) returns (r: Option<Fields>, bearer: string)
    ensures BearerChosen(d.headers, bearer) && r == Render(agent, d, bearer)
  {
    hide RenderServer, RenderEnv, RenderHeaders, BearerChosen;
    var server := RenderServer(agent, d);
    var headers;
    headers, bearer := RenderHeaderPart(agent, d.headers);
    if server == None {
      return None, bearer;
    }
    if d.transport == Stdio {
      var env := RenderEnv(agent, d.env);
      r := if env == None then None else Some(server.value + env.value);
    } else if d.env != map[] || headers == None {
      r := None;
    } else {
      r := Some(server.value + headers.value);
    }
  }

  /** One client's declaration for another: what the second reads is what the first declared, exactly when
      the text it is given passes its tests. */
  method Translate(p: Policy, from: Agent, declared: Fields, transport: string, to: Agent)
    returns (rendered: Option<Fields>, bearer: string)
    requires Sane(p)
    ensures match Parse(p, from, declared, transport)
            case Some(d) => BearerChosen(d.headers, bearer) && rendered == Render(to, d, bearer)
            case None => rendered == None
    ensures rendered.Some? ==>
              && Parse(p, from, declared, transport).Some?
              && (Parse(p, to, rendered.value, HTTP) == Parse(p, from, declared, transport)
                  <==> Readable(p, to, Parse(p, from, declared, transport).value, bearer))
  {
    hide *;
    var d := ParseMcp(p, from, declared, transport);
    if d == None {
      return None, "";
    }
    rendered, bearer := RenderMcp(to, d.value);
    if rendered.Some? {
      RoundTrip(p, from, declared, transport, d.value, to, bearer, rendered.value);
    }
  }
}
