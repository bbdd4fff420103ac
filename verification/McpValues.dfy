/**
 Environment references in MCP declarations (internal/agentinterop/mcp_model.go:31-131): five
 spellings of one value.
 */
module McpValues {
  import opened Options

  datatype Agent = Claude | Codex | Cursor | Gemini | OpenCode

  datatype Value = Value(variable: string, literal: string, fallback: Option<string>, prefix: string)

  /** The text tests the translation relies on, as functions of the text. */
  datatype Policy = Policy(
    safe: string -> bool,
    known: string -> bool,
    hidden: string -> bool,
    endpoint: string -> bool)

  predicate NameStart(c: char) {
    'A' <= c <= 'Z' || 'a' <= c <= 'z' || c == '_'
  }

  predicate NameChar(c: char) {
    NameStart(c) || '0' <= c <= '9'
  }

  predicate IsName(s: string) {
    s != "" && NameStart(s[0]) && forall i :: 0 <= i < |s| ==> NameChar(s[i])
  }

  predicate HasAny(s: string, cs: string) {
    exists i :: 0 <= i < |s| && s[i] in cs
  }

  const TEMPLATE := "${}"

  /** The length of the longest run of name characters in front. */
  function NameLength(s: string): (n: nat)
    ensures n <= |s| && (n < |s| ==> !NameChar(s[n])) && forall i :: 0 <= i < n ==> NameChar(s[i])
  {
    if s == "" || !NameChar(s[0]) then 0 else 1 + NameLength(s[1..])
  }

  /** The inside of `open…}`. */
  function Inner(open: string, s: string): Option<string> {
    if |open| < |s| && open <= s && s[|s| - 1] == '}' then Some(s[|open|..|s| - 1]) else None
  }

  function Reference(name: string, fallback: Option<string>): Value {
    Value(name, "", fallback, "")
  }

  /** `${NAME}` and `${NAME:-fallback}`. */
  function ShellRef(s: string): Option<Value> {
    match Inner("${", s)
    case None => None
    case Some(body) =>
      var n := NameLength(body);
      var name, rest := body[..n], body[n..];
      if !IsName(name) then None
      else if rest == "" then Some(Reference(name, None))
      else if ":-" <= rest && !HasAny(rest[2..], "}") then Some(Reference(name, Some(rest[2..])))
      else None
  }

  /** `open NAME }`. */
  function PlainRef(open: string, s: string): Option<Value> {
    match Inner(open, s)
    case Some(body) => if IsName(body) then Some(Reference(body, None)) else None
    case None => None
  }

  function ParseRef(agent: Agent, s: string): Option<Value> {
    match agent
    case Claude => ShellRef(s)
    case Gemini =>
      if ShellRef(s).Some? then ShellRef(s)
      else if s != "" && s[0] == '$' && IsName(s[1..]) then Some(Reference(s[1..], None))
      else None
    case Cursor => PlainRef("${env:", s)
    case OpenCode => PlainRef("{env:", s)
    case Codex => None
  }

  predicate Clean(p: Policy, s: string) {
    p.safe(s) && !p.known(s) && !p.hidden(s)
  }

  /** `parseValue`. */
  function ParseValue(p: Policy, agent: Agent, s: string): Option<Value> {
    if !Clean(p, s) then None
    else if ParseRef(agent, s).Some? then ParseRef(agent, s)
    else if HasAny(s, TEMPLATE) then None
    else Some(Value("", s, None, ""))
  }

  /** The destination's spelling of a reference, without the prefix. */
  function Spelled(agent: Agent, v: Value): Option<string> {
    match agent
    case Cursor => if v.fallback.Some? then None else Some("${env:" + v.variable + "}")
    case OpenCode => if v.fallback.Some? then None else Some("{env:" + v.variable + "}")
    case Codex => None
    case _ => Some("${" + v.variable + (if v.fallback.Some? then ":-" + v.fallback.value else "") + "}")
  }

  /** `formatValue`. */
  function FormatValue(agent: Agent, v: Value): Option<string> {
    if v.variable == "" then Some(v.literal)
    else match Spelled(agent, v)
         case Some(ref) => Some(v.prefix + ref)
         case None => None
  }

  /** A value as some client's parser leaves it, before a header prefix is noted. */
  predicate Plain(p: Policy, v: Value) {
    && v.prefix == ""
    && if v.variable == "" then v.fallback == None && Clean(p, v.literal) && !HasAny(v.literal, TEMPLATE)
       else IsName(v.variable) && v.literal == "" && (v.fallback.Some? ==> !HasAny(v.fallback.value, "}"))
  }

  lemma NameLengthIs(name: string, rest: string)
    requires IsName(name) && (rest != "" ==> !NameChar(rest[0]))
    ensures NameLength(name + rest) == |name|
  {
    var s := name + rest;
    assert forall i :: 0 <= i < |name| ==> s[i] == name[i];
    assert rest != "" ==> s[|name|] == rest[0];
  }

  lemma InnerOf(open: string, body: string)
    ensures Inner(open, open + body + "}") == Some(body)
  {
    var s := open + body + "}";
    assert s[|open|..|s| - 1] == body;
    assert s[..|open|] == open;
  }

  lemma ShellRefOf(name: string, fallback: Option<string>)
    requires IsName(name) && (fallback.Some? ==> !HasAny(fallback.value, "}"))
    ensures ShellRef("${" + name + (if fallback.Some? then ":-" + fallback.value else "") + "}") == Some(Reference(name, fallback))
  {
    var rest := if fallback.Some? then ":-" + fallback.value else "";
    InnerOf("${", name + rest);
    assert "${" + name + rest + "}" == "${" + (name + rest) + "}";
    NameLengthIs(name, rest);
    assert (name + rest)[..|name|] == name && (name + rest)[|name|..] == rest;
    if fallback.Some? {
      assert rest[2..] == fallback.value && rest[..2] == ":-";
    }
  }

  lemma PlainRefOf(open: string, name: string)
    requires IsName(name)
    ensures PlainRef(open, open + name + "}") == Some(Reference(name, None))
  {
    InnerOf(open, name);
  }

  /** A reference a destination can spell is read back as the same reference. */
  lemma SpellingReadsBack(agent: Agent, v: Value)
    requires IsName(v.variable) && v.literal == "" && v.prefix == "" && (v.fallback.Some? ==> !HasAny(v.fallback.value, "}"))
    requires Spelled(agent, v).Some?
    ensures ParseRef(agent, Spelled(agent, v).value) == Some(v)
  {
    match agent
    case Cursor => PlainRefOf("${env:", v.variable);
    case OpenCode => PlainRefOf("{env:", v.variable);
    case _ => ShellRefOf(v.variable, v.fallback);
  }

  /** Every reference form holds a template character. */
  lemma RefIsTemplate(agent: Agent, s: string)
    ensures ParseRef(agent, s).Some? ==> HasAny(s, TEMPLATE)
  {
    if ParseRef(agent, s).Some? {
      assert s[0] in TEMPLATE;
    }
  }

  lemma ParsedIsPlain(p: Policy, agent: Agent, s: string)
    ensures ParseValue(p, agent, s).Some? ==> Plain(p, ParseValue(p, agent, s).value)
  {
  }

  /** What one client's parser accepts and another's formatter can spell is read back unchanged exactly
      when the spelling passes the text tests. */
  lemma ValueRoundTrip(p: Policy, agent: Agent, v: Value)
    requires Plain(p, v) && FormatValue(agent, v).Some?
    ensures ParseValue(p, agent, FormatValue(agent, v).value) == if Clean(p, FormatValue(agent, v).value) then Some(v) else None
  {
    if v.variable == "" {
      RefIsTemplate(agent, v.literal);
    } else {
      SpellingReadsBack(agent, v);
      assert "" + Spelled(agent, v).value == Spelled(agent, v).value;
    }
  }
}
