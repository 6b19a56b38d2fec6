/**
 Redacting an agent for a bundle and applying the bundle again.

 Redacting puts a named placeholder where a secret, a credential or a vault was, and lists what is
 required; applying puts back what is supplied under those names and lists what is missing.
 How names are derived is the parameter `Naming`.
 */
module Bundles {
  import opened Common

  /** A JSON value, as far as these functions tell values apart. `Odd` is anything else, with its text. */
  datatype Value = Text(text: string) | SecretRef(name: string) | CredentialRef(name: string) | Odd(shown: string)

  /** A JSON object, in key order. */
  type Fields = seq<(string, Value)>

  /** `server` is the label that names a tool's secrets; `other` are the fields carried over unread. */
  datatype Tool = Tool(server: string, headers: Option<Fields>, credentialId: Option<string>, credential: Option<Value>,
                       other: Id)

  datatype Defaults = Defaults(env: Option<Fields>, vaultIds: Option<seq<Value>>, other: Id)

  datatype Agent = Agent(tools: seq<Tool>, defaults: Option<Defaults>)

  /** The names of a header's secret, of a credential and of a vault, and the kind of a credential. */
  datatype Naming = Naming(
    secret: (string, string, string) -> string,
    credential: string -> string,
    kind: string -> string,
    vault: string -> string)

  /** A row of what a bundle requires. */
  datatype Required = Required(name: string, kind: Option<string>, usedBy: string)

  // ---------------------------------------------------------------- redacting

  function Shown(v: Value): string {
    match v
    case Text(text) => text
    case Odd(shown) => shown
    case SecretRef(name) => name
    case CredentialRef(name) => name
  }

  function RedactedHeaders(server: string, headers: Fields, n: Naming): Fields {
    if headers == [] then []
    else
      var (key, v) := headers[|headers| - 1];
      RedactedHeaders(server, headers[..|headers| - 1], n)
      + (if v.Text? then [(key, SecretRef(n.secret(server, key, v.text)))] else [])
  }

  function RedactedEnv(env: Fields): Fields {
    if env == [] then []
    else RedactedEnv(env[..|env| - 1]) + [(env[|env| - 1].0, SecretRef(env[|env| - 1].0))]
  }

  function RedactedVaults(ids: seq<Value>, n: Naming): seq<Value> {
    if ids == [] then []
    else RedactedVaults(ids[..|ids| - 1], n) + [CredentialRef(n.vault(Shown(ids[|ids| - 1])))]
  }

  predicate NamesACredential(tool: Tool) {
    tool.credentialId.Some? && tool.credentialId.value != ""
  }

  function RedactedTool(tool: Tool, n: Naming): Tool {
    var out := tool.(headers :=
      if tool.headers.Some? then Some(RedactedHeaders(tool.server, tool.headers.value, n)) else None);
    if NamesACredential(tool)
    then out.(credentialId := None, credential := Some(CredentialRef(n.credential(tool.credentialId.value))))
    else out
  }

  function RedactedTools(tools: seq<Tool>, n: Naming): seq<Tool> {
    if tools == [] then [] else RedactedTools(tools[..|tools| - 1], n) + [RedactedTool(tools[|tools| - 1], n)]
  }

  function RedactedDefaults(d: Defaults, n: Naming): Defaults {
    d.(env := if d.env.Some? then Some(RedactedEnv(d.env.value)) else None,
       vaultIds := if d.vaultIds.Some? then Some(RedactedVaults(d.vaultIds.value, n)) else None)
  }

  function Redacted(a: Agent, n: Naming): Agent {
    Agent(RedactedTools(a.tools, n), if a.defaults.Some? then Some(RedactedDefaults(a.defaults.value, n)) else None)
  }

  // ---------------------------------------------------------------- applying

  function AppliedFields(fields: Fields, secrets: map<string, string>): Fields {
    if fields == [] then []
    else
      var (key, v) := fields[|fields| - 1];
      AppliedFields(fields[..|fields| - 1], secrets)
      + (match v
         case SecretRef(name) => if name in secrets then [(key, Text(secrets[name]))] else []
         case Text(_) => [(key, v)]
         case _ => [])
  }

  /** An id supplied under this name; an empty one counts as none. */
  predicate Supplied(ids: map<string, string>, name: string) {
    name in ids && ids[name] != ""
  }

  function AppliedVaults(refs: seq<Value>, vaults: map<string, string>): seq<Value> {
    if refs == [] then []
    else
      var v := refs[|refs| - 1];
      AppliedVaults(refs[..|refs| - 1], vaults)
      + (if v.CredentialRef? && Supplied(vaults, v.name) then [Text(vaults[v.name])] else [])
  }

  function NonEmpty<T>(xs: seq<T>): Option<seq<T>> {
    if xs == [] then None else Some(xs)
  }

  function AppliedTool(tool: Tool, secrets: map<string, string>, credentials: map<string, string>): Tool {
    var headers := if tool.headers.Some? then NonEmpty(AppliedFields(tool.headers.value, secrets)) else None;
    var id := if tool.credential.Some? && tool.credential.value.CredentialRef?
                 && Supplied(credentials, tool.credential.value.name)
              then Some(credentials[tool.credential.value.name]) else tool.credentialId;
    tool.(headers := headers, credentialId := id, credential := None)
  }

  function AppliedTools(tools: seq<Tool>, secrets: map<string, string>, credentials: map<string, string>): seq<Tool> {
    if tools == [] then []
    else
      AppliedTools(tools[..|tools| - 1], secrets, credentials)
      + [AppliedTool(tools[|tools| - 1], secrets, credentials)]
  }

  function AppliedDefaults(d: Defaults, secrets: map<string, string>, vaults: map<string, string>): Defaults {
    d.(env := if d.env.Some? then NonEmpty(AppliedFields(d.env.value, secrets)) else None,
       vaultIds := if d.vaultIds.Some? then NonEmpty(AppliedVaults(d.vaultIds.value, vaults)) else None)
  }

  function Applied(a: Agent, secrets: map<string, string>, credentials: map<string, string>,
                   vaults: map<string, string>): Agent
  {
    Agent(AppliedTools(a.tools, secrets, credentials),
          if a.defaults.Some? then Some(AppliedDefaults(a.defaults.value, secrets, vaults)) else None)
  }

  // ---------------------------------------------------------------- placeholders, in order

  function SecretsIn(fields: Fields): seq<string> {
    if fields == [] then []
    else
      SecretsIn(fields[..|fields| - 1])
      + (if fields[|fields| - 1].1.SecretRef? then [fields[|fields| - 1].1.name] else [])
  }

  function CredentialsIn(values: seq<Value>): seq<string> {
    if values == [] then []
    else
      CredentialsIn(values[..|values| - 1])
      + (if values[|values| - 1].CredentialRef? then [values[|values| - 1].name] else [])
  }

  function OrEmpty<T>(xs: Option<seq<T>>): seq<T> {
    if xs.Some? then xs.value else []
  }

  function ToolSecrets(tools: seq<Tool>): seq<string> {
    if tools == [] then [] else ToolSecrets(tools[..|tools| - 1]) + SecretsIn(OrEmpty(tools[|tools| - 1].headers))
  }

  function ToolCredentials(tools: seq<Tool>): seq<string> {
    if tools == [] then []
    else
      ToolCredentials(tools[..|tools| - 1])
      + CredentialsIn(if tools[|tools| - 1].credential.Some? then [tools[|tools| - 1].credential.value] else [])
  }

  /** Every secret placeholder: tool by tool, then the environment. */
  function Secrets(a: Agent): seq<string> {
    ToolSecrets(a.tools) + if a.defaults.Some? then SecretsIn(OrEmpty(a.defaults.value.env)) else []
  }

  function Vaults(a: Agent): seq<string> {
    if a.defaults.Some? then CredentialsIn(OrEmpty(a.defaults.value.vaultIds)) else []
  }

  function NotIn(names: seq<string>, secrets: map<string, string>): seq<string> {
    if names == [] then []
    else NotIn(names[..|names| - 1], secrets) + (if names[|names| - 1] in secrets then [] else [names[|names| - 1]])
  }

  function NotSupplied(names: seq<string>, ids: map<string, string>): seq<string> {
    if names == [] then []
    else
      NotSupplied(names[..|names| - 1], ids)
      + (if Supplied(ids, names[|names| - 1]) then [] else [names[|names| - 1]])
  }

  // ---------------------------------------------------------------- what an agent holds

  /** A secret or id of an agent, the name it gets, and where it is used. */
  datatype Use = Use(name: string, value: string, kind: Option<string>, usedBy: string)

  const HEADERS := "agent.tools.headers."
  const ENV := "agent.session_defaults.environment.env."
  const TOOLS := "agent.tools"
  const VAULT := "vault"
  const VAULT_IDS := "agent.session_defaults.vault_ids"

  function HeaderUses(server: string, headers: Fields, n: Naming): seq<Use> {
    if headers == [] then []
    else
      var (key, v) := headers[|headers| - 1];
      HeaderUses(server, headers[..|headers| - 1], n)
      + (if v.Text? then [Use(n.secret(server, key, v.text), v.text, None, HEADERS + key)] else [])
  }

  function EnvUses(env: Fields): seq<Use> {
    if env == [] then []
    else
      var (key, v) := env[|env| - 1];
      EnvUses(env[..|env| - 1]) + [Use(key, Shown(v), None, ENV + key)]
  }

  function ToolUses(tools: seq<Tool>, n: Naming): seq<Use> {
    if tools == [] then []
    else
      var tool := tools[|tools| - 1];
      ToolUses(tools[..|tools| - 1], n) + HeaderUses(tool.server, OrEmpty(tool.headers), n)
  }

  function CredentialUses(tools: seq<Tool>, n: Naming): seq<Use> {
    if tools == [] then []
    else
      var tool := tools[|tools| - 1];
      CredentialUses(tools[..|tools| - 1], n) + CredentialUse(tool, n)
  }

  function CredentialUse(tool: Tool, n: Naming): seq<Use> {
    if NamesACredential(tool) then
      var id := tool.credentialId.value;
      [Use(n.credential(id), id, Some(n.kind(id)), TOOLS)]
    else []
  }

  function VaultUses(ids: seq<Value>, n: Naming): seq<Use> {
    if ids == [] then []
    else
      var id := Shown(ids[|ids| - 1]);
      VaultUses(ids[..|ids| - 1], n) + [Use(n.vault(id), id, Some(VAULT), VAULT_IDS)]
  }

  /** The secrets of an agent with the names they get. */
  function SecretUses(a: Agent, n: Naming): seq<Use> {
    ToolUses(a.tools, n) + if a.defaults.Some? then EnvUses(OrEmpty(a.defaults.value.env)) else []
  }

  function AgentVaultUses(a: Agent, n: Naming): seq<Use> {
    if a.defaults.Some? then VaultUses(OrEmpty(a.defaults.value.vaultIds), n) else []
  }

  function NamesOf(uses: seq<Use>): seq<string> {
    seq(|uses|, i requires 0 <= i < |uses| => uses[i].name)
  }

  /** The map gives every use its value back. */
  ghost predicate GivesBack(m: map<string, string>, uses: seq<Use>) {
    forall i :: 0 <= i < |uses| ==> uses[i].name in m && m[uses[i].name] == uses[i].value
  }

  /** No name stands for two values. */
  ghost predicate Unambiguous(uses: seq<Use>) {
    forall i, j :: 0 <= i < |uses| && 0 <= j < |uses| && uses[i].name == uses[j].name ==> uses[i].value == uses[j].value
  }

  /** Headers and environment are text, vault ids are non-empty text, and nothing is a placeholder yet. */
  ghost predicate Plain(a: Agent) {
    && (forall i :: 0 <= i < |a.tools| ==> PlainTool(a.tools[i]))
    && (a.defaults.Some? ==> AllText(OrEmpty(a.defaults.value.env)) && AllIds(OrEmpty(a.defaults.value.vaultIds)))
  }

  predicate AllText(fields: Fields) {
    forall i :: 0 <= i < |fields| ==> fields[i].1.Text?
  }

  predicate AllIds(ids: seq<Value>) {
    forall i :: 0 <= i < |ids| ==> ids[i].Text? && ids[i].text != ""
  }

  predicate PlainTool(tool: Tool) {
    tool.credential.None? && AllText(OrEmpty(tool.headers))
  }

  /** An empty collection and none at all are the same. */
  function Tidy(a: Agent): Agent {
    Agent(TidyTools(a.tools),
          if a.defaults.Some?
          then Some(a.defaults.value.(env := NonEmpty(OrEmpty(a.defaults.value.env)),
                                      vaultIds := NonEmpty(OrEmpty(a.defaults.value.vaultIds))))
          else None)
  }

  function TidyTools(tools: seq<Tool>): seq<Tool> {
    seq(|tools|, i requires 0 <= i < |tools| => tools[i].(headers := NonEmpty(OrEmpty(tools[i].headers))))
  }

  // ---------------------------------------------------------------- placeholders are the uses' names

  lemma SecretsInGrows(fields: Fields, field: (string, Value))
    ensures SecretsIn(fields + [field]) == SecretsIn(fields) + if field.1.SecretRef? then [field.1.name] else []
  {
    assert (fields + [field])[..|fields|] == fields;
  }

  lemma CredentialsInGrows(values: seq<Value>, v: Value)
    ensures CredentialsIn(values + [v]) == CredentialsIn(values) + if v.CredentialRef? then [v.name] else []
  {
    assert (values + [v])[..|values|] == values;
  }

  lemma AppliedFieldsGrows(fields: Fields, key: string, v: Value, secrets: map<string, string>)
    ensures AppliedFields(fields + [(key, v)], secrets) == AppliedFields(fields, secrets)
      + if v.SecretRef? then (if v.name in secrets then [(key, Text(secrets[v.name]))] else [])
        else if v.Text? then [(key, v)] else []
  {
    assert (fields + [(key, v)])[..|fields|] == fields;
  }

  lemma AppliedVaultsGrows(refs: seq<Value>, name: string, vaults: map<string, string>)
    ensures AppliedVaults(refs + [CredentialRef(name)], vaults)
         == AppliedVaults(refs, vaults) + if Supplied(vaults, name) then [Text(vaults[name])] else []
  {
    assert (refs + [CredentialRef(name)])[..|refs|] == refs;
  }

  lemma NamesJoin(a: seq<Use>, b: seq<Use>)
    ensures NamesOf(a + b) == NamesOf(a) + NamesOf(b)
  {
  }

  lemma {:induction false} HeaderPlaceholders(server: string, headers: Fields, n: Naming)
    ensures SecretsIn(RedactedHeaders(server, headers, n)) == NamesOf(HeaderUses(server, headers, n))
  {
    if headers != [] {
      var front := headers[..|headers| - 1];
      var (key, v) := headers[|headers| - 1];
      HeaderPlaceholders(server, front, n);
      var redacted := RedactedHeaders(server, front, n);
      if v.Text? {
        SecretsInGrows(redacted, (key, SecretRef(n.secret(server, key, v.text))));
      } else {
        assert redacted + [] == redacted;
      }
    }
  }

  lemma {:induction false} EnvPlaceholders(env: Fields)
    ensures SecretsIn(RedactedEnv(env)) == NamesOf(EnvUses(env))
  {
    if env != [] {
      EnvPlaceholders(env[..|env| - 1]);
      SecretsInGrows(RedactedEnv(env[..|env| - 1]), (env[|env| - 1].0, SecretRef(env[|env| - 1].0)));
    }
  }

  lemma {:induction false} VaultPlaceholders(ids: seq<Value>, n: Naming)
    ensures CredentialsIn(RedactedVaults(ids, n)) == NamesOf(VaultUses(ids, n))
  {
    if ids != [] {
      VaultPlaceholders(ids[..|ids| - 1], n);
      CredentialsInGrows(RedactedVaults(ids[..|ids| - 1], n), CredentialRef(n.vault(Shown(ids[|ids| - 1]))));
    }
  }

  lemma ToolListsGrow(tools: seq<Tool>, tool: Tool)
    ensures ToolSecrets(tools + [tool]) == ToolSecrets(tools) + SecretsIn(OrEmpty(tool.headers))
    ensures ToolCredentials(tools + [tool])
         == ToolCredentials(tools) + CredentialsIn(if tool.credential.Some? then [tool.credential.value] else [])
  {
    assert (tools + [tool])[..|tools|] == tools;
  }

  lemma {:induction false} ToolPlaceholders(tools: seq<Tool>, n: Naming)
    requires forall i :: 0 <= i < |tools| ==> PlainTool(tools[i])
    ensures ToolSecrets(RedactedTools(tools, n)) == NamesOf(ToolUses(tools, n))
    ensures ToolCredentials(RedactedTools(tools, n)) == NamesOf(CredentialUses(tools, n))
  {
    hide PlainTool, RedactedTool, SecretsIn, CredentialsIn, HeaderUses, ToolSecrets, ToolCredentials, NamesOf;
    if tools == [] {
      NoPlaceholders();
    } else {
      var front, tool := tools[..|tools| - 1], tools[|tools| - 1];
      ToolPlaceholders(front, n);
      ToolListsGrow(RedactedTools(front, n), RedactedTool(tool, n));
      OneTool(tool, n);
      NamesJoin(ToolUses(front, n), HeaderUses(tool.server, OrEmpty(tool.headers), n));
      NamesJoin(CredentialUses(front, n), CredentialUse(tool, n));
    }
  }

  lemma NoPlaceholders()
    ensures ToolSecrets([]) == [] && ToolCredentials([]) == [] && NamesOf([]) == []
  {
  }

  lemma OneTool(tool: Tool, n: Naming)
    requires PlainTool(tool)
    ensures var out := RedactedTool(tool, n);
      && SecretsIn(OrEmpty(out.headers)) == NamesOf(HeaderUses(tool.server, OrEmpty(tool.headers), n))
      && CredentialsIn(if out.credential.Some? then [out.credential.value] else []) == NamesOf(CredentialUse(tool, n))
  {
    HeaderPlaceholders(tool.server, OrEmpty(tool.headers), n);
    assert OrEmpty(RedactedTool(tool, n).headers) == RedactedHeaders(tool.server, OrEmpty(tool.headers), n);
    OneCredential(tool, n);
  }

  lemma OneCredential(tool: Tool, n: Naming)
    requires PlainTool(tool)
    ensures var out := RedactedTool(tool, n);
      CredentialsIn(if out.credential.Some? then [out.credential.value] else [])
      == if NamesACredential(tool) then [n.credential(tool.credentialId.value)] else []
  {
    if NamesACredential(tool) {
      CredentialsInGrows([], CredentialRef(n.credential(tool.credentialId.value)));
      assert [] + [CredentialRef(n.credential(tool.credentialId.value))]
        == [CredentialRef(n.credential(tool.credentialId.value))];
    }
  }

  /** A redacted agent holds one placeholder per secret, credential and vault, named and ordered as these are. */
  lemma PlaceholdersAreTheUses(a: Agent, n: Naming)
    requires Plain(a)
    ensures Secrets(Redacted(a, n)) == NamesOf(SecretUses(a, n))
    ensures ToolCredentials(Redacted(a, n).tools) == NamesOf(CredentialUses(a.tools, n))
    ensures Vaults(Redacted(a, n)) == NamesOf(AgentVaultUses(a, n))
  {
    hide ToolSecrets, ToolCredentials, RedactedTools, ToolUses, CredentialUses, NamesOf;
    ToolPlaceholders(a.tools, n);
    NamesOfNothing();
    if a.defaults.Some? {
      EnvPlaceholders(OrEmpty(a.defaults.value.env));
      VaultPlaceholders(OrEmpty(a.defaults.value.vaultIds), n);
      NamesJoin(ToolUses(a.tools, n), EnvUses(OrEmpty(a.defaults.value.env)));
    } else {
      NamesJoin(ToolUses(a.tools, n), []);
    }
  }

  lemma NamesOfNothing()
    ensures NamesOf([]) == [] && SecretsIn([]) == [] && CredentialsIn([]) == []
  {
  }

  // ---------------------------------------------------------------- what comes back

  lemma GivesBackJoins(m: map<string, string>, a: seq<Use>, b: seq<Use>)
    ensures GivesBack(m, a + b) <==> GivesBack(m, a) && GivesBack(m, b)
  {
    if GivesBack(m, a + b) {
      forall i | 0 <= i < |a|
        ensures a[i].name in m && m[a[i].name] == a[i].value
      {
        assert (a + b)[i] == a[i];
      }
      forall i | 0 <= i < |b|
        ensures b[i].name in m && m[b[i].name] == b[i].value
      {
        assert (a + b)[|a| + i] == b[i];
      }
    }
  }

  lemma {:induction false} HeadersComeBack(server: string, headers: Fields, n: Naming, secrets: map<string, string>)
    requires AllText(headers)
    ensures |AppliedFields(RedactedHeaders(server, headers, n), secrets)| <= |headers|
    ensures AppliedFields(RedactedHeaders(server, headers, n), secrets) == headers
            <==> GivesBack(secrets, HeaderUses(server, headers, n))
  {
    if headers != [] {
      var front := headers[..|headers| - 1];
      var (key, v) := headers[|headers| - 1];
      HeadersComeBack(server, front, n, secrets);
      var name := n.secret(server, key, v.text);
      AppliedFieldsGrows(RedactedHeaders(server, front, n), key, SecretRef(name), secrets);
      GivesBackJoins(secrets, HeaderUses(server, front, n), [Use(name, v.text, None, HEADERS + key)]);
      var back := AppliedFields(RedactedHeaders(server, front, n), secrets);
      SnocEquals(back, if name in secrets then [(key, Text(secrets[name]))] else [], headers);
      assert GivesBack(secrets, [Use(name, v.text, None, HEADERS + key)])
        <==> name in secrets && secrets[name] == v.text by {
        OneUse(secrets, Use(name, v.text, None, HEADERS + key));
      }
    }
  }

  lemma OneUse(m: map<string, string>, use: Use)
    ensures GivesBack(m, [use]) <==> use.name in m && m[use.name] == use.value
  {
    assert [use][0] == use;
  }

  /** At most one element on top of at most all the others. */
  lemma SnocEquals<T>(xs: seq<T>, more: seq<T>, all: seq<T>)
    requires all != [] && |xs| < |all| && |more| <= 1
    ensures xs + more == all <==> xs == all[..|all| - 1] && more == [all[|all| - 1]]
  {
    assert all == all[..|all| - 1] + [all[|all| - 1]];
    if xs + more == all {
      assert |more| == 1 && (xs + more)[|xs|] == more[0];
      assert xs == (xs + more)[..|all| - 1];
    }
  }

  lemma {:induction false} EnvComesBack(env: Fields, secrets: map<string, string>)
    requires AllText(env)
    ensures |AppliedFields(RedactedEnv(env), secrets)| <= |env|
    ensures AppliedFields(RedactedEnv(env), secrets) == env <==> GivesBack(secrets, EnvUses(env))
  {
    if env != [] {
      var front := env[..|env| - 1];
      var (key, v) := env[|env| - 1];
      EnvComesBack(front, secrets);
      AppliedFieldsGrows(RedactedEnv(front), key, SecretRef(key), secrets);
      GivesBackJoins(secrets, EnvUses(front), [Use(key, v.text, None, ENV + key)]);
      OneUse(secrets, Use(key, v.text, None, ENV + key));
      var back := if key in secrets then [(key, Text(secrets[key]))] else [];
      SnocEquals(AppliedFields(RedactedEnv(front), secrets), back, env);
    }
  }

  lemma {:induction false} VaultsComeBack(ids: seq<Value>, n: Naming, vaults: map<string, string>)
    requires AllIds(ids)
    ensures |AppliedVaults(RedactedVaults(ids, n), vaults)| <= |ids|
    ensures AppliedVaults(RedactedVaults(ids, n), vaults) == ids <==> GivesBack(vaults, VaultUses(ids, n))
  {
    if ids != [] {
      var front, v := ids[..|ids| - 1], ids[|ids| - 1];
      VaultsComeBack(front, n, vaults);
      var name := n.vault(v.text);
      AppliedVaultsGrows(RedactedVaults(front, n), name, vaults);
      GivesBackJoins(vaults, VaultUses(front, n), [Use(name, v.text, Some(VAULT), VAULT_IDS)]);
      OneUse(vaults, Use(name, v.text, Some(VAULT), VAULT_IDS));
      var back := if Supplied(vaults, name) then [Text(vaults[name])] else [];
      SnocEquals(AppliedVaults(RedactedVaults(front, n), vaults), back, ids);
    }
  }

  /** One tool comes back if and only if its secrets and its credential do. */
  lemma ToolComesBack(tool: Tool, n: Naming, secrets: map<string, string>, credentials: map<string, string>)
    requires PlainTool(tool)
    ensures AppliedTool(RedactedTool(tool, n), secrets, credentials)
              == tool.(headers := NonEmpty(OrEmpty(tool.headers)))
       <==> GivesBack(secrets, HeaderUses(tool.server, OrEmpty(tool.headers), n))
            && GivesBack(credentials, CredentialUse(tool, n))
  {
    hide AppliedFields, RedactedHeaders, HeaderUses;
    HeadersComeBack(tool.server, OrEmpty(tool.headers), n, secrets);
    EmptyComesBack(tool.server, n, secrets);
    if NamesACredential(tool) {
      var id := tool.credentialId.value;
      OneUse(credentials, Use(n.credential(id), id, Some(n.kind(id)), TOOLS));
    }
  }

  lemma EmptyComesBack(server: string, n: Naming, secrets: map<string, string>)
    ensures AppliedFields(RedactedHeaders(server, [], n), secrets) == []
  {
  }

  lemma AppliedToolsGrow(tools: seq<Tool>, tool: Tool, secrets: map<string, string>, credentials: map<string, string>)
    ensures AppliedTools(tools + [tool], secrets, credentials)
         == AppliedTools(tools, secrets, credentials) + [AppliedTool(tool, secrets, credentials)]
  {
    assert (tools + [tool])[..|tools|] == tools;
  }

  lemma {:induction false} ToolsComeBack(tools: seq<Tool>, n: Naming, secrets: map<string, string>,
                                         credentials: map<string, string>)
    requires forall i :: 0 <= i < |tools| ==> PlainTool(tools[i])
    ensures |AppliedTools(RedactedTools(tools, n), secrets, credentials)| == |tools|
    ensures AppliedTools(RedactedTools(tools, n), secrets, credentials) == TidyTools(tools)
            <==> GivesBack(secrets, ToolUses(tools, n)) && GivesBack(credentials, CredentialUses(tools, n))
  {
    hide GivesBack, PlainTool, AppliedTool, RedactedTool, HeaderUses, CredentialUse, NonEmpty, OrEmpty;
    if tools == [] {
      NoUses(secrets);
      NoUses(credentials);
    } else {
      var front, tool := tools[..|tools| - 1], tools[|tools| - 1];
      ToolsComeBack(front, n, secrets, credentials);
      ToolComesBack(tool, n, secrets, credentials);
      var redacted := RedactedTools(front, n);
      AppliedToolsGrow(redacted, RedactedTool(tool, n), secrets, credentials);
      GivesBackJoins(secrets, ToolUses(front, n), HeaderUses(tool.server, OrEmpty(tool.headers), n));
      GivesBackJoins(credentials, CredentialUses(front, n), CredentialUse(tool, n));
      var tidy := TidyTools(tools);
      assert tidy[..|tools| - 1] == TidyTools(front);
      SnocEquals(AppliedTools(redacted, secrets, credentials),
                 [AppliedTool(RedactedTool(tool, n), secrets, credentials)], tidy);
    }
  }

  lemma NoUses(m: map<string, string>)
    ensures GivesBack(m, [])
  {
  }

  /**
   Applying a redacted agent gives the agent back, up to empty collections, if and only if the supplied
   maps give every secret, credential and vault its value under the name it got.
   */
  lemma ApplyInvertsRedact(a: Agent, n: Naming, secrets: map<string, string>, credentials: map<string, string>,
                           vaults: map<string, string>)
    requires Plain(a)
    ensures Applied(Redacted(a, n), secrets, credentials, vaults) == Tidy(a)
            <==> GivesBack(secrets, SecretUses(a, n)) && GivesBack(credentials, CredentialUses(a.tools, n))
                 && GivesBack(vaults, AgentVaultUses(a, n))
  {
    hide AppliedFields, AppliedVaults, AppliedTools, RedactedTools, RedactedEnv, RedactedVaults, EnvUses, VaultUses,
      GivesBack;
    ToolsComeBack(a.tools, n, secrets, credentials);
    if a.defaults.Some? {
      var d := a.defaults.value;
      DefaultsComeBack(d, n, secrets, vaults);
      GivesBackJoins(secrets, ToolUses(a.tools, n), EnvUses(OrEmpty(d.env)));
    } else {
      NoUses(vaults);
      assert ToolUses(a.tools, n) + [] == ToolUses(a.tools, n);
    }
  }

  lemma DefaultsComeBack(d: Defaults, n: Naming, secrets: map<string, string>, vaults: map<string, string>)
    requires AllText(OrEmpty(d.env)) && AllIds(OrEmpty(d.vaultIds))
    ensures AppliedDefaults(RedactedDefaults(d, n), secrets, vaults)
            == d.(env := NonEmpty(OrEmpty(d.env)), vaultIds := NonEmpty(OrEmpty(d.vaultIds)))
            <==> GivesBack(secrets, EnvUses(OrEmpty(d.env))) && GivesBack(vaults, VaultUses(OrEmpty(d.vaultIds), n))
  {
    hide AppliedFields, AppliedVaults, RedactedEnv, RedactedVaults, EnvUses, VaultUses, GivesBack;
    EnvComesBack(OrEmpty(d.env), secrets);
    VaultsComeBack(OrEmpty(d.vaultIds), n, vaults);
    NothingComesBack(n, secrets, vaults);
  }

  lemma NothingComesBack(n: Naming, secrets: map<string, string>, vaults: map<string, string>)
    ensures AppliedFields(RedactedEnv([]), secrets) == [] && AppliedVaults(RedactedVaults([], n), vaults) == []
  {
  }

  // ---------------------------------------------------------------- which names can be supplied

  /** The map of the uses, later ones last. */
  function SupplyOf(uses: seq<Use>): map<string, string> {
    if uses == [] then map[]
    else SupplyOf(uses[..|uses| - 1])[uses[|uses| - 1].name := uses[|uses| - 1].value]
  }

  lemma {:induction false} SupplyGivesBack(uses: seq<Use>)
    requires Unambiguous(uses)
    ensures GivesBack(SupplyOf(uses), uses)
    ensures forall name :: name in SupplyOf(uses) ==> exists i :: 0 <= i < |uses| && uses[i].name == name
  {
    if uses != [] {
      var front, last := uses[..|uses| - 1], uses[|uses| - 1];
      forall i, j | 0 <= i < |front| && 0 <= j < |front| && front[i].name == front[j].name
        ensures front[i].value == front[j].value
      {
        assert uses[i] == front[i] && uses[j] == front[j];
      }
      SupplyGivesBack(front);
      forall i | 0 <= i < |uses|
        ensures uses[i].name in SupplyOf(uses) && SupplyOf(uses)[uses[i].name] == uses[i].value
      {
        if i < |front| { assert front[i] == uses[i]; }
      }
      forall name | name in SupplyOf(uses)
        ensures exists i :: 0 <= i < |uses| && uses[i].name == name
      {
        if name == last.name {
          assert uses[|uses| - 1].name == name;
        } else {
          var i :| 0 <= i < |front| && front[i].name == name;
          assert uses[i].name == name;
        }
      }
    }
  }

  /** An agent can be given back by some supply if and only if no derived name stands for two values. */
  lemma RestorableIffUnambiguous(a: Agent, n: Naming)
    requires Plain(a)
    ensures (exists secrets, credentials, vaults :: Applied(Redacted(a, n), secrets, credentials, vaults) == Tidy(a))
            <==> Unambiguous(SecretUses(a, n)) && Unambiguous(CredentialUses(a.tools, n))
                 && Unambiguous(AgentVaultUses(a, n))
  {
    hide Applied, Redacted, Tidy, SecretUses, CredentialUses, AgentVaultUses;
    if Unambiguous(SecretUses(a, n)) && Unambiguous(CredentialUses(a.tools, n)) && Unambiguous(AgentVaultUses(a, n)) {
      SupplyGivesBack(SecretUses(a, n));
      SupplyGivesBack(CredentialUses(a.tools, n));
      SupplyGivesBack(AgentVaultUses(a, n));
      var s, c, v := SupplyOf(SecretUses(a, n)), SupplyOf(CredentialUses(a.tools, n)), SupplyOf(AgentVaultUses(a, n));
      ApplyInvertsRedact(a, n, s, c, v);
      assert Applied(Redacted(a, n), s, c, v) == Tidy(a);
    }
    if s, c, v :| Applied(Redacted(a, n), s, c, v) == Tidy(a) {
      ApplyInvertsRedact(a, n, s, c, v);
    }
  }

  // ---------------------------------------------------------------- what is missing

  lemma {:induction false} NotInMembers(names: seq<string>, secrets: map<string, string>)
    ensures forall name :: name in NotIn(names, secrets) <==> name in names && name !in secrets
  {
    if names != [] {
      NotInMembers(names[..|names| - 1], secrets);
      assert forall name :: name in names <==> name in names[..|names| - 1] || name == names[|names| - 1];
    }
  }

  lemma {:induction false} NotSuppliedMembers(names: seq<string>, ids: map<string, string>)
    ensures forall name :: name in NotSupplied(names, ids) <==> name in names && !Supplied(ids, name)
  {
    if names != [] {
      NotSuppliedMembers(names[..|names| - 1], ids);
      assert forall name :: name in names <==> name in names[..|names| - 1] || name == names[|names| - 1];
    }
  }

  lemma {:induction false} NothingNotIn(uses: seq<Use>, secrets: map<string, string>)
    requires forall i :: 0 <= i < |uses| ==> uses[i].name in secrets
    ensures NotIn(NamesOf(uses), secrets) == []
  {
    if uses != [] {
      assert NamesOf(uses)[..|uses| - 1] == NamesOf(uses[..|uses| - 1]);
      NothingNotIn(uses[..|uses| - 1], secrets);
    }
  }

  lemma {:induction false} NothingNotSupplied(uses: seq<Use>, ids: map<string, string>)
    requires forall i :: 0 <= i < |uses| ==> Supplied(ids, uses[i].name)
    ensures NotSupplied(NamesOf(uses), ids) == []
  {
    if uses != [] {
      assert NamesOf(uses)[..|uses| - 1] == NamesOf(uses[..|uses| - 1]);
      NothingNotSupplied(uses[..|uses| - 1], ids);
    }
  }

  /** Supplied with everything, nothing is missing; a credential or vault id is never empty. */
  lemma NothingIsMissing(a: Agent, n: Naming, secrets: map<string, string>, credentials: map<string, string>,
                         vaults: map<string, string>)
    requires Plain(a)
    requires GivesBack(secrets, SecretUses(a, n)) && GivesBack(credentials, CredentialUses(a.tools, n))
    requires GivesBack(vaults, AgentVaultUses(a, n))
    ensures NotIn(Secrets(Redacted(a, n)), secrets) == []
    ensures NotSupplied(ToolCredentials(Redacted(a, n).tools), credentials) == []
    ensures NotSupplied(Vaults(Redacted(a, n)), vaults) == []
  {
    hide SecretUses, CredentialUses, AgentVaultUses, Redacted, Plain, NotIn, NotSupplied, NamesOf;
    PlaceholdersAreTheUses(a, n);
    IdsAreNotEmpty(a, n);
    NothingNotIn(SecretUses(a, n), secrets);
    NothingNotSupplied(CredentialUses(a.tools, n), credentials);
    NothingNotSupplied(AgentVaultUses(a, n), vaults);
  }

  lemma {:induction false} IdsAreNotEmpty(a: Agent, n: Naming)
    requires Plain(a)
    ensures forall i :: 0 <= i < |CredentialUses(a.tools, n)| ==> CredentialUses(a.tools, n)[i].value != ""
    ensures forall i :: 0 <= i < |AgentVaultUses(a, n)| ==> AgentVaultUses(a, n)[i].value != ""
  {
    CredentialIdsAreNotEmpty(a.tools, n);
    if a.defaults.Some? { VaultIdsAreNotEmpty(OrEmpty(a.defaults.value.vaultIds), n); }
  }

  lemma {:induction false} CredentialIdsAreNotEmpty(tools: seq<Tool>, n: Naming)
    ensures forall i :: 0 <= i < |CredentialUses(tools, n)| ==> CredentialUses(tools, n)[i].value != ""
  {
    if tools != [] { CredentialIdsAreNotEmpty(tools[..|tools| - 1], n); }
  }

  lemma {:induction false} VaultIdsAreNotEmpty(ids: seq<Value>, n: Naming)
    requires AllIds(ids)
    ensures forall i :: 0 <= i < |VaultUses(ids, n)| ==> VaultUses(ids, n)[i].value != ""
  {
    if ids != [] { VaultIdsAreNotEmpty(ids[..|ids| - 1], n); }
  }

  // ---------------------------------------------------------------- what a bundle shows

  ghost predicate AllSecretRefs(fields: Fields) {
    forall i :: 0 <= i < |fields| ==> fields[i].1.SecretRef?
  }

  lemma {:induction false} HeadersShowNothing(server: string, headers: Fields, n: Naming)
    ensures AllSecretRefs(RedactedHeaders(server, headers, n))
  {
    if headers != [] { HeadersShowNothing(server, headers[..|headers| - 1], n); }
  }

  lemma {:induction false} EnvShowsNothing(env: Fields)
    ensures AllSecretRefs(RedactedEnv(env))
  {
    if env != [] { EnvShowsNothing(env[..|env| - 1]); }
  }

  lemma {:induction false} VaultsShowNothing(ids: seq<Value>, n: Naming)
    ensures forall i :: 0 <= i < |RedactedVaults(ids, n)| ==> RedactedVaults(ids, n)[i].CredentialRef?
  {
    if ids != [] { VaultsShowNothing(ids[..|ids| - 1], n); }
  }

  lemma {:induction false} ToolsShowNothing(tools: seq<Tool>, n: Naming)
    ensures forall i :: 0 <= i < |RedactedTools(tools, n)| ==>
      AllSecretRefs(OrEmpty(RedactedTools(tools, n)[i].headers)) && !NamesACredential(RedactedTools(tools, n)[i])
  {
    hide AllSecretRefs;
    if tools != [] {
      var tool := tools[|tools| - 1];
      ToolsShowNothing(tools[..|tools| - 1], n);
      HeadersShowNothing(tool.server, OrEmpty(tool.headers), n);
      assert tool.headers.None? ==> OrEmpty(RedactedTool(tool, n).headers) == RedactedHeaders(tool.server, [], n);
    }
  }

  /** Of any agent, a redacted one keeps no header value, environment value, credential id or vault id. */
  lemma RedactedShowsNoSecret(a: Agent, n: Naming)
    ensures var out := Redacted(a, n);
      && (forall i :: 0 <= i < |out.tools| ==>
         AllSecretRefs(OrEmpty(out.tools[i].headers)) && !NamesACredential(out.tools[i]))
      && (out.defaults.Some? ==>
           && AllSecretRefs(OrEmpty(out.defaults.value.env))
           && forall i :: 0 <= i < |OrEmpty(out.defaults.value.vaultIds)| ==>
              OrEmpty(out.defaults.value.vaultIds)[i].CredentialRef?)
  {
    ToolsShowNothing(a.tools, n);
    if a.defaults.Some? {
      EnvShowsNothing(OrEmpty(a.defaults.value.env));
      VaultsShowNothing(OrEmpty(a.defaults.value.vaultIds), n);
    }
  }

  // ---------------------------------------------------------------- a value shows through its name alone

  ghost predicate AlikeHeaders(server: string, xs: Fields, ys: Fields, n: Naming) {
    |xs| == |ys| && forall i :: 0 <= i < |xs| ==>
      && xs[i].0 == ys[i].0 && xs[i].1.Text? == ys[i].1.Text?
      && (xs[i].1.Text? ==> n.secret(server, xs[i].0, xs[i].1.text) == n.secret(server, ys[i].0, ys[i].1.text))
  }

  ghost predicate AlikeEnv(xs: Fields, ys: Fields) {
    |xs| == |ys| && forall i :: 0 <= i < |xs| ==> xs[i].0 == ys[i].0
  }

  ghost predicate AlikeVaults(xs: seq<Value>, ys: seq<Value>, n: Naming) {
    |xs| == |ys| && forall i :: 0 <= i < |xs| ==> n.vault(Shown(xs[i])) == n.vault(Shown(ys[i]))
  }

  ghost predicate AlikeTools(x: Tool, y: Tool, n: Naming) {
    && x.server == y.server && x.other == y.other
    && x.headers.Some? == y.headers.Some? && AlikeHeaders(x.server, OrEmpty(x.headers), OrEmpty(y.headers), n)
    && NamesACredential(x) == NamesACredential(y)
    && (if NamesACredential(x) then n.credential(x.credentialId.value) == n.credential(y.credentialId.value)
        else x.credentialId == y.credentialId && x.credential == y.credential)
  }

  ghost predicate AlikeDefaults(x: Defaults, y: Defaults, n: Naming) {
    && x.other == y.other
    && x.env.Some? == y.env.Some? && AlikeEnv(OrEmpty(x.env), OrEmpty(y.env))
    && x.vaultIds.Some? == y.vaultIds.Some? && AlikeVaults(OrEmpty(x.vaultIds), OrEmpty(y.vaultIds), n)
  }

  /** Two agents that differ at most in secret values and ids, and whose values get the same names. */
  ghost predicate Alike(a: Agent, b: Agent, n: Naming) {
    && |a.tools| == |b.tools| && (forall i :: 0 <= i < |a.tools| ==> AlikeTools(a.tools[i], b.tools[i], n))
    && a.defaults.Some? == b.defaults.Some?
    && (a.defaults.Some? ==> AlikeDefaults(a.defaults.value, b.defaults.value, n))
  }

  lemma {:induction false} AlikeHeadersRedact(server: string, xs: Fields, ys: Fields, n: Naming)
    requires AlikeHeaders(server, xs, ys, n)
    ensures RedactedHeaders(server, xs, n) == RedactedHeaders(server, ys, n)
  {
    if xs != [] { AlikeHeadersRedact(server, xs[..|xs| - 1], ys[..|ys| - 1], n); }
  }

  lemma {:induction false} AlikeEnvRedacts(xs: Fields, ys: Fields)
    requires AlikeEnv(xs, ys)
    ensures RedactedEnv(xs) == RedactedEnv(ys)
  {
    if xs != [] { AlikeEnvRedacts(xs[..|xs| - 1], ys[..|ys| - 1]); }
  }

  lemma {:induction false} AlikeVaultsRedact(xs: seq<Value>, ys: seq<Value>, n: Naming)
    requires AlikeVaults(xs, ys, n)
    ensures RedactedVaults(xs, n) == RedactedVaults(ys, n)
  {
    if xs != [] { AlikeVaultsRedact(xs[..|xs| - 1], ys[..|ys| - 1], n); }
  }

  lemma {:induction false} AlikeToolsRedact(xs: seq<Tool>, ys: seq<Tool>, n: Naming)
    requires |xs| == |ys| && forall i :: 0 <= i < |xs| ==> AlikeTools(xs[i], ys[i], n)
    ensures RedactedTools(xs, n) == RedactedTools(ys, n)
  {
    if xs != [] {
      var x, y := xs[|xs| - 1], ys[|ys| - 1];
      AlikeToolsRedact(xs[..|xs| - 1], ys[..|ys| - 1], n);
      assert AlikeTools(x, y, n);
      AlikeHeadersRedact(x.server, OrEmpty(x.headers), OrEmpty(y.headers), n);
    }
  }

  /** A redacted agent tells of a secret or an id no more than the name derived from it. */
  lemma OnlyNamesShow(a: Agent, b: Agent, n: Naming)
    requires Alike(a, b, n)
    ensures Redacted(a, n) == Redacted(b, n)
  {
    hide AlikeTools, RedactedEnv, RedactedVaults, AlikeEnv, AlikeVaults;
    AlikeToolsRedact(a.tools, b.tools, n);
    if a.defaults.Some? {
      AlikeEnvRedacts(OrEmpty(a.defaults.value.env), OrEmpty(b.defaults.value.env));
      AlikeVaultsRedact(OrEmpty(a.defaults.value.vaultIds), OrEmpty(b.defaults.value.vaultIds), n);
    }
  }
}
