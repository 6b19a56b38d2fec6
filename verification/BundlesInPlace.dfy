/** Redacting and applying as they run: loops over objects and lists that append to shared lists. */
module BundlesInPlace {
  import opened Common
  import opened Bundles

  /** What a bundle requires, filled while an agent is redacted. */
  class Requires {
    var secrets: seq<Required>
    var credentials: seq<Required>

    constructor ()
      ensures secrets == [] && credentials == []
    {
      secrets, credentials := [], [];
    }
  }

  /** What an apply misses. */
  class Missing {
    var secrets: seq<string>
    var credentials: seq<string>

    constructor ()
      ensures secrets == [] && credentials == []
    {
      secrets, credentials := [], [];
    }
  }

  function Rows(uses: seq<Use>): seq<Required> {
    seq(|uses|, i requires 0 <= i < |uses| => Required(uses[i].name, uses[i].kind, uses[i].usedBy))
  }

  // ---------------------------------------------------------------- redacting

  method RedactTool(tool: Tool, lists: Requires, n: Naming) returns (out: Tool)
    modifies lists
    ensures out == RedactedTool(tool, n)
    ensures lists.secrets == old(lists.secrets) + Rows(HeaderUses(tool.server, OrEmpty(tool.headers), n))
    ensures lists.credentials == old(lists.credentials) + Rows(CredentialUse(tool, n))
  {
    out := tool;
    if tool.headers.Some? {
      var headers := tool.headers.value;
      var redacted: Fields := [];
      for k := 0 to |headers|
        invariant redacted == RedactedHeaders(tool.server, headers[..k], n)
        invariant lists.secrets == old(lists.secrets) + Rows(HeaderUses(tool.server, headers[..k], n))
        invariant lists.credentials == old(lists.credentials)
      {
        assert headers[..k + 1][..k] == headers[..k];
        var (key, v) := headers[k];
        if !v.Text? {
          continue;
        }
        var name := n.secret(tool.server, key, v.text);
        redacted := redacted + [(key, SecretRef(name))];
        lists.secrets := lists.secrets + [Required(name, None, HEADERS + key)];
      }
      assert headers[..|headers|] == headers;
      out := out.(headers := Some(redacted));
    }
    if tool.credentialId.Some? && tool.credentialId.value != "" {
      var name := n.credential(tool.credentialId.value);
      out := out.(credentialId := None, credential := Some(CredentialRef(name)));
      lists.credentials := lists.credentials + [Required(name, Some(n.kind(tool.credentialId.value)), TOOLS)];
    }
  }

  method RedactDefaults(d: Defaults, lists: Requires, n: Naming) returns (out: Defaults)
    modifies lists
    ensures out == RedactedDefaults(d, n)
    ensures lists.secrets == old(lists.secrets) + Rows(EnvUses(OrEmpty(d.env)))
    ensures lists.credentials == old(lists.credentials) + Rows(VaultUses(OrEmpty(d.vaultIds), n))
  {
    hide RedactedEnv, RedactedVaults;
    out := d;
    if d.env.Some? {
      var replaced := RedactEnv(d.env.value, lists);
      out := out.(env := Some(replaced));
    }
    if d.vaultIds.Some? {
      var replaced := RedactVaults(d.vaultIds.value, lists, n);
      out := out.(vaultIds := Some(replaced));
    }
  }

  method RedactEnv(env: Fields, lists: Requires) returns (replaced: Fields)
    modifies lists`secrets
    ensures replaced == RedactedEnv(env)
    ensures lists.secrets == old(lists.secrets) + Rows(EnvUses(env))
  {
    replaced := [];
    for k := 0 to |env|
      invariant replaced == RedactedEnv(env[..k])
      invariant lists.secrets == old(lists.secrets) + Rows(EnvUses(env[..k]))
    {
      assert env[..k + 1][..k] == env[..k];
      var name := env[k].0;
      replaced := replaced + [(name, SecretRef(name))];
      lists.secrets := lists.secrets + [Required(name, None, ENV + name)];
    }
    assert env[..|env|] == env;
  }

  method RedactVaults(ids: seq<Value>, lists: Requires, n: Naming) returns (replaced: seq<Value>)
    modifies lists`credentials
    ensures replaced == RedactedVaults(ids, n)
    ensures lists.credentials == old(lists.credentials) + Rows(VaultUses(ids, n))
  {
    replaced := [];
    for k := 0 to |ids|
      invariant replaced == RedactedVaults(ids[..k], n)
      invariant lists.credentials == old(lists.credentials) + Rows(VaultUses(ids[..k], n))
    {
      assert ids[..k + 1][..k] == ids[..k];
      var name := n.vault(Shown(ids[k]));
      replaced := replaced + [CredentialRef(name)];
      lists.credentials := lists.credentials + [Required(name, Some(VAULT), VAULT_IDS)];
    }
    assert ids[..|ids|] == ids;
  }

  /** The redacted agent, and one row per secret, credential and vault, in the order of their placeholders. */
  method RedactAgent(a: Agent, n: Naming) returns (out: Agent, lists: Requires)
    ensures fresh(lists) && out == Redacted(a, n)
    ensures lists.secrets == Rows(SecretUses(a, n))
    ensures lists.credentials == Rows(CredentialUses(a.tools, n) + AgentVaultUses(a, n))
  {
    hide RedactedTool, HeaderUses, CredentialUse, RedactedDefaults, EnvUses, VaultUses, Rows, ToolUses, CredentialUses,
      RedactedTools;
    lists := new Requires();
    var tools: seq<Tool> := [];
    NoRows(n);
    for k := 0 to |a.tools|
      invariant tools == RedactedTools(a.tools[..k], n)
      invariant lists.secrets == Rows(ToolUses(a.tools[..k], n))
      invariant lists.credentials == Rows(CredentialUses(a.tools[..k], n))
    {
      ToolsNext(a.tools, k, n);
      var tool := RedactTool(a.tools[k], lists, n);
      tools := tools + [tool];
    }
    assert a.tools[..|a.tools|] == a.tools;
    var defaults := None;
    if a.defaults.Some? {
      var d := RedactDefaults(a.defaults.value, lists, n);
      defaults := Some(d);
    }
    out := Agent(tools, defaults);
    RowsJoin(ToolUses(a.tools, n), if a.defaults.Some? then EnvUses(OrEmpty(a.defaults.value.env)) else []);
    RowsJoin(CredentialUses(a.tools, n), AgentVaultUses(a, n));
    NoRows(n);
  }

  lemma NoRows(n: Naming)
    ensures Rows([]) == [] && ToolUses([], n) == [] && CredentialUses([], n) == [] && RedactedTools([], n) == []
  {
  }

  lemma RowsJoin(xs: seq<Use>, ys: seq<Use>)
    ensures Rows(xs + ys) == Rows(xs) + Rows(ys)
    ensures Rows(xs) + [] == Rows(xs)
  {
  }

  lemma ToolsNext(tools: seq<Tool>, k: nat, n: Naming)
    requires k < |tools|
    ensures RedactedTools(tools[..k + 1], n) == RedactedTools(tools[..k], n) + [RedactedTool(tools[k], n)]
    ensures Rows(ToolUses(tools[..k + 1], n))
         == Rows(ToolUses(tools[..k], n)) + Rows(HeaderUses(tools[k].server, OrEmpty(tools[k].headers), n))
    ensures Rows(CredentialUses(tools[..k + 1], n))
         == Rows(CredentialUses(tools[..k], n)) + Rows(CredentialUse(tools[k], n))
  {
    hide Rows, RedactedTool, HeaderUses, CredentialUse;
    assert tools[..k + 1][..k] == tools[..k];
    RowsJoin(ToolUses(tools[..k], n), HeaderUses(tools[k].server, OrEmpty(tools[k].headers), n));
    RowsJoin(CredentialUses(tools[..k], n), CredentialUse(tools[k], n));
  }

  // ---------------------------------------------------------------- applying

  /** The shared loop of headers and environment: put back what is supplied, note what is not. */
  method ApplyFields(fields: Fields, secrets: map<string, string>, missing: Missing) returns (applied: Fields)
    modifies missing
    ensures applied == AppliedFields(fields, secrets)
    ensures missing.secrets == old(missing.secrets) + NotIn(SecretsIn(fields), secrets)
    ensures missing.credentials == old(missing.credentials)
  {
    hide AppliedFields, SecretsIn, NotIn;
    applied := [];
    NoFields(secrets);
    for k := 0 to |fields|
      invariant applied == AppliedFields(fields[..k], secrets)
      invariant missing.secrets == old(missing.secrets) + NotIn(SecretsIn(fields[..k]), secrets)
      invariant missing.credentials == old(missing.credentials)
    {
      FieldSeen(fields, k, secrets);
      var (key, v) := fields[k];
      if !v.SecretRef? {
        if v.Text? {
          applied := applied + [(key, v)];
        }
        continue;
      }
      if v.name !in secrets {
        missing.secrets := missing.secrets + [v.name];
        continue;
      }
      applied := applied + [(key, Text(secrets[v.name]))];
    }
    assert fields[..|fields|] == fields;
  }

  lemma NoFields(secrets: map<string, string>)
    ensures AppliedFields([], secrets) == [] && NotIn(SecretsIn([]), secrets) == []
  {
  }

  /** What one more field adds to the object and to what is missing. */
  lemma FieldSeen(fields: Fields, k: nat, secrets: map<string, string>)
    requires k < |fields|
    ensures var (key, v) := fields[k];
      && AppliedFields(fields[..k + 1], secrets) == AppliedFields(fields[..k], secrets)
        + (if v.SecretRef? then (if v.name in secrets then [(key, Text(secrets[v.name]))] else [])
           else if v.Text? then [(key, v)] else [])
      && NotIn(SecretsIn(fields[..k + 1]), secrets) == NotIn(SecretsIn(fields[..k]), secrets)
        + (if v.SecretRef? && v.name !in secrets then [v.name] else [])
  {
    hide AppliedFields, SecretsIn, NotIn;
    var front := fields[..k];
    var (key, v) := fields[k];
    assert front + [(key, v)] == fields[..k + 1];
    AppliedFieldsGrows(front, key, v, secrets);
    SecretsInGrows(front, (key, v));
    var seen := SecretsIn(front);
    if v.SecretRef? {
      NotInJoins(seen, [v.name], secrets);
      OneOpen(v.name, secrets, map[]);
    } else {
      assert seen + [] == seen && NotIn(seen, secrets) + [] == NotIn(seen, secrets);
    }
  }

  lemma {:induction false} NotInJoins(a: seq<string>, b: seq<string>, secrets: map<string, string>)
    ensures NotIn(a + b, secrets) == NotIn(a, secrets) + NotIn(b, secrets)
  {
    if b == [] {
      assert a + b == a;
    } else {
      assert (a + b)[..|a + b| - 1] == a + b[..|b| - 1];
      NotInJoins(a, b[..|b| - 1], secrets);
    }
  }

  lemma {:induction false} NotSuppliedJoins(a: seq<string>, b: seq<string>, ids: map<string, string>)
    ensures NotSupplied(a + b, ids) == NotSupplied(a, ids) + NotSupplied(b, ids)
  {
    if b == [] {
      assert a + b == a;
    } else {
      assert (a + b)[..|a + b| - 1] == a + b[..|b| - 1];
      NotSuppliedJoins(a, b[..|b| - 1], ids);
    }
  }

  lemma OneOpen(name: string, secrets: map<string, string>, ids: map<string, string>)
    ensures NotIn([name], secrets) == if name in secrets then [] else [name]
    ensures NotSupplied([name], ids) == if Supplied(ids, name) then [] else [name]
  {
    assert [name][..0] == [];
  }

  lemma OneReference(v: Value)
    ensures CredentialsIn([v]) == if v.CredentialRef? then [v.name] else []
  {
    assert [v][..0] == [];
  }

  function CredentialName(tool: Tool): seq<string> {
    CredentialsIn(if tool.credential.Some? then [tool.credential.value] else [])
  }

  method ApplyTool(tool: Tool, secrets: map<string, string>, credentials: map<string, string>, missing: Missing)
    returns (out: Tool)
    modifies missing
    ensures out == AppliedTool(tool, secrets, credentials)
    ensures missing.secrets == old(missing.secrets) + NotIn(SecretsIn(OrEmpty(tool.headers)), secrets)
    ensures missing.credentials == old(missing.credentials) + NotSupplied(CredentialName(tool), credentials)
  {
    hide AppliedFields;
    out := tool.(credential := None);
    if tool.headers.Some? {
      var applied := ApplyFields(tool.headers.value, secrets, missing);
      out := out.(headers := if applied != [] then Some(applied) else None);
    }
    if tool.credential.Some? && tool.credential.value.CredentialRef? {
      var name := tool.credential.value.name;
      OneReference(tool.credential.value);
      OneOpen(name, map[], credentials);
      if name in credentials && credentials[name] != "" {
        out := out.(credentialId := Some(credentials[name]));
      } else {
        missing.credentials := missing.credentials + [name];
      }
    } else if tool.credential.Some? {
      OneReference(tool.credential.value);
    }
  }

  method ApplyDefaults(d: Defaults, secrets: map<string, string>, vaults: map<string, string>, missing: Missing)
    returns (out: Defaults)
    modifies missing
    ensures out == AppliedDefaults(d, secrets, vaults)
    ensures missing.secrets == old(missing.secrets) + NotIn(SecretsIn(OrEmpty(d.env)), secrets)
    ensures missing.credentials == old(missing.credentials) + NotSupplied(CredentialsIn(OrEmpty(d.vaultIds)), vaults)
  {
    hide AppliedFields;
    out := d;
    if d.env.Some? {
      var applied := ApplyFields(d.env.value, secrets, missing);
      out := out.(env := if applied != [] then Some(applied) else None);
    }
    if d.vaultIds.Some? {
      var mapped := ApplyVaults(d.vaultIds.value, vaults, missing);
      out := out.(vaultIds := if mapped != [] then Some(mapped) else None);
    }
  }

  method ApplyVaults(refs: seq<Value>, vaults: map<string, string>, missing: Missing) returns (mapped: seq<Value>)
    modifies missing`credentials
    ensures mapped == AppliedVaults(refs, vaults)
    ensures missing.credentials == old(missing.credentials) + NotSupplied(CredentialsIn(refs), vaults)
  {
    hide AppliedVaults, CredentialsIn, NotSupplied;
    mapped := [];
    NoReferences(vaults);
    for k := 0 to |refs|
      invariant mapped == AppliedVaults(refs[..k], vaults)
      invariant missing.credentials == old(missing.credentials) + NotSupplied(CredentialsIn(refs[..k]), vaults)
    {
      ReferenceSeen(refs, k, vaults);
      if !refs[k].CredentialRef? {
        continue;
      }
      var name := refs[k].name;
      if name in vaults && vaults[name] != "" {
        mapped := mapped + [Text(vaults[name])];
      } else {
        missing.credentials := missing.credentials + [name];
      }
    }
    assert refs[..|refs|] == refs;
  }

  lemma NoReferences(vaults: map<string, string>)
    ensures AppliedVaults([], vaults) == [] && NotSupplied(CredentialsIn([]), vaults) == []
  {
  }

  /** What one more vault reference adds to the ids and to what is missing. */
  lemma ReferenceSeen(refs: seq<Value>, k: nat, vaults: map<string, string>)
    requires k < |refs|
    ensures AppliedVaults(refs[..k + 1], vaults) == AppliedVaults(refs[..k], vaults)
      + (if refs[k].CredentialRef? && Supplied(vaults, refs[k].name) then [Text(vaults[refs[k].name])] else [])
    ensures NotSupplied(CredentialsIn(refs[..k + 1]), vaults) == NotSupplied(CredentialsIn(refs[..k]), vaults)
      + (if refs[k].CredentialRef? && !Supplied(vaults, refs[k].name) then [refs[k].name] else [])
  {
    hide NotSupplied;
    assert refs[..k + 1][..k] == refs[..k];
    var seen := CredentialsIn(refs[..k]);
    if refs[k].CredentialRef? {
      NotSuppliedJoins(seen, [refs[k].name], vaults);
      OneOpen(refs[k].name, map[], vaults);
    } else {
      assert seen + [] == seen && NotSupplied(seen, vaults) + [] == NotSupplied(seen, vaults);
    }
  }

  /**
   `apply_bundle` on its secrets, credentials and vaults: whatever maps are supplied, `missing` lists exactly
   the placeholders they leave open, in the order these appear.
   */
  method ApplyBundle(a: Agent, secrets: map<string, string>, credentials: map<string, string>,
                     vaults: Option<map<string, string>>)
    returns (out: Agent, missing: Missing)
    ensures var ids := if vaults.Some? then vaults.value else credentials;
      && fresh(missing) && out == Applied(a, secrets, credentials, ids)
      && missing.secrets == NotIn(Secrets(a), secrets)
      && missing.credentials == NotSupplied(ToolCredentials(a.tools), credentials) + NotSupplied(Vaults(a), ids)
  {
    hide AppliedTool, AppliedDefaults, SecretsIn, CredentialsIn, NotIn, NotSupplied;
    missing := new Missing();
    var tools: seq<Tool> := [];
    assert NotIn([], secrets) == [] && NotSupplied([], credentials) == [] by { NothingOpen(secrets, credentials); }
    for k := 0 to |a.tools|
      invariant tools == AppliedTools(a.tools[..k], secrets, credentials)
      invariant missing.secrets == NotIn(ToolSecrets(a.tools[..k]), secrets)
      invariant missing.credentials == NotSupplied(ToolCredentials(a.tools[..k]), credentials)
    {
      assert a.tools[..k + 1][..k] == a.tools[..k];
      var tool := ApplyTool(a.tools[k], secrets, credentials, missing);
      NotInJoins(ToolSecrets(a.tools[..k]), SecretsIn(OrEmpty(a.tools[k].headers)), secrets);
      NotSuppliedJoins(ToolCredentials(a.tools[..k]), CredentialName(a.tools[k]), credentials);
      tools := tools + [tool];
    }
    assert a.tools[..|a.tools|] == a.tools;
    var ids := if vaults.Some? then vaults.value else credentials;
    var defaults := None;
    NothingOpen(secrets, ids);
    if a.defaults.Some? {
      var d := ApplyDefaults(a.defaults.value, secrets, ids, missing);
      NotInJoins(ToolSecrets(a.tools), SecretsIn(OrEmpty(a.defaults.value.env)), secrets);
      defaults := Some(d);
    } else {
      assert ToolSecrets(a.tools) + [] == ToolSecrets(a.tools);
    }
    out := Agent(tools, defaults);
  }

  lemma NothingOpen(secrets: map<string, string>, ids: map<string, string>)
    ensures NotIn([], secrets) == [] && NotSupplied([], ids) == []
  {
  }
}
