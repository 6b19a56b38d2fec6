/** What applying makes of any bundle, redacted here or written by hand, told from its references. */
module BundleReferences {
  import opened Common
  import opened Bundles

  /** The text a field ends with: its own, or the secret supplied for its reference. */
  function Filled(v: Value, secrets: map<string, string>): Option<string> {
    match v
    case Text(text) => Some(text)
    case SecretRef(name) => if name in secrets then Some(secrets[name]) else None
    case _ => None
  }

  /** An id stands for a name when one is supplied that is not empty. */
  function IdFor(ids: map<string, string>, name: string): Option<string> {
    if name in ids && ids[name] != "" then Some(ids[name]) else None
  }

  /** The places `at`, in order, are all those that come to something, and what they come to stands there. */
  ghost predicate ComeTo<T, U>(xs: seq<T>, out: seq<U>, at: seq<nat>, becomes: T -> Option<U>) {
    && |at| == |out| && (forall j :: 0 <= j < |at| ==> at[j] < |xs| && becomes(xs[at[j]]) == Some(out[j]))
    && (forall i, j :: 0 <= i < j < |at| ==> at[i] < at[j])
    && (forall k :: 0 <= k < |xs| ==> (k in at <==> becomes(xs[k]).Some?))
  }

  lemma ComeToNext<T, U>(xs: seq<T>, out: seq<U>, at: seq<nat>, becomes: T -> Option<U>)
    requires xs != [] && ComeTo(xs[..|xs| - 1], out, at, becomes)
    ensures var n, last := |xs| - 1, becomes(xs[|xs| - 1]);
      if last.Some? then ComeTo(xs, out + [last.value], at + [n], becomes) else ComeTo(xs, out, at, becomes)
  {
    var n := |xs| - 1;
    var front := xs[..n];
    assert forall k :: k in at ==> k < n;
    forall k | 0 <= k < n
      ensures k in at <==> becomes(xs[k]).Some?
    {
      assert front[k] == xs[k];
    }
  }

  lemma NothingComes<T, U>(becomes: T -> Option<U>)
    ensures ComeTo([], [], [], becomes)
  {
  }

  function FieldTo(secrets: map<string, string>): ((string, Value)) -> Option<(string, Value)> {
    (field: (string, Value)) =>
      if Filled(field.1, secrets).Some? then Some((field.0, Text(Filled(field.1, secrets).value))) else None
  }

  function VaultTo(vaults: map<string, string>): Value -> Option<Value> {
    (v: Value) =>
      if v.CredentialRef? && IdFor(vaults, v.name).Some? then Some(Text(IdFor(vaults, v.name).value)) else None
  }

  /** Fields keep their keys and their order; one without a text or a supplied secret is left out. */
  lemma {:induction false} FieldsComeTo(fields: Fields, secrets: map<string, string>) returns (at: seq<nat>)
    ensures ComeTo(fields, AppliedFields(fields, secrets), at, FieldTo(secrets))
  {
    hide ComeTo;
    if fields == [] {
      at := [];
      NothingComes(FieldTo(secrets));
    } else {
      var n := |fields| - 1;
      at := FieldsComeTo(fields[..n], secrets);
      ComeToNext(fields, AppliedFields(fields[..n], secrets), at, FieldTo(secrets));
      var out := AppliedFields(fields[..n], secrets);
      assert out + [] == out;
      at := if FieldTo(secrets)(fields[n]).Some? then at + [n] else at;
    }
  }

  lemma {:induction false} VaultsComeTo(refs: seq<Value>, vaults: map<string, string>) returns (at: seq<nat>)
    ensures ComeTo(refs, AppliedVaults(refs, vaults), at, VaultTo(vaults))
  {
    hide ComeTo;
    if refs == [] {
      at := [];
      NothingComes(VaultTo(vaults));
    } else {
      var n := |refs| - 1;
      at := VaultsComeTo(refs[..n], vaults);
      ComeToNext(refs, AppliedVaults(refs[..n], vaults), at, VaultTo(vaults));
      var out := AppliedVaults(refs[..n], vaults);
      assert out + [] == out;
      at := if VaultTo(vaults)(refs[n]).Some? then at + [n] else at;
    }
  }

  /** A collection that comes to nothing is none at all. */
  ghost predicate FieldsApplied(before: Option<Fields>, after: Option<Fields>, secrets: map<string, string>) {
    && (after == None || after != Some([]))
    && exists at :: ComeTo(OrEmpty(before), OrEmpty(after), at, FieldTo(secrets))
  }

  ghost predicate VaultsApplied(before: Option<seq<Value>>, after: Option<seq<Value>>, vaults: map<string, string>) {
    && (after == None || after != Some([]))
    && exists at :: ComeTo(OrEmpty(before), OrEmpty(after), at, VaultTo(vaults))
  }

  /** A tool ends with its headers filled and without a reference: with the id supplied for it, else its own. */
  ghost predicate ToolApplied(tool: Tool, out: Tool, secrets: map<string, string>, credentials: map<string, string>) {
    && out.server == tool.server && out.other == tool.other && out.credential == None
    && FieldsApplied(tool.headers, out.headers, secrets)
    && (forall name :: tool.credential == Some(CredentialRef(name)) && IdFor(credentials, name) != None ==>
         out.credentialId == IdFor(credentials, name))
    && ((forall name :: tool.credential == Some(CredentialRef(name)) ==> IdFor(credentials, name) == None) ==>
         out.credentialId == tool.credentialId)
  }

  ghost predicate DefaultsApplied(d: Defaults, out: Defaults, secrets: map<string, string>,
                                  vaults: map<string, string>)
  {
    out.other == d.other && FieldsApplied(d.env, out.env, secrets) && VaultsApplied(d.vaultIds, out.vaultIds, vaults)
  }

  lemma FieldsAreApplied(fields: Option<Fields>, secrets: map<string, string>)
    ensures var out := if fields.Some? then NonEmpty(AppliedFields(fields.value, secrets)) else None;
      FieldsApplied(fields, out, secrets)
  {
    hide ComeTo;
    var out := if fields.Some? then NonEmpty(AppliedFields(fields.value, secrets)) else None;
    var at := FieldsComeTo(OrEmpty(fields), secrets);
    assert OrEmpty(out) == AppliedFields(OrEmpty(fields), secrets);
    assert ComeTo(OrEmpty(fields), OrEmpty(out), at, FieldTo(secrets));
  }

  lemma VaultsAreApplied(ids: Option<seq<Value>>, vaults: map<string, string>)
    ensures var out := if ids.Some? then NonEmpty(AppliedVaults(ids.value, vaults)) else None;
      VaultsApplied(ids, out, vaults)
  {
    hide ComeTo;
    var out := if ids.Some? then NonEmpty(AppliedVaults(ids.value, vaults)) else None;
    var at := VaultsComeTo(OrEmpty(ids), vaults);
    assert OrEmpty(out) == AppliedVaults(OrEmpty(ids), vaults);
    assert ComeTo(OrEmpty(ids), OrEmpty(out), at, VaultTo(vaults));
  }

  lemma ToolIsApplied(tool: Tool, secrets: map<string, string>, credentials: map<string, string>)
    ensures ToolApplied(tool, AppliedTool(tool, secrets, credentials), secrets, credentials)
  {
    hide FieldsApplied;
    FieldsAreApplied(tool.headers, secrets);
    if tool.credential.Some? && tool.credential.value.CredentialRef? {
      assert tool.credential == Some(CredentialRef(tool.credential.value.name));
    }
  }

  /** Whatever the bundle holds, each tool and the defaults come to what their references are supplied with. */
  lemma {:induction false} EachIsApplied(tools: seq<Tool>, secrets: map<string, string>,
                                         credentials: map<string, string>)
    ensures |AppliedTools(tools, secrets, credentials)| == |tools|
    ensures forall i :: 0 <= i < |tools| ==>
      ToolApplied(tools[i], AppliedTools(tools, secrets, credentials)[i], secrets, credentials)
  {
    hide ToolApplied, AppliedTool;
    if tools != [] {
      var front, last := tools[..|tools| - 1], tools[|tools| - 1];
      EachIsApplied(front, secrets, credentials);
      ToolIsApplied(last, secrets, credentials);
    }
  }

  lemma BundleIsApplied(a: Agent, secrets: map<string, string>, credentials: map<string, string>,
                        vaults: map<string, string>)
    ensures var out := Applied(a, secrets, credentials, vaults);
      && |out.tools| == |a.tools| && (out.defaults == None <==> a.defaults == None)
      && (forall i :: 0 <= i < |a.tools| ==> ToolApplied(a.tools[i], out.tools[i], secrets, credentials))
      && (a.defaults != None ==> DefaultsApplied(a.defaults.value, out.defaults.value, secrets, vaults))
  {
    hide ToolApplied, FieldsApplied, VaultsApplied, AppliedTools;
    EachIsApplied(a.tools, secrets, credentials);
    if a.defaults.Some? {
      FieldsAreApplied(a.defaults.value.env, secrets);
      VaultsAreApplied(a.defaults.value.vaultIds, vaults);
    }
  }

  // ---------------------------------------------------------------- what is reported missing

  lemma {:induction false} CredentialNames(tools: seq<Tool>)
    ensures forall name :: name in ToolCredentials(tools) <==>
      exists i :: 0 <= i < |tools| && tools[i].credential == Some(CredentialRef(name))
  {
    if tools != [] {
      var front, last := tools[..|tools| - 1], tools[|tools| - 1];
      CredentialNames(front);
      forall name
        ensures name in ToolCredentials(tools) <==>
          exists i :: 0 <= i < |tools| && tools[i].credential == Some(CredentialRef(name))
      {
        CredentialOf(last, name);
        if i :| 0 <= i < |front| && front[i].credential == Some(CredentialRef(name)) {
          assert tools[i] == front[i];
        }
        if i :| 0 <= i < |tools| && tools[i].credential == Some(CredentialRef(name)) {
          if i < |front| { assert front[i] == tools[i]; }
        }
      }
    }
  }

  lemma CredentialOf(tool: Tool, name: string)
    ensures name in CredentialsIn(if tool.credential.Some? then [tool.credential.value] else [])
            <==> tool.credential == Some(CredentialRef(name))
  {
    if tool.credential.Some? { assert [tool.credential.value][..0] == []; }
  }

  lemma {:induction false} VaultNames(refs: seq<Value>)
    ensures forall name :: name in CredentialsIn(refs) <==> CredentialRef(name) in refs
  {
    if refs != [] {
      VaultNames(refs[..|refs| - 1]);
      assert forall v :: v in refs <==> v in refs[..|refs| - 1] || v == refs[|refs| - 1];
    }
  }

  /** A credential or vault is reported missing exactly when it is referred to and no id stands for it. */
  lemma MissingIdsAreTold(a: Agent, credentials: map<string, string>, vaults: map<string, string>)
    ensures forall name :: name in NotSupplied(ToolCredentials(a.tools), credentials) <==>
      IdFor(credentials, name) == None
      && exists i :: 0 <= i < |a.tools| && a.tools[i].credential == Some(CredentialRef(name))
    ensures forall name :: name in NotSupplied(Vaults(a), vaults) <==>
      && IdFor(vaults, name) == None
      && a.defaults != None && a.defaults.value.vaultIds != None
      && CredentialRef(name) in a.defaults.value.vaultIds.value
  {
    hide CredentialsIn, ToolCredentials;
    NotSuppliedMembers(ToolCredentials(a.tools), credentials);
    NotSuppliedMembers(Vaults(a), vaults);
    CredentialNames(a.tools);
    if a.defaults.Some? {
      VaultNames(OrEmpty(a.defaults.value.vaultIds));
    }
  }
}
