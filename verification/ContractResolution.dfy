/** Choosing one API contract from a method's matrix of scopes and versions. */
module ContractResolution {
  import opened Wrappers
  import opened Text
  import opened OpenApiSpec

  type ApiVersion = U32

  datatype OperationSchema = OperationSchema(
    id: string,
    name: string,
    httpMethod: HttpMethod,
    pathTemplate: string,
    scope: string,
    apiVersion: ApiVersion)

  datatype ScopeEntry = ScopeEntry(scope: string, defaultVersion: ApiVersion, contracts: seq<OperationSchema>)

  datatype MethodSchema = MethodSchema(defaultScope: Option<string>, scopes: seq<ScopeEntry>)

  datatype ResolvedContract = ResolvedContract(scope: string, apiVersion: ApiVersion, operation: OperationSchema)

  datatype ResolutionError =
    | MissingScope(command: string, scopes: seq<string>)
    | UnsupportedScope(command: string, requested: string, scopes: seq<string>)
    | UnsupportedVersion(command: string, scope: string, requested: string, versions: seq<ApiVersion>)

  function FindScope(scopes: seq<ScopeEntry>, name: string): Option<ScopeEntry> {
    if scopes == [] then None
    else if scopes[0].scope == name then Some(scopes[0])
    else FindScope(scopes[1..], name)
  }

  function FindContract(contracts: seq<OperationSchema>, version: ApiVersion): Option<OperationSchema> {
    if contracts == [] then None
    else if contracts[0].apiVersion == version then Some(contracts[0])
    else FindContract(contracts[1..], version)
  }

  function DisplayVersion(version: ApiVersion): string {
    "v" + Decimal(version)
  }

  /** One leading `v` or `V` may precede the number. */
  function ParseVersion(raw: string): Option<ApiVersion> {
    var trimmed := if raw != "" && (raw[0] == 'v' || raw[0] == 'V') then raw[1..] else raw;
    match ParseUnsigned(trimmed, U32_BOUND)
    case Some(n) => if n < U32_BOUND then Some(n) else None
    case None => None
  }

  /** `ApiVersion::from_str`: at most one leading `v`, then a 32-bit number. */
  function VersionFromStr(s: string): Option<ApiVersion> {
    match ParseUnsigned(if s != "" && s[0] == 'v' then s[1..] else s, U32_BOUND)
    case Some(n) => if n < U32_BOUND then Some(n) else None
    case None => None
  }

  function ScopeNames(schema: MethodSchema): seq<string> {
    seq(|schema.scopes|, i requires 0 <= i < |schema.scopes| => schema.scopes[i].scope)
  }

  function Versions(entry: ScopeEntry): seq<ApiVersion> {
    seq(|entry.contracts|, i requires 0 <= i < |entry.contracts| => entry.contracts[i].apiVersion)
  }

  function Resolve(command: string, schema: MethodSchema, explicitScope: Option<string>,
          explicitVersion: Option<string>): Result<ResolvedContract, ResolutionError>
  {
    var scopeName := if explicitScope.Some? then explicitScope else schema.defaultScope;
    if scopeName.None? then Err(MissingScope(command, ScopeNames(schema))) else
    match FindScope(schema.scopes, scopeName.value)
    case None => Err(UnsupportedScope(command, scopeName.value, ScopeNames(schema)))
    case Some(entry) =>
      var requested := if explicitVersion.Some? then explicitVersion.value else DisplayVersion(entry.defaultVersion);
      var unsupported := UnsupportedVersion(command, scopeName.value, requested, Versions(entry));
      var version := if explicitVersion.Some? then ParseVersion(explicitVersion.value) else Some(entry.defaultVersion);
      if version.None? then Err(unsupported) else
      match FindContract(entry.contracts, version.value)
      case None => Err(unsupported)
      case Some(operation) => Ok(ResolvedContract(scopeName.value, version.value, operation))
  }

  function DefaultOperation(schema: MethodSchema): Option<OperationSchema> {
    if schema.defaultScope.None? then None else
    match FindScope(schema.scopes, schema.defaultScope.value)
    case None => None
    case Some(entry) => FindContract(entry.contracts, entry.defaultVersion)
  }

  /* ---- Theorems. ---- */

  /** Every version prints to a text that parses back to it, over the whole 32-bit range. */
  lemma VersionRoundTrip(version: ApiVersion)
    ensures ParseVersion(DisplayVersion(version)) == Some(version)
  {
    assert DisplayVersion(version)[1..] == Decimal(version);
    DecimalRoundTrip(version, U32_BOUND);
  }

  /** `3`, `v3` and `V3` are one selector. */
  lemma VersionSpellingsAgree(digits: string)
    requires digits != "" && digits[0] != 'v' && digits[0] != 'V'
    ensures ParseVersion("v" + digits) == ParseVersion(digits) && ParseVersion("V" + digits) == ParseVersion(digits)
  {
    assert ("v" + digits)[1..] == digits && ("V" + digits)[1..] == digits;
  }

  lemma {:induction false} FoundScope(scopes: seq<ScopeEntry>, name: string)
    ensures FindScope(scopes, name).Some? <==> exists i :: 0 <= i < |scopes| && scopes[i].scope == name
    ensures FindScope(scopes, name).Some? ==>
              FindScope(scopes, name).value in scopes && FindScope(scopes, name).value.scope == name
  {
    if scopes != [] && scopes[0].scope != name {
      FoundScope(scopes[1..], name);
      if i :| 0 <= i < |scopes| && scopes[i].scope == name {
        assert scopes[1..][i - 1] == scopes[i];
      }
    }
  }

  lemma {:induction false} FoundContract(contracts: seq<OperationSchema>, version: ApiVersion)
    ensures var found := FindContract(contracts, version);
            && (found.Some? <==> exists i :: 0 <= i < |contracts| && contracts[i].apiVersion == version)
            && (found.Some? ==> found.value in contracts && found.value.apiVersion == version)
  {
    if contracts != [] && contracts[0].apiVersion != version {
      FoundContract(contracts[1..], version);
      if i :| 0 <= i < |contracts| && contracts[i].apiVersion == version {
        assert contracts[1..][i - 1] == contracts[i];
      }
    }
  }

  /** A resolved contract comes from the row of its scope and answers to its version. */
  lemma ResolvedFromRow(command: string, schema: MethodSchema, scope: Option<string>, version: Option<string>)
    ensures var resolved := Resolve(command, schema, scope, version);
            resolved.Ok? ==>
              && FindScope(schema.scopes, resolved.value.scope).Some?
              && FindContract(FindScope(schema.scopes, resolved.value.scope).value.contracts, resolved.value.apiVersion)
                 == Some(resolved.value.operation)
  {
    // Unfolding the definitions suffices.
  }

  /** A resolved contract is one of the method's own, under the scope and version it reports,
      and those are the ones asked for, the defaults where nothing was asked for. */
  lemma ResolvedContractIsListed(command: string, schema: MethodSchema, scope: Option<string>, version: Option<string>)
    ensures var resolved := Resolve(command, schema, scope, version);
            resolved.Ok? ==>
              && (exists entry :: entry in schema.scopes && entry.scope == resolved.value.scope
                                  && resolved.value.operation in entry.contracts)
              && resolved.value.operation.apiVersion == resolved.value.apiVersion
              && (scope.Some? ==> resolved.value.scope == scope.value)
              && (version.Some? ==> ParseVersion(version.value) == Some(resolved.value.apiVersion))
              && (scope.None? ==> Some(resolved.value.scope) == schema.defaultScope)
              && (var row := FindScope(schema.scopes, resolved.value.scope);
                  row.Some? && (version.None? ==> resolved.value.apiVersion == row.value.defaultVersion))
  {
    var resolved := Resolve(command, schema, scope, version);
    if resolved.Ok? {
      FoundScope(schema.scopes, resolved.value.scope);
      var entry := FindScope(schema.scopes, resolved.value.scope).value;
      FoundContract(entry.contracts, resolved.value.apiVersion);
      assert entry in schema.scopes;
    }
  }

  /** Resolution fails exactly when no scope is chosen, the chosen scope is not in the matrix,
      or its row has no contract of the chosen version (or that version does not parse). */
  lemma ResolveFailsExactly(command: string, schema: MethodSchema, scope: Option<string>, version: Option<string>)
    ensures var chosen := if scope.Some? then scope else schema.defaultScope;
            Resolve(command, schema, scope, version).Err? <==>
            || chosen.None?
            || (forall i :: 0 <= i < |schema.scopes| ==> schema.scopes[i].scope != chosen.value)
            || (var entry := FindScope(schema.scopes, chosen.value);
                entry.Some? &&
                var wanted := if version.Some? then ParseVersion(version.value) else Some(entry.value.defaultVersion);
                forall i :: 0 <= i < |entry.value.contracts| ==> Some(entry.value.contracts[i].apiVersion) != wanted)
  {
    var chosen := if scope.Some? then scope else schema.defaultScope;
    if chosen.Some? {
      FoundScope(schema.scopes, chosen.value);
      var entry := FindScope(schema.scopes, chosen.value);
      if entry.Some? {
        var wanted := if version.Some? then ParseVersion(version.value) else Some(entry.value.defaultVersion);
        if wanted.Some? {
          FoundContract(entry.value.contracts, wanted.value);
        }
      }
    }
  }

  /** Pinning is stable: whatever was resolved, passing its scope and printed version
      explicitly resolves to the same contract. */
  lemma PinningIsStable(command: string, schema: MethodSchema, scope: Option<string>, version: Option<string>)
    requires Resolve(command, schema, scope, version).Ok?
    ensures var resolved := Resolve(command, schema, scope, version);
            Resolve(command, schema, Some(resolved.value.scope), Some(DisplayVersion(resolved.value.apiVersion)))
            == resolved
  {
    VersionRoundTrip(Resolve(command, schema, scope, version).value.apiVersion);
  }

  /** With no selectors, resolution yields an operation exactly when it is the default one. */
  lemma NoSelectorsMeansDefault(command: string, schema: MethodSchema, operation: OperationSchema)
    ensures var resolved := Resolve(command, schema, None, None);
            (resolved.Ok? && resolved.value.operation == operation) <==> DefaultOperation(schema) == Some(operation)
  {
    var scope := schema.defaultScope;
    if scope.Some? && FindScope(schema.scopes, scope.value).Some? {
      var entry := FindScope(schema.scopes, scope.value).value;
      assert Resolve(command, schema, None, None).Ok? <==> FindContract(entry.contracts, entry.defaultVersion).Some?;
    }
  }
}
