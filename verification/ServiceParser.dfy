/** The CLI's own reading of a spec: one method per resource and name, its contracts arranged
    by scope and version for the resolver. */
module ServiceParser {
  import opened Wrappers
  import opened Text
  import opened Sorting
  import opened OpenApiSpec
  import opened ContractResolution

  function ParseOperation(entry: SpecEntry): Option<Operation> {
    var parts := SplitAll(entry.raw.operationId, '/');
    if entry.raw.deprecated || entry.raw.operationId == "" || |parts| != 5 || parts[2] == "internal" then None else
    match VersionFromStr(parts[3])
    case None => None
    case Some(version) =>
      Some(Operation(parts[2], parts[4], parts[1], version, entry.httpMethod, entry.path, entry.raw.operationId))
  }

  /** An entry is parsed into an operation exactly when it is the entry's own, under the
      segments of its id: five, slash-free, the fourth a readable version; not deprecated,
      not internal. */
  lemma ParsedExactly(entry: SpecEntry, o: Operation)
    ensures ParseOperation(entry) == Some(o) <==>
            && !entry.raw.deprecated && entry.raw.operationId != "" && o.resource != "internal"
            && o.httpMethod == entry.httpMethod && o.path == entry.path && o.id == entry.raw.operationId
            && exists service, version ::
                 && Segments(entry.raw.operationId, [service, o.scope, o.resource, version, o.name])
                 && VersionFromStr(version) == Some(o.version)
  {
    hide VersionFromStr, SplitAll, Join;
    var parts := SplitAll(entry.raw.operationId, '/');
    SplitAllJoins(entry.raw.operationId, '/');
    if ParseOperation(entry) == Some(o) {
      assert parts == [parts[0], o.scope, o.resource, parts[3], o.name];
      assert Segments(entry.raw.operationId, [parts[0], o.scope, o.resource, parts[3], o.name]);
    }
    if service, version :| Segments(entry.raw.operationId, [service, o.scope, o.resource, version, o.name])
                           && VersionFromStr(version) == Some(o.version) {
      SplitAllUnique([service, o.scope, o.resource, version, o.name], '/');
    }
  }

  predicate Segments(id: string, parts: seq<string>) {
    parts != [] && (forall part :: part in parts ==> '/' !in part) && id == Join(parts, '/')
  }

  /* ---- Accumulating: the first operation of a key wins. ---- */

  datatype ContractKey = ContractKey(resource: string, name: string, scope: string, version: nat)

  function Key(operation: Operation): ContractKey {
    ContractKey(operation.resource, operation.name, operation.scope, operation.version)
  }

  predicate HasKey(operations: seq<Operation>, key: ContractKey) {
    exists operation :: operation in operations && Key(operation) == key
  }

  function FirstWithKey(operations: seq<Operation>, key: ContractKey): Option<Operation>
    decreases |operations|
  {
    if operations == [] then None else
    var earlier := FirstWithKey(operations[..|operations| - 1], key);
    if earlier.Some? then earlier
    else if Key(operations[|operations| - 1]) == key then Some(operations[|operations| - 1])
    else None
  }

  function KeepFirst(operations: seq<Operation>): seq<Operation>
    decreases |operations|
  {
    if operations == [] then [] else
    var kept := KeepFirst(operations[..|operations| - 1]);
    if HasKey(kept, Key(operations[|operations| - 1])) then kept else kept + [operations[|operations| - 1]]
  }

  /** The operations of a spec in its iteration order, before duplicates are dropped. */
  function Parsed(paths: seq<PathItem>): seq<Operation> {
    Keep(Entries(paths), ParseOperation)
  }

  function Accumulated(entries: seq<SpecEntry>): seq<Operation> {
    KeepFirst(Keep(entries, ParseOperation))
  }

  method Accumulate(paths: seq<PathItem>) returns (kept: seq<Operation>)
    ensures kept == KeepFirst(Parsed(paths))
  {
    kept := [];
    var i := 0;
    while i < |paths|
      invariant 0 <= i <= |paths|
      invariant kept == Accumulated(Entries(paths[..i]))
    {
      var k := 0;
      assert Entries(paths[..i]) + PathEntries(paths[i], k) == Entries(paths[..i]);
      while k < |METHODS|
        invariant 0 <= k <= |METHODS|
        invariant kept == Accumulated(Entries(paths[..i]) + PathEntries(paths[i], k))
      {
        EntriesStep(Entries(paths[..i]), paths[i], k);
        if METHODS[k] in paths[i].operations {
          var entry := SpecEntry(paths[i].path, METHODS[k], paths[i].operations[METHODS[k]]);
          AccumulateStep(Entries(paths[..i]) + PathEntries(paths[i], k), entry);
          var parsed := ParseOperation(entry);
          if parsed.Some? && !HasKey(kept, Key(parsed.value)) {
            kept := kept + [parsed.value];
          }
        }
        k := k + 1;
      }
      assert paths[..i + 1][..i] == paths[..i];
      i := i + 1;
    }
    assert paths[..i] == paths;
  }

  lemma AccumulateStep(before: seq<SpecEntry>, entry: SpecEntry)
    ensures var kept := Accumulated(before);
            Accumulated(before + [entry]) ==
            match ParseOperation(entry)
            case None => kept
            case Some(operation) => if HasKey(kept, Key(operation)) then kept else kept + [operation]
  {
    var operations := Keep(before, ParseOperation);
    assert (before + [entry])[..|before|] == before;
    if ParseOperation(entry).Some? {
      assert (operations + [ParseOperation(entry).value])[..|operations|] == operations;
    } else {
      assert operations + [] == operations;
    }
  }

  /** Dropping later duplicates keeps, for each key, exactly the first operation with it. */
  lemma {:induction false} KeepFirstKeepsFirsts(operations: seq<Operation>, key: ContractKey)
    ensures HasKey(KeepFirst(operations), key) <==> FirstWithKey(operations, key).Some?
    ensures forall operation :: operation in KeepFirst(operations) && Key(operation) == key ==>
              FirstWithKey(operations, key) == Some(operation)
    decreases |operations|
  {
    if operations != [] {
      var init, last := operations[..|operations| - 1], operations[|operations| - 1];
      KeepFirstKeepsFirsts(init, key);
      var kept := KeepFirst(init);
      if !HasKey(kept, Key(last)) && Key(last) == key {
        assert last in KeepFirst(operations);
      } else if HasKey(kept, key) {
        var operation :| operation in kept && Key(operation) == key;
        assert operation in KeepFirst(operations);
      }
    }
  }

  lemma {:induction false} FirstIsOne(operations: seq<Operation>, key: ContractKey)
    ensures FirstWithKey(operations, key).Some? <==> HasKey(operations, key)
    ensures FirstWithKey(operations, key).Some? ==>
              FirstWithKey(operations, key).value in operations && Key(FirstWithKey(operations, key).value) == key
    decreases |operations|
  {
    if operations != [] {
      var init := operations[..|operations| - 1];
      FirstIsOne(init, key);
      assert operations == init + [operations[|operations| - 1]];
    }
  }

  /* ---- One method of the schema. ---- */

  predicate Bounded(operations: seq<Operation>) {
    forall operation :: operation in operations ==> operation.version < U32_BOUND
  }

  function ToSchema(operation: Operation): OperationSchema
    requires operation.version < U32_BOUND
  {
    OperationSchema(operation.id, operation.name, operation.httpMethod, operation.path, operation.scope,
                    operation.version)
  }

  /** The contract is this operation's, field by field. */
  predicate Describes(schema: OperationSchema, operation: Operation) {
    && schema.id == operation.id && schema.name == operation.name && schema.httpMethod == operation.httpMethod
    && schema.pathTemplate == operation.path && schema.scope == operation.scope
    && schema.apiVersion == operation.version
  }

  /** The operations of one method in one scope. */
  function InScope(kept: seq<Operation>, resource: string, name: string, scope: string): (r: seq<Operation>)
    ensures forall o :: o in r <==> o in kept && o.resource == resource && o.name == name && o.scope == scope
    decreases |kept|
  {
    if kept == [] then [] else
    var last := kept[|kept| - 1];
    InScope(kept[..|kept| - 1], resource, name, scope)
    + (if last.resource == resource && last.name == name && last.scope == scope then [last] else [])
  }

  /** The distinct scopes of one method. */
  function ScopesOf(kept: seq<Operation>, resource: string, name: string): (r: seq<string>)
    ensures forall s :: s in r <==> exists o :: o in kept && o.resource == resource && o.name == name && o.scope == s
    ensures forall i, j :: 0 <= i < j < |r| ==> r[i] != r[j]
    decreases |kept|
  {
    if kept == [] then [] else
    var init, last := kept[..|kept| - 1], kept[|kept| - 1];
    var earlier := ScopesOf(init, resource, name);
    assert kept == init + [last];
    if last.resource == resource && last.name == name && last.scope !in earlier then earlier + [last.scope] else earlier
  }

  predicate VersionLe(a: Operation, b: Operation) { a.version <= b.version }

  function Schemas(operations: seq<Operation>): (r: seq<OperationSchema>)
    requires Bounded(operations)
    ensures |r| == |operations| && forall i :: 0 <= i < |r| ==> r[i] == ToSchema(operations[i])
  {
    seq(|operations|, i requires 0 <= i < |operations| => assert operations[i] in operations; ToSchema(operations[i]))
  }

  function MaxVersion(operations: seq<Operation>): (r: nat)
    ensures operations != [] ==> exists o :: o in operations && o.version == r
    ensures forall o :: o in operations ==> o.version <= r
    decreases |operations|
  {
    if operations == [] then 0 else
    var init, last := operations[..|operations| - 1], operations[|operations| - 1];
    assert operations == init + [last];
    if init != [] && MaxVersion(init) > last.version then MaxVersion(init) else last.version
  }

  function EntryFor(kept: seq<Operation>, resource: string, name: string, scope: string): ScopeEntry
    requires Bounded(kept)
  {
    var contracts := StableSort(InScope(kept, resource, name, scope), VersionLe);
    SortedMembers(InScope(kept, resource, name, scope));
    ScopeEntry(scope, MaxVersion(contracts), Schemas(contracts))
  }

  lemma SortedMembers(operations: seq<Operation>)
    ensures forall o :: o in StableSort(operations, VersionLe) <==> o in operations
  {
    StableSortSorts(operations, VersionLe);
    assert forall o :: o in StableSort(operations, VersionLe) <==> o in multiset(StableSort(operations, VersionLe));
  }

  function EntriesFor(kept: seq<Operation>, resource: string, name: string, scopes: seq<string>):
      (rows: seq<ScopeEntry>)
    requires Bounded(kept)
    ensures |rows| == |scopes|
    ensures forall i :: 0 <= i < |rows| ==> rows[i] == EntryFor(kept, resource, name, scopes[i])
  {
    seq(|scopes|, i requires 0 <= i < |scopes| => EntryFor(kept, resource, name, scopes[i]))
  }

  /** The method's schema: scopes in order, `admin` the default scope, else a sole scope. */
  function MethodFor(kept: seq<Operation>, resource: string, name: string): MethodSchema
    requires Bounded(kept)
  {
    var scopes := StableSort(ScopesOf(kept, resource, name), StringLe);
    var defaultScope := if "admin" in scopes then Some("admin") else if |scopes| == 1 then Some(scopes[0]) else None;
    MethodSchema(defaultScope, EntriesFor(kept, resource, name, scopes))
  }

  /* ---- Theorems. ---- */

  /** A row is found for exactly the listed scopes. */
  lemma FindEntry(kept: seq<Operation>, resource: string, name: string, scopes: seq<string>, scope: string)
    requires Bounded(kept)
    ensures FindScope(EntriesFor(kept, resource, name, scopes), scope) ==
            if scope in scopes then Some(EntryFor(kept, resource, name, scope)) else None
  {
    var rows := EntriesFor(kept, resource, name, scopes);
    FoundScope(rows, scope);
    assert forall i :: 0 <= i < |rows| ==> rows[i].scope == scopes[i];
    var found := FindScope(rows, scope);
    if found.Some? {
      var i :| 0 <= i < |rows| && rows[i] == found.value;
      assert scopes[i] == scope;
    }
  }

  lemma StringLeIsTotal()
    ensures TotalPreorder(StringLe)
  {
    forall a, b
      ensures StringLe(a, b) || StringLe(b, a)
    {
      StringLeTotal(a, b);
    }
    forall a, b, c | StringLe(a, b) && StringLe(b, c)
      ensures StringLe(a, c)
    {
      StringLeTransitive(a, b, c);
    }
  }

  /** A method has a row for exactly the scopes its operations have. */
  lemma FindMethodScope(kept: seq<Operation>, resource: string, name: string, scope: string)
    requires Bounded(kept)
    ensures FindScope(MethodFor(kept, resource, name).scopes, scope) ==
            if scope in ScopesOf(kept, resource, name) then Some(EntryFor(kept, resource, name, scope)) else None
  {
    SortedScopes(ScopesOf(kept, resource, name));
    FindEntry(kept, resource, name, StableSort(ScopesOf(kept, resource, name), StringLe), scope);
  }

  lemma SortedScopes(names: seq<string>)
    ensures |StableSort(names, StringLe)| == |names|
    ensures forall s :: s in StableSort(names, StringLe) <==> s in names
  {
    StringLeIsTotal();
    StableSortSorts(names, StringLe);
    var scopes := StableSort(names, StringLe);
    assert forall s :: s in scopes <==> s in multiset(scopes);
    assert |multiset(scopes)| == |scopes| && |multiset(names)| == |names|;
  }

  /** Within a scope, a version selects an operation that has it. */
  lemma FindVersion(kept: seq<Operation>, resource: string, name: string, scope: string, version: ApiVersion)
    requires Bounded(kept)
    ensures var found := FindContract(EntryFor(kept, resource, name, scope).contracts, version);
            && (found.Some? <==> HasKey(kept, ContractKey(resource, name, scope, version)))
            && (found.Some? ==> exists o :: o in kept && Key(o) == ContractKey(resource, name, scope, version)
                                            && found.value == ToSchema(o))
  {
    hide StableSort, InScope, MaxVersion, FindContract;
    var key := ContractKey(resource, name, scope, version);
    var here := InScope(kept, resource, name, scope);
    var sorted := StableSort(here, VersionLe);
    SortedMembers(here);
    var contracts := EntryFor(kept, resource, name, scope).contracts;
    assert contracts == Schemas(sorted);
    FoundContract(contracts, version);
    if HasKey(kept, key) {
      var o :| o in kept && Key(o) == key;
      assert o in sorted;
      var i :| 0 <= i < |sorted| && sorted[i] == o;
      assert contracts[i].apiVersion == version;
    }
    var found := FindContract(contracts, version);
    if found.Some? {
      var i :| 0 <= i < |contracts| && contracts[i] == found.value;
      assert sorted[i] in here;
      assert Key(sorted[i]) == key;
    }
  }

  /** Selecting an operation's own scope and version, in either spelling of the printed form,
      dispatches the first operation parsed under its key. */
  lemma SelectorsDispatch(command: string, operations: seq<Operation>, operation: Operation)
    requires Bounded(operations) && operation in operations
    ensures Bounded(KeepFirst(operations)) && FirstWithKey(operations, Key(operation)).Some?
    ensures var resolved := Resolve(command, MethodFor(KeepFirst(operations), operation.resource, operation.name),
                                    Some(operation.scope), Some(DisplayVersion(operation.version)));
            && resolved.Ok? && resolved.value.scope == operation.scope
            && resolved.value.apiVersion == operation.version
            && Describes(resolved.value.operation, FirstWithKey(operations, Key(operation)).value)
  {
    hide MethodFor, EntryFor, StableSort, InScope, ScopesOf;
    KeptAreOperations(operations);
    var kept := KeepFirst(operations);
    FirstIsOne(operations, Key(operation));
    KeepFirstKeepsFirsts(operations, Key(operation));
    VersionRoundTrip(operation.version);
    FindMethodScope(kept, operation.resource, operation.name, operation.scope);
    FindVersion(kept, operation.resource, operation.name, operation.scope, operation.version);
  }

  lemma {:induction false} KeptAreOperations(operations: seq<Operation>)
    ensures forall o :: o in KeepFirst(operations) ==> o in operations
    decreases |operations|
  {
    if operations != [] {
      KeptAreOperations(operations[..|operations| - 1]);
    }
  }

  /** Whatever resolves is an operation parsed for that method, under the reported scope and version. */
  lemma {:induction false} OnlyParsedOperationsDispatch(command: string, operations: seq<Operation>, resource: string,
          name: string, scope: Option<string>, version: Option<string>)
    requires Bounded(operations) && Bounded(KeepFirst(operations))
    ensures var resolved := Resolve(command, MethodFor(KeepFirst(operations), resource, name), scope, version);
            resolved.Ok? ==>
              exists o :: o in operations
                          && Key(o) == ContractKey(resource, name, resolved.value.scope, resolved.value.apiVersion)
                          && Describes(resolved.value.operation, o)
  {
    var kept := KeepFirst(operations);
    var schema := MethodFor(kept, resource, name);
    ResolvedFromRow(command, schema, scope, version);
    KeptAreOperations(operations);
    var resolved := Resolve(command, schema, scope, version);
    if resolved.Ok? {
      RowDispatchesParsed(kept, resource, name, resolved.value.scope, resolved.value.apiVersion);
    }
  }

  lemma RowDispatchesParsed(kept: seq<Operation>, resource: string, name: string, scope: string, version: ApiVersion)
    requires Bounded(kept) && FindScope(MethodFor(kept, resource, name).scopes, scope).Some?
    ensures var row := FindScope(MethodFor(kept, resource, name).scopes, scope).value;
            var found := FindContract(row.contracts, version);
            found.Some? ==> exists o :: o in kept && Key(o) == ContractKey(resource, name, scope, version)
                                        && found.value == ToSchema(o)
  {
    FindMethodScope(kept, resource, name, scope);
    FindVersion(kept, resource, name, scope, version);
  }

  /** All operations of the method share a scope. */
  predicate OneScope(kept: seq<Operation>, resource: string, name: string) {
    forall a, b | a in kept && b in kept && Of(a, resource, name) && Of(b, resource, name) :: a.scope == b.scope
  }

  predicate Of(operation: Operation, resource: string, name: string) {
    operation.resource == resource && operation.name == name
  }

  /** Without selectors a method dispatches exactly when it has an `admin` scope or only one
      scope, and then at the highest version of that scope. */
  lemma DefaultDispatchesExactly(command: string, kept: seq<Operation>, resource: string, name: string)
    requires Bounded(kept)
    requires exists o :: o in kept && Of(o, resource, name)
    ensures var resolved := Resolve(command, MethodFor(kept, resource, name), None, None);
            && (resolved.Ok? <==>
                  || (exists o :: o in kept && Of(o, resource, name) && o.scope == "admin")
                  || OneScope(kept, resource, name))
            && (resolved.Ok? && (exists o :: o in kept && Of(o, resource, name) && o.scope == "admin") ==>
                  resolved.value.scope == "admin")
            && (resolved.Ok? ==> forall o :: o in kept && Of(o, resource, name) && o.scope == resolved.value.scope ==>
                                   o.version <= resolved.value.apiVersion)
  {
    hide EntryFor, EntriesFor, StableSort, MaxVersion, FindContract;
    var names := ScopesOf(kept, resource, name);
    SortedScopes(names);
    SoleScope(kept, resource, name);
    AdminScope(kept, resource, name);
    var scope := MethodFor(kept, resource, name).defaultScope;
    if scope.Some? {
      assert scope.value in names;
      DefaultVersionExists(kept, resource, name, scope.value);
    }
  }

  predicate ContractLe(a: OperationSchema, b: OperationSchema) { a.apiVersion <= b.apiVersion }

  lemma EntryIsInOrder(kept: seq<Operation>, resource: string, name: string, scope: string)
    requires Bounded(kept)
    ensures SortedBy(EntryFor(kept, resource, name, scope).contracts, ContractLe)
  {
    hide InScope, StableSort, MaxVersion;
    var here := InScope(kept, resource, name, scope);
    StableSortSorts(here, VersionLe);
    SortedMembers(here);
    SchemasKeepOrder(StableSort(here, VersionLe));
  }

  lemma SchemasKeepOrder(operations: seq<Operation>)
    requires Bounded(operations) && SortedBy(operations, VersionLe)
    ensures SortedBy(Schemas(operations), ContractLe)
  {
    var schemas := Schemas(operations);
    forall i, j | 0 <= i < j < |schemas|
      ensures ContractLe(schemas[i], schemas[j])
    {
      assert VersionLe(operations[i], operations[j]);
    }
  }

  /** A method's scopes come in order, and within one its contracts by version. */
  lemma MethodIsInOrder(kept: seq<Operation>, resource: string, name: string)
    requires Bounded(kept)
    ensures var rows := MethodFor(kept, resource, name).scopes;
            && (forall i, j :: 0 <= i < j < |rows| ==> StringLe(rows[i].scope, rows[j].scope))
            && forall row <- rows :: SortedBy(row.contracts, ContractLe)
  {
    hide ScopesOf, StableSort, InScope, MaxVersion, SortedBy, StringLe;
    StringLeIsTotal();
    StableSortSorts(ScopesOf(kept, resource, name), StringLe);
    var scopes := StableSort(ScopesOf(kept, resource, name), StringLe);
    var rows := MethodFor(kept, resource, name).scopes;
    RowsFollowScopes(kept, resource, name, scopes);
    forall i | 0 <= i < |rows|
      ensures SortedBy(rows[i].contracts, ContractLe)
    {
      EntryIsInOrder(kept, resource, name, scopes[i]);
    }
  }

  lemma RowsFollowScopes(kept: seq<Operation>, resource: string, name: string, scopes: seq<string>)
    requires Bounded(kept) && SortedBy(scopes, StringLe)
    ensures var rows := EntriesFor(kept, resource, name, scopes);
            forall i, j :: 0 <= i < j < |rows| ==> StringLe(rows[i].scope, rows[j].scope)
  {
    hide StringLe;
    var rows := EntriesFor(kept, resource, name, scopes);
    assert forall i :: 0 <= i < |rows| ==> rows[i].scope == scopes[i];
  }

  lemma AdminScope(kept: seq<Operation>, resource: string, name: string)
    ensures "admin" in ScopesOf(kept, resource, name) <==>
            exists o :: o in kept && Of(o, resource, name) && o.scope == "admin"
  {
    if "admin" in ScopesOf(kept, resource, name) {
      var o :| o in kept && o.resource == resource && o.name == name && o.scope == "admin";
      assert Of(o, resource, name);
    }
  }

  lemma SoleScope(kept: seq<Operation>, resource: string, name: string)
    requires exists o :: o in kept && Of(o, resource, name)
    ensures |ScopesOf(kept, resource, name)| == 1 <==> OneScope(kept, resource, name)
  {
    var names := ScopesOf(kept, resource, name);
    var o :| o in kept && Of(o, resource, name);
    assert o.scope in names;
    if |names| == 1 {
      forall a, b | a in kept && b in kept && Of(a, resource, name) && Of(b, resource, name)
        ensures a.scope == b.scope
      {
        assert a.scope in names && b.scope in names;
      }
    } else {
      assert names[0] in names && names[1] in names;
      var a :| a in kept && a.resource == resource && a.name == name && a.scope == names[0];
      var b :| b in kept && b.resource == resource && b.name == name && b.scope == names[1];
      assert Of(a, resource, name) && Of(b, resource, name) && a.scope != b.scope;
    }
  }

  lemma DefaultVersionExists(kept: seq<Operation>, resource: string, name: string, scope: string)
    requires Bounded(kept) && scope in ScopesOf(kept, resource, name)
    ensures var entry := EntryFor(kept, resource, name, scope);
            FindScope(MethodFor(kept, resource, name).scopes, scope) == Some(entry)
            && FindContract(entry.contracts, entry.defaultVersion).Some?
            && forall o :: o in InScope(kept, resource, name, scope) ==> o.version <= entry.defaultVersion
  {
    FindMethodScope(kept, resource, name, scope);
    var here := InScope(kept, resource, name, scope);
    var sorted := StableSort(here, VersionLe);
    SortedMembers(here);
    var o :| o in here;
    assert o in sorted;
    var top :| top in sorted && top.version == MaxVersion(sorted);
    assert top in here && Key(top) == ContractKey(resource, name, scope, top.version);
    FindVersion(kept, resource, name, scope, MaxVersion(sorted));
  }
}
