/** The command catalogue: operations grouped by resource, sorted, and rendered as a table. */
module Catalogue {
  import opened Wrappers
  import opened Text
  import opened Sorting
  import opened OpenApiSpec

  datatype OperationId = OperationId(service: string, scope: string, resource: string, version: nat, name: string)

  /** How Python reads numbers: `str.isdigit`, and `int` on a text of such digits (`None`
      when it raises). Which characters beyond ASCII are digits, which of those `int` can
      read, and how long a numeral it accepts depend on the interpreter. */
  datatype Python = Python(isDigit: char -> bool, parseInt: string -> Option<nat>)

  /** What every interpreter agrees on: the ASCII digits, and numerals written in them, of
      which at least the first 640 characters are always accepted. */
  ghost predicate Genuine(py: Python) {
    && (forall c :: c < '\U{80}' ==> (py.isDigit(c) <==> IsDigit(c)))
    && (forall s :: IsNumeral(s) ==> py.parseInt(s) == Some(NumeralValue(s)) || (|s| > 640 && py.parseInt(s) == None))
  }

  predicate AllDigits(py: Python, text: string) {
    text != "" && forall c :: c in text ==> py.isDigit(c)
  }

  /** A version segment without its one optional leading `v`. */
  function VersionDigits(segment: string): string {
    if segment != "" && segment[0] == 'v' then segment[1..] else segment
  }

  /** `Raising` is the exception of `int` on a digit it cannot read. */
  datatype IdReading = Malformed | Raising | Id(id: OperationId)

  /** `service/scope/resource/version/method`. */
  function SplitOperationId(py: Python, value: string): IdReading {
    var parts := SplitAll(value, '/');
    if |parts| != 5 || !AllDigits(py, VersionDigits(parts[3])) then Malformed else
    match py.parseInt(VersionDigits(parts[3]))
    case None => Raising
    case Some(version) => Id(OperationId(parts[0], parts[1], parts[2], version, parts[4]))
  }

  predicate SlashFree(parts: seq<string>) {
    forall part :: part in parts ==> '/' !in part
  }

  /** `value` is these five segments, none holding a slash, the fourth all digits after at
      most one `v`. */
  predicate FiveSegments(py: Python, value: string, parts: seq<string>) {
    && |parts| == 5 && SlashFree(parts) && value == Join(parts, '/')
    && AllDigits(py, VersionDigits(parts[3]))
  }

  /** An id is well-formed exactly when it is five slash-free segments with a readable
      version, which are then the ones read; an unreadable version raises. */
  lemma OperationIdExactly(py: Python, value: string, id: OperationId)
    ensures SplitOperationId(py, value) == Id(id) <==>
            exists version :: py.parseInt(VersionDigits(version)) == Some(id.version)
                              && FiveSegments(py, value, [id.service, id.scope, id.resource, version, id.name])
    ensures SplitOperationId(py, value).Raising? <==>
            exists parts :: FiveSegments(py, value, parts) && py.parseInt(VersionDigits(parts[3])).None?
  {
    var parts := SplitAll(value, '/');
    SplitAllJoins(value, '/');
    if SplitOperationId(py, value) == Id(id) {
      assert parts == [id.service, id.scope, id.resource, parts[3], id.name];
      assert FiveSegments(py, value, [id.service, id.scope, id.resource, parts[3], id.name]);
    }
    if version :| py.parseInt(VersionDigits(version)) == Some(id.version)
                  && FiveSegments(py, value, [id.service, id.scope, id.resource, version, id.name]) {
      SplitAllUnique([id.service, id.scope, id.resource, version, id.name], '/');
    }
    if SplitOperationId(py, value).Raising? {
      assert FiveSegments(py, value, parts);
    }
    if other :| FiveSegments(py, value, other) && py.parseInt(VersionDigits(other[3])).None? {
      SplitAllUnique(other, '/');
    }
  }

  /** An operation whose id is looked at: neither deprecated nor without an id. */
  predicate Considered(entry: SpecEntry) {
    !entry.raw.deprecated && entry.raw.operationId != ""
  }

  /** The generator keeps an operation that is not deprecated, has a well-formed id, and is
      not of the `internal` resource. */
  function Listed(py: Python, entry: SpecEntry): Option<Operation> {
    if !Considered(entry) then None else
    match SplitOperationId(py, entry.raw.operationId)
    case Id(id) =>
      if id.resource == "internal" then None
      else
        Some(Operation(id.resource, id.name, id.scope, id.version, entry.httpMethod, entry.path, entry.raw.operationId))
    case _ => None
  }

  /** The generator stops with an exception at this operation. */
  predicate Raises(py: Python, entry: SpecEntry) {
    Considered(entry) && SplitOperationId(py, entry.raw.operationId).Raising?
  }

  function Lister(py: Python): SpecEntry -> Option<Operation> {
    entry => Listed(py, entry)
  }

  /* ---- Grouping. ---- */

  /** One entry of an insertion-ordered dictionary of lists. */
  datatype Group = Group(resource: string, operations: seq<Operation>)

  function AddOperation(groups: seq<Group>, operation: Operation): seq<Group> {
    if groups == [] then [Group(operation.resource, [operation])]
    else if groups[0].resource == operation.resource then
      [Group(operation.resource, groups[0].operations + [operation])] + groups[1..]
    else [groups[0]] + AddOperation(groups[1..], operation)
  }

  function GroupAll(operations: seq<Operation>): seq<Group>
    decreases |operations|
  {
    if operations == [] then []
    else AddOperation(GroupAll(operations[..|operations| - 1]), operations[|operations| - 1])
  }

  predicate OperationLe(a: Operation, b: Operation) {
    if a.name != b.name then StringLe(a.name, b.name)
    else if a.scope != b.scope then StringLe(a.scope, b.scope)
    else if a.version != b.version then a.version <= b.version
    else StringLe(a.path, b.path)
  }

  predicate GroupLe(a: Group, b: Group) {
    StringLe(a.resource, b.resource)
  }

  function SortEach(groups: seq<Group>): seq<Group> {
    if groups == [] then []
    else [groups[0].(operations := StableSort(groups[0].operations, OperationLe))] + SortEach(groups[1..])
  }

  function ParserContract(py: Python, paths: seq<PathItem>): seq<Group> {
    StableSort(SortEach(GroupAll(Keep(Entries(paths), Lister(py)))), GroupLe)
  }

  lemma CollectStep(py: Python, before: seq<SpecEntry>, entry: SpecEntry)
    ensures var groups := GroupAll(Keep(before, Lister(py)));
            GroupAll(Keep(before + [entry], Lister(py))) ==
            if Listed(py, entry).Some? then AddOperation(groups, Listed(py, entry).value) else groups
  {
    hide Listed;
    var kept := Keep(before, Lister(py));
    assert (before + [entry])[..|before|] == before;
    if Listed(py, entry).Some? {
      assert (kept + [Listed(py, entry).value])[..|kept|] == kept;
    } else {
      assert kept + [] == kept;
    }
  }

  ghost predicate NoneRaises(py: Python, entries: seq<SpecEntry>) {
    forall entry :: entry in entries ==> !Raises(py, entry)
  }

  /** The loop over paths, then the sorts; or the first operation at which the generator raises. */
  method CollectParserContract(py: Python, paths: seq<PathItem>) returns (contract: Result<seq<Group>, SpecEntry>)
    ensures contract.Ok? ==> contract.value == ParserContract(py, paths) && NoneRaises(py, Entries(paths))
    ensures contract.Err? ==> contract.error in Entries(paths) && Raises(py, contract.error)
  {
    hide Raises;
    var byResource: seq<Group> := [];
    var i := 0;
    while i < |paths|
      invariant 0 <= i <= |paths|
      invariant byResource == GroupAll(Keep(Entries(paths[..i]), Lister(py)))
      invariant NoneRaises(py, Entries(paths[..i]))
    {
      var collected := CollectPath(py, Entries(paths[..i]), paths[i], byResource);
      if collected.Err? {
        ItemEntriesAreEntries(paths, i, |METHODS|, collected.error);
        return Err(collected.error);
      }
      byResource := collected.value;
      assert paths[..i + 1][..i] == paths[..i];
      i := i + 1;
    }
    assert paths[..i] == paths;
    contract := Ok(StableSort(SortEach(byResource), GroupLe));
  }

  /** The loop over the HTTP methods of one path. */
  method CollectPath(py: Python, ghost done: seq<SpecEntry>, item: PathItem, before: seq<Group>)
    returns (collected: Result<seq<Group>, SpecEntry>)
    requires before == GroupAll(Keep(done, Lister(py))) && NoneRaises(py, done)
    ensures var entries := done + PathEntries(item, |METHODS|);
            collected.Ok? ==> collected.value == GroupAll(Keep(entries, Lister(py))) && NoneRaises(py, entries)
    ensures collected.Err? ==> collected.error in PathEntries(item, |METHODS|) && Raises(py, collected.error)
  {
    hide Listed, Raises, Lister, Keep, GroupAll, AddOperation;
    var byResource := before;
    var k := 0;
    assert done + PathEntries(item, k) == done;
    while k < |METHODS|
      invariant 0 <= k <= |METHODS|
      invariant byResource == GroupAll(Keep(done + PathEntries(item, k), Lister(py)))
      invariant NoneRaises(py, done + PathEntries(item, k))
    {
      var httpMethod := METHODS[k];
      EntriesStep(done, item, k);
      if httpMethod in item.operations {
        var entry := SpecEntry(item.path, httpMethod, item.operations[httpMethod]);
        CollectStep(py, done + PathEntries(item, k), entry);
        if Raises(py, entry) {
          PathEntriesGrow(item, k + 1, |METHODS|, entry);
          return Err(entry);
        }
        var listed := Listed(py, entry);
        if listed.Some? {
          byResource := AddOperation(byResource, listed.value);
        }
      }
      k := k + 1;
    }
    collected := Ok(byResource);
  }

  /* ---- Orders. ---- */

  lemma StringsAreOrdered(a: string, b: string, c: string)
    ensures StringLe(a, b) || StringLe(b, a)
    ensures StringLe(a, b) && StringLe(b, c) ==> StringLe(a, c)
    ensures StringLe(a, b) && StringLe(b, a) ==> a == b
  {
    StringLeTotal(a, b);
    if StringLe(a, b) && StringLe(b, c) {
      StringLeTransitive(a, b, c);
    }
    if StringLe(a, b) && StringLe(b, a) {
      StringLeAntisymmetric(a, b);
    }
  }

  lemma OperationLeTransitive(a: Operation, b: Operation, c: Operation)
    requires OperationLe(a, b) && OperationLe(b, c)
    ensures OperationLe(a, c)
  {
    StringsAreOrdered(a.name, b.name, c.name);
    StringsAreOrdered(b.name, c.name, a.name);
    StringsAreOrdered(a.scope, b.scope, c.scope);
    StringsAreOrdered(b.scope, c.scope, a.scope);
    StringsAreOrdered(a.path, b.path, c.path);
  }

  lemma OrdersAreTotal()
    ensures TotalPreorder(OperationLe) && TotalPreorder(GroupLe)
  {
    forall a, b
      ensures OperationLe(a, b) || OperationLe(b, a)
    {
      StringsAreOrdered(a.name, b.name, a.name);
      StringsAreOrdered(a.scope, b.scope, a.scope);
      StringsAreOrdered(a.path, b.path, a.path);
    }
    forall a, b, c | OperationLe(a, b) && OperationLe(b, c)
      ensures OperationLe(a, c)
    {
      OperationLeTransitive(a, b, c);
    }
    forall a: Group, b: Group
      ensures GroupLe(a, b) || GroupLe(b, a)
    {
      StringsAreOrdered(a.resource, b.resource, a.resource);
    }
    forall a: Group, b: Group, c: Group | GroupLe(a, b) && GroupLe(b, c)
      ensures GroupLe(a, c)
    {
      StringsAreOrdered(a.resource, b.resource, c.resource);
    }
  }

  /* ---- Conservation. ---- */

  function Flatten(groups: seq<Group>): seq<Operation> {
    if groups == [] then [] else groups[0].operations + Flatten(groups[1..])
  }

  lemma {:induction false} FlattenConcat(a: seq<Group>, b: seq<Group>)
    ensures Flatten(a + b) == Flatten(a) + Flatten(b)
  {
    if a == [] {
      assert a + b == b;
    } else {
      assert (a + b)[1..] == a[1..] + b;
      FlattenConcat(a[1..], b);
    }
  }

  lemma FlattenOne(group: Group)
    ensures Flatten([group]) == group.operations
  {
    assert [group][1..] == [];
    assert group.operations + [] == group.operations;
  }

  lemma {:induction false} AddOperationConserves(groups: seq<Group>, operation: Operation)
    ensures multiset(Flatten(AddOperation(groups, operation))) == multiset(Flatten(groups)) + multiset{operation}
  {
    if groups == [] {
      FlattenOne(Group(operation.resource, [operation]));
    } else if groups[0].resource == operation.resource {
      var grown := Group(operation.resource, groups[0].operations + [operation]);
      assert ([grown] + groups[1..])[1..] == groups[1..];
    } else {
      AddOperationConserves(groups[1..], operation);
      assert ([groups[0]] + AddOperation(groups[1..], operation))[1..] == AddOperation(groups[1..], operation);
    }
  }

  lemma {:induction false} GroupAllConserves(operations: seq<Operation>)
    ensures multiset(Flatten(GroupAll(operations))) == multiset(operations)
    decreases |operations|
  {
    if operations != [] {
      var init, last := operations[..|operations| - 1], operations[|operations| - 1];
      GroupAllConserves(init);
      AddOperationConserves(GroupAll(init), last);
      assert operations == init + [last];
    }
  }

  lemma {:induction false} SortEachConserves(groups: seq<Group>)
    ensures multiset(Flatten(SortEach(groups))) == multiset(Flatten(groups))
  {
    if groups != [] {
      OrdersAreTotal();
      StableSortSorts(groups[0].operations, OperationLe);
      SortEachConserves(groups[1..]);
      assert SortEach(groups)[1..] == SortEach(groups[1..]);
    }
  }

  lemma FlattenSnoc(init: seq<Group>, last: Group)
    ensures multiset(Flatten(init + [last])) == multiset(Flatten(init)) + multiset(last.operations)
  {
    FlattenConcat(init, [last]);
    FlattenOne(last);
  }

  lemma {:induction false} InsertGroupConserves(groups: seq<Group>, group: Group)
    ensures multiset(Flatten(Insert(groups, group, GroupLe))) == multiset(Flatten(groups)) + multiset(group.operations)
    decreases |groups|
  {
    hide Flatten, GroupLe;
    if groups == [] {
      assert [] + [group] == [group];
      FlattenSnoc([], group);
    } else {
      var init, last := groups[..|groups| - 1], groups[|groups| - 1];
      assert groups == init + [last];
      if GroupLe(last, group) {
        FlattenSnoc(groups, group);
      } else {
        InsertGroupConserves(init, group);
        FlattenSnoc(Insert(init, group, GroupLe), last);
        FlattenSnoc(init, last);
      }
    }
  }

  lemma {:induction false} SortGroupsConserves(groups: seq<Group>)
    ensures multiset(Flatten(StableSort(groups, GroupLe))) == multiset(Flatten(groups))
    decreases |groups|
  {
    hide Flatten, GroupLe, Insert;
    if groups != [] {
      var init, last := groups[..|groups| - 1], groups[|groups| - 1];
      SortGroupsConserves(init);
      InsertGroupConserves(StableSort(init, GroupLe), last);
      FlattenSnoc(init, last);
      assert groups == init + [last];
    }
  }

  /** The grouped result flattens to a permutation of exactly the operations kept. */
  lemma CatalogueConservesOperations(py: Python, paths: seq<PathItem>)
    ensures multiset(Flatten(ParserContract(py, paths))) == multiset(Keep(Entries(paths), Lister(py)))
  {
    var operations := Keep(Entries(paths), Lister(py));
    GroupAllConserves(operations);
    SortEachConserves(GroupAll(operations));
    SortGroupsConserves(SortEach(GroupAll(operations)));
  }

  /* ---- Shape. ---- */

  function OfResource(operations: seq<Operation>, resource: string): seq<Operation>
    decreases |operations|
  {
    if operations == [] then [] else
    var last := operations[|operations| - 1];
    OfResource(operations[..|operations| - 1], resource) + (if last.resource == resource then [last] else [])
  }

  ghost predicate HasGroup(groups: seq<Group>, resource: string) {
    exists i :: 0 <= i < |groups| && groups[i].resource == resource
  }

  ghost predicate DistinctResources(groups: seq<Group>) {
    forall i, j :: 0 <= i < j < |groups| ==> groups[i].resource != groups[j].resource
  }

  /** Every group is non-empty and holds its resource's operations, in order. */
  ghost predicate HoldsItsResource(groups: seq<Group>, operations: seq<Operation>) {
    forall i :: 0 <= i < |groups| ==>
      groups[i].operations != [] && groups[i].operations == OfResource(operations, groups[i].resource)
  }

  ghost predicate Covers(groups: seq<Group>, operations: seq<Operation>) {
    forall operation :: operation in operations ==> HasGroup(groups, operation.resource)
  }

  ghost predicate Grouped(groups: seq<Group>, operations: seq<Operation>) {
    DistinctResources(groups) && HoldsItsResource(groups, operations) && Covers(groups, operations)
  }

  /** Where `AddOperation` puts an operation. */
  lemma {:induction false} AddOperationAt(groups: seq<Group>, operation: Operation)
    requires DistinctResources(groups)
    ensures var after := AddOperation(groups, operation);
            && |after| == |groups| + (if HasGroup(groups, operation.resource) then 0 else 1)
            && (forall i :: 0 <= i < |groups| ==> after[i].resource == groups[i].resource)
            && (forall i :: 0 <= i < |groups| ==>
                  after[i].operations ==
                  groups[i].operations + (if groups[i].resource == operation.resource then [operation] else []))
            && (|after| > |groups| ==> after[|groups|] == Group(operation.resource, [operation]))
  {
    if groups != [] && groups[0].resource != operation.resource {
      var rest := groups[1..];
      AddOperationAt(rest, operation);
      var after := AddOperation(groups, operation);
      assert forall i :: 0 < i < |groups| ==> groups[i] == rest[i - 1];
      assert forall i :: 0 < i < |after| ==> after[i] == AddOperation(rest, operation)[i - 1];
      if i :| 0 <= i < |groups| && groups[i].resource == operation.resource {
        assert rest[i - 1] == groups[i];
      }
    }
  }

  lemma {:induction false} NoneOfResource(operations: seq<Operation>, resource: string)
    requires forall i :: 0 <= i < |operations| ==> operations[i].resource != resource
    ensures OfResource(operations, resource) == []
    decreases |operations|
  {
    if operations != [] {
      NoneOfResource(operations[..|operations| - 1], resource);
    }
  }

  lemma OfResourceSnoc(init: seq<Operation>, last: Operation, resource: string)
    ensures OfResource(init + [last], resource) ==
            OfResource(init, resource) + (if last.resource == resource then [last] else [])
  {
    assert (init + [last])[..|init|] == init;
  }

  lemma AddedDistinct(before: seq<Group>, last: Operation)
    requires DistinctResources(before)
    ensures DistinctResources(AddOperation(before, last))
  {
    AddOperationAt(before, last);
  }

  lemma AddedContents(before: seq<Group>, init: seq<Operation>, last: Operation)
    requires Grouped(before, init)
    ensures HoldsItsResource(AddOperation(before, last), init + [last])
  {
    var after := AddOperation(before, last);
    AddOperationAt(before, last);
    forall i | 0 <= i < |after|
      ensures after[i].operations != [] && after[i].operations == OfResource(init + [last], after[i].resource)
    {
      OfResourceSnoc(init, last, after[i].resource);
      if i == |before| {
        assert forall k :: 0 <= k < |init| ==> init[k] in init;
        NoneOfResource(init, last.resource);
      }
    }
  }

  lemma AddedCovers(before: seq<Group>, init: seq<Operation>, last: Operation)
    requires DistinctResources(before) && Covers(before, init)
    ensures Covers(AddOperation(before, last), init + [last])
  {
    var after := AddOperation(before, last);
    AddOperationAt(before, last);
    forall operation | operation in init + [last]
      ensures HasGroup(after, operation.resource)
    {
      if HasGroup(before, operation.resource) {
        var i :| 0 <= i < |before| && before[i].resource == operation.resource;
        assert after[i].resource == operation.resource;
      } else {
        assert operation == last;
        assert after[|before|].resource == operation.resource;
      }
    }
  }

  lemma {:induction false} GroupAllGroups(operations: seq<Operation>)
    ensures Grouped(GroupAll(operations), operations)
    decreases |operations|
  {
    if operations != [] {
      var init, last := operations[..|operations| - 1], operations[|operations| - 1];
      GroupAllGroups(init);
      AddedDistinct(GroupAll(init), last);
      AddedContents(GroupAll(init), init, last);
      AddedCovers(GroupAll(init), init, last);
      assert operations == init + [last];
    }
  }

  lemma {:induction false} SortEachAt(groups: seq<Group>)
    ensures |SortEach(groups)| == |groups|
    ensures forall i :: 0 <= i < |groups| ==>
              SortEach(groups)[i] == Group(groups[i].resource, StableSort(groups[i].operations, OperationLe))
  {
    if groups != [] {
      SortEachAt(groups[1..]);
      assert forall i :: 0 < i < |groups| ==> groups[i] == groups[1..][i - 1];
      assert forall i :: 0 < i < |groups| ==> SortEach(groups)[i] == SortEach(groups[1..])[i - 1];
    }
  }
}
