/** What the catalogue lists and in which order, read off the spec: every operation of every
    path once, in lexicographic order, one row each. */
module CatalogueMeaning {
  import opened Wrappers
  import opened Sorting
  import opened OpenApiSpec
  import opened Catalogue
  import opened CatalogueTable

  /* ---- Entries. ---- */

  /** The methods looked at by the first `k` rounds. */
  function FirstMethods(k: nat): set<HttpMethod>
    requires k <= |METHODS|
  {
    if k == 0 then {} else FirstMethods(k - 1) + {METHODS[k - 1]}
  }

  lemma EveryMethodIsLookedAt(m: HttpMethod)
    ensures m in FirstMethods(|METHODS|)
  {
    assert METHODS == [Get, Post, Put, Patch, Delete];
    assert FirstMethods(|METHODS|) == FirstMethods(3) + {METHODS[3]} + {METHODS[4]};
    assert FirstMethods(3) == FirstMethods(1) + {METHODS[1]} + {METHODS[2]};
  }

  /** The path has this operation, under this method. */
  predicate HasOperation(item: PathItem, entry: SpecEntry) {
    && entry.path == item.path && entry.httpMethod in item.operations
    && entry.raw == item.operations[entry.httpMethod]
  }

  lemma {:induction false} PathEntriesExactly(item: PathItem, k: nat, entry: SpecEntry)
    requires k <= |METHODS|
    ensures entry in PathEntries(item, k) <==> entry.httpMethod in FirstMethods(k) && HasOperation(item, entry)
  {
    if k > 0 {
      PathEntriesExactly(item, k - 1, entry);
    }
  }

  /** The entries of a spec are exactly the operations of its paths, of whichever method. */
  lemma {:induction false} EntriesExactly(paths: seq<PathItem>, entry: SpecEntry)
    ensures entry in Entries(paths) <==> exists i :: 0 <= i < |paths| && HasOperation(paths[i], entry)
    decreases |paths|
  {
    hide HasOperation, PathEntries, FirstMethods;
    if paths != [] {
      var init, last := paths[..|paths| - 1], paths[|paths| - 1];
      EntriesExactly(init, entry);
      PathEntriesExactly(last, |METHODS|, entry);
      EveryMethodIsLookedAt(entry.httpMethod);
      assert forall i :: 0 <= i < |init| ==> init[i] == paths[i];
    }
  }

  function OperationCountOf(paths: seq<PathItem>): nat {
    if paths == [] then 0 else |paths[0].operations| + OperationCountOf(paths[1..])
  }

  lemma MethodIsNew(k: nat)
    requires k < |METHODS|
    ensures METHODS[k] !in FirstMethods(k)
  {
    assert METHODS == [Get, Post, Put, Patch, Delete];
    assert FirstMethods(4) == FirstMethods(2) + {Put} + {Patch};
    assert FirstMethods(2) == {Get, Post};
  }

  lemma {:induction false} PathEntryCount(item: PathItem, k: nat)
    requires k <= |METHODS|
    ensures |PathEntries(item, k)| == |item.operations.Keys * FirstMethods(k)|
  {
    if k > 0 {
      PathEntryCount(item, k - 1);
      MethodIsNew(k - 1);
      var before, m := item.operations.Keys * FirstMethods(k - 1), METHODS[k - 1];
      assert item.operations.Keys * FirstMethods(k) == if m in item.operations then before + {m} else before;
    }
  }

  lemma {:induction false} OperationCountSnoc(paths: seq<PathItem>, item: PathItem)
    ensures OperationCountOf(paths + [item]) == OperationCountOf(paths) + |item.operations|
  {
    if paths == [] {
      assert paths + [item] == [item] && [item][1..] == [];
    } else {
      assert (paths + [item])[1..] == paths[1..] + [item];
      OperationCountSnoc(paths[1..], item);
    }
  }

  lemma AllPathEntries(item: PathItem)
    ensures |PathEntries(item, |METHODS|)| == |item.operations|
  {
    hide PathEntries, FirstMethods;
    PathEntryCount(item, |METHODS|);
    forall m: HttpMethod ensures m in FirstMethods(|METHODS|) {
      EveryMethodIsLookedAt(m);
    }
    assert item.operations.Keys * FirstMethods(|METHODS|) == item.operations.Keys;
  }

  /** And there are as many: no operation yields two entries. */
  lemma {:induction false} EntryCount(paths: seq<PathItem>)
    ensures |Entries(paths)| == OperationCountOf(paths)
    decreases |paths|
  {
    hide PathEntries, FirstMethods;
    if paths != [] {
      var init, last := paths[..|paths| - 1], paths[|paths| - 1];
      EntryCount(init);
      AllPathEntries(last);
      OperationCountSnoc(init, last);
      assert paths == init + [last];
    }
  }

  /** An operation is listed exactly when it is the entry's own, under the segments of its
      id: five, slash-free, the fourth a readable version; not deprecated, not internal. */
  lemma ListedExactly(py: Python, entry: SpecEntry, o: Operation)
    ensures Listed(py, entry) == Some(o) <==>
            && !entry.raw.deprecated && entry.raw.operationId != "" && o.resource != "internal"
            && o.httpMethod == entry.httpMethod && o.path == entry.path && o.id == entry.raw.operationId
            && exists service, version ::
                 && FiveSegments(py, entry.raw.operationId, [service, o.scope, o.resource, version, o.name])
                 && py.parseInt(VersionDigits(version)) == Some(o.version)
  {
    hide FiveSegments;
    var reading := SplitOperationId(py, entry.raw.operationId);
    if reading.Id? {
      OperationIdExactly(py, entry.raw.operationId, reading.id);
    }
    if service, version :| FiveSegments(py, entry.raw.operationId, [service, o.scope, o.resource, version, o.name])
                           && py.parseInt(VersionDigits(version)) == Some(o.version) {
      OperationIdExactly(py, entry.raw.operationId, OperationId(service, o.scope, o.resource, o.version, o.name));
    }
  }

  /** The version segment may carry one `v`. */
  lemma VersionMeans(py: Python, digits: string)
    requires AllDigits(py, digits) && Genuine(py)
    ensures VersionDigits("v" + digits) == digits && VersionDigits(digits) == digits
    ensures !AllDigits(py, VersionDigits("vv" + digits))
  {
    assert ("v" + digits)[1..] == digits;
    assert digits[0] in digits && !py.isDigit('v');
    assert ("vv" + digits)[1..][0] == 'v' && 'v' in ("vv" + digits)[1..];
  }

  /* ---- Order. ---- */

  /** Strictly before: a proper prefix, or smaller at the first difference. */
  predicate Before(a: string, b: string) {
    exists k :: 0 <= k <= |a| && k < |b| && a[..k] == b[..k] && (k == |a| || a[k] < b[k])
  }

  lemma BeforeOfTails(a: string, b: string)
    requires a != "" && b != "" && a[0] == b[0]
    ensures Before(a, b) <==> Before(a[1..], b[1..])
  {
    if k :| 0 <= k <= |a| && k < |b| && a[..k] == b[..k] && (k == |a| || a[k] < b[k]) {
      assert k > 0;
      assert a[1..][..k - 1] == a[..k][1..] && b[1..][..k - 1] == b[..k][1..];
    }
    if k :| 0 <= k <= |a[1..]| && k < |b[1..]| && a[1..][..k] == b[1..][..k]
            && (k == |a[1..]| || a[1..][k] < b[1..][k]) {
      assert a[..k + 1] == [a[0]] + a[1..][..k] && b[..k + 1] == [b[0]] + b[1..][..k];
    }
  }

  lemma BeforeAtOnce(a: string, b: string)
    requires a == "" || b == "" || a[0] != b[0]
    ensures Before(a, b) <==> b != "" && (a == "" || a[0] < b[0])
  {
    if b != "" {
      assert a[..0] == b[..0];
    }
    forall k | 0 < k <= |a| && k < |b| && a[0] != b[0]
      ensures a[..k] != b[..k]
    {
      assert a[..k][0] != b[..k][0];
    }
  }

  lemma {:induction false} StringLeMeans(a: string, b: string)
    ensures StringLe(a, b) <==> a == b || Before(a, b)
  {
    hide Before;
    if a != "" && b != "" && a[0] == b[0] {
      StringLeMeans(a[1..], b[1..]);
      BeforeOfTails(a, b);
      assert a == [a[0]] + a[1..] && b == [b[0]] + b[1..];
    } else {
      BeforeAtOnce(a, b);
    }
  }

  /** By method, then scope, then version, then path; equal in all four where none precedes. */
  predicate InOrder(a: Operation, b: Operation) {
    || Before(a.name, b.name)
    || (a.name == b.name && Before(a.scope, b.scope))
    || (a.name == b.name && a.scope == b.scope && a.version < b.version)
    || (a.name == b.name && a.scope == b.scope && a.version == b.version
        && (a.path == b.path || Before(a.path, b.path)))
  }

  lemma OperationLeMeans(a: Operation, b: Operation)
    ensures OperationLe(a, b) <==> InOrder(a, b)
  {
    hide StringLe, Before;
    StringLeMeans(a.name, b.name);
    StringLeMeans(a.scope, b.scope);
    StringLeMeans(a.path, b.path);
    BeforeIsStrict(a.name);
    BeforeIsStrict(a.scope);
  }

  lemma BeforeIsStrict(a: string)
    ensures !Before(a, a)
  {
  }

  /** Resources in strictly increasing order, and within one its operations in theirs. */
  lemma CatalogueIsInOrder(py: Python, paths: seq<PathItem>, i: nat, j: nat)
    requires i < j
    ensures var contract := ParserContract(py, paths);
            && (j < |contract| ==> Before(contract[i].resource, contract[j].resource))
            && forall group :: group in contract && j < |group.operations| ==>
                 InOrder(group.operations[i], group.operations[j])
  {
    hide ParserContract, InOrder;
    var contract := ParserContract(py, paths);
    CatalogueShape(py, paths);
    if j < |contract| {
      assert GroupLe(contract[i], contract[j]);
      StringLeMeans(contract[i].resource, contract[j].resource);
    }
    forall group | group in contract && j < |group.operations|
      ensures InOrder(group.operations[i], group.operations[j])
    {
      OperationLeMeans(group.operations[i], group.operations[j]);
    }
  }

  /* ---- Rows. ---- */

  lemma {:induction false} SortedIsUnchanged<T(!new)>(s: seq<T>, le: (T, T) -> bool)
    requires SortedBy(s, le)
    ensures StableSort(s, le) == s
    decreases |s|
  {
    if s != [] {
      var init := s[..|s| - 1];
      SortedIsUnchanged(init, le);
      assert init == [] || le(init[|init| - 1], s[|s| - 1]);
      assert s == init + [s[|s| - 1]];
    }
  }

  /** The operations of a list of rows. */
  function OperationsIn(rows: seq<Line>): seq<Operation>
    requires forall row <- rows :: row.Row?
    decreases |rows|
  {
    if rows == [] then [] else OperationsIn(rows[..|rows| - 1]) + [rows[|rows| - 1].operation]
  }

  lemma {:induction false} OperationsInConcat(a: seq<Line>, b: seq<Line>)
    requires forall row <- a + b :: row.Row?
    ensures (forall row <- a :: row in a + b) && (forall row <- b :: row in a + b)
    ensures OperationsIn(a + b) == OperationsIn(a) + OperationsIn(b)
    decreases |b|
  {
    if b == [] {
      assert a + b == a;
    } else {
      assert (a + b)[..|a + b| - 1] == a + b[..|b| - 1];
      OperationsInConcat(a, b[..|b| - 1]);
    }
  }

  lemma {:induction false} OperationsInGroup(resource: string, operations: seq<Operation>)
    ensures var rows := GroupRows(Group(resource, operations));
            (forall row <- rows :: row.Row? && row.resource == resource) && OperationsIn(rows) == operations
    decreases |operations|
  {
    if operations != [] {
      var init := operations[..|operations| - 1];
      OperationsInGroup(resource, init);
      assert GroupRows(Group(resource, operations))[..|init|] == GroupRows(Group(resource, init));
      assert operations == init + [operations[|operations| - 1]];
    }
  }

  lemma AllRowsOfMore(init: seq<Group>, last: Group)
    ensures AllRows(init + [last]) == AllRows(init) + GroupRows(last)
    ensures Flatten(init + [last]) == Flatten(init) + last.operations
  {
    assert (init + [last])[..|init|] == init;
    FlattenConcat(init, [last]);
    FlattenOne(last);
  }

  /** Rows in the order of their groups ... */
  lemma {:induction false} RowsOfGroups(groups: seq<Group>)
    ensures forall row <- AllRows(groups) :: row.Row?
    ensures OperationsIn(AllRows(groups)) == Flatten(groups)
    decreases |groups|
  {
    hide GroupRows;
    if groups != [] {
      hide AllRows, Flatten, OperationsIn;
      var init, last := groups[..|groups| - 1], groups[|groups| - 1];
      RowsOfGroups(init);
      OperationsInGroup(last.resource, last.operations);
      assert last == Group(last.resource, last.operations);
      OperationsInConcat(AllRows(init), GroupRows(last));
      AllRowsOfMore(init, last);
      assert groups == init + [last];
    }
  }

  lemma RowOfGroup(group: Group, row: Line)
    requires row in GroupRows(group)
    ensures row.Row? && row.resource == group.resource && row.operation in group.operations
  {
  }

  lemma RowsNeedGroups(groups: seq<Group>, row: Line)
    requires row in AllRows(groups)
    ensures groups != []
  {
  }

  /** ... each under the resource of the group that holds its operation. */
  lemma {:induction false} RowsComeFromGroups(groups: seq<Group>, row: Line) returns (group: Group)
    requires row in AllRows(groups)
    ensures row.Row? && group in groups && row.resource == group.resource && row.operation in group.operations
    decreases |groups|
  {
    hide AllRows, Flatten, GroupRows;
    RowsNeedGroups(groups, row);
    var init, last := groups[..|groups| - 1], groups[|groups| - 1];
    AllRowsOfMore(init, last);
    assert groups == init + [last];
    if row in AllRows(init) {
      group := RowsComeFromGroups(init, row);
    } else {
      RowOfGroup(last, row);
      group := last;
    }
  }

  lemma {:induction false} OfResourceHasResource(operations: seq<Operation>, resource: string)
    ensures forall o <- OfResource(operations, resource) :: o.resource == resource
    decreases |operations|
  {
    if operations != [] {
      OfResourceHasResource(operations[..|operations| - 1], resource);
    }
  }

  lemma GroupHasItsResource(py: Python, paths: seq<PathItem>, group: Group, o: Operation)
    requires group in ParserContract(py, paths) && o in group.operations
    ensures o.resource == group.resource
  {
    hide ParserContract;
    CatalogueShape(py, paths);
    var mine := OfResource(Keep(Entries(paths), Lister(py)), group.resource);
    OrdersAreTotal();
    StableSortSorts(mine, OperationLe);
    OfResourceHasResource(Keep(Entries(paths), Lister(py)), group.resource);
    assert o in multiset(group.operations);
    assert o in mine;
  }

  /** The rows of a section are the operations of its spec, group by group, each listed under
      its own resource. */
  lemma SectionRowsAreTheContract(py: Python, name: string, paths: seq<PathItem>)
    ensures var rows := Rows(Section(ServiceContract(name, ParserContract(py, paths))));
            && (forall row <- rows :: row.Row? && row.resource == row.operation.resource)
            && OperationsIn(rows) == Flatten(ParserContract(py, paths))
  {
    hide ParserContract, Section;
    var contract := ParserContract(py, paths);
    CatalogueShape(py, paths);
    SectionCountIsItsRows(ServiceContract(name, contract));
    SortedIsUnchanged(contract, GroupLe);
    RowsOfGroups(contract);
    forall row | row in AllRows(contract)
      ensures row.resource == row.operation.resource
    {
      var group := RowsComeFromGroups(contract, row);
      GroupHasItsResource(py, paths, group, row.operation);
    }
  }

  /* ---- Sections. ---- */

  /** The six services shown under another name, and no others. */
  lemma DisplayNames(service: string)
    ensures DisplayName(service) == service <==>
            service !in {"cloudsave", "gametelemetry", "loginqueue", "match2", "seasonpass", "sessionhistory"}
    ensures DisplayName("cloudsave") == "cloud-save" && DisplayName("gametelemetry") == "game-telemetry"
    ensures DisplayName("loginqueue") == "login-queue" && DisplayName("match2") == "matchmaking"
    ensures DisplayName("seasonpass") == "season-pass" && DisplayName("sessionhistory") == "session-history"
  {
    assert |"cloud-save"| == 10 && |"cloudsave"| == 9 && |"game-telemetry"| == 14 && |"gametelemetry"| == 13;
    assert |"login-queue"| == 11 && |"loginqueue"| == 10 && |"matchmaking"| == 11 && |"match2"| == 6;
    assert |"season-pass"| == 11 && |"seasonpass"| == 10 && |"session-history"| == 15 && |"sessionhistory"| == 14;
  }

  /** A section announces its service and how many resources it has. */
  lemma SectionAnnounces(service: ServiceContract)
    ensures var lines := Section(service);
            && |lines| > 8 && lines[0] == ServiceHeading(DisplayName(service.name))
            && lines[2] == SpecName(service.name) && lines[3] == ResourceCount(|service.groups|)
            && lines[|lines| - 1] == Blank
            && forall i :: 3 <= i < |lines| ==> !lines[i].SpecName?
  {
    hide StableSort, GroupLe, CountOperations, DisplayName, AllRows;
    AllRowsAreRows(StableSort(service.groups, GroupLe));
  }

  /** The service names in a rendering, top to bottom. */
  function SpecNames(lines: seq<Line>): seq<string>
    decreases |lines|
  {
    if lines == [] then [] else
    SpecNames(lines[..|lines| - 1]) + (if lines[|lines| - 1].SpecName? then [lines[|lines| - 1].name] else [])
  }

  lemma {:induction false} SpecNamesConcat(a: seq<Line>, b: seq<Line>)
    ensures SpecNames(a + b) == SpecNames(a) + SpecNames(b)
    decreases |b|
  {
    if b == [] {
      assert a + b == a;
    } else {
      assert (a + b)[..|a + b| - 1] == a + b[..|b| - 1];
      SpecNamesConcat(a, b[..|b| - 1]);
    }
  }

  lemma {:induction false} NoSpecNames(lines: seq<Line>)
    requires forall i :: 0 <= i < |lines| ==> !lines[i].SpecName?
    ensures SpecNames(lines) == []
    decreases |lines|
  {
    if lines != [] {
      NoSpecNames(lines[..|lines| - 1]);
    }
  }

  function NamesOf(services: seq<ServiceContract>): seq<string> {
    seq(|services|, i requires 0 <= i < |services| => services[i].name)
  }

  lemma NamesOfMore(init: seq<ServiceContract>, last: ServiceContract)
    ensures NamesOf(init + [last]) == NamesOf(init) + [last.name]
  {
  }

  lemma SectionNamesItself(service: ServiceContract)
    ensures SpecNames(Section(service)) == [service.name]
  {
    hide Section, DisplayName;
    SectionAnnounces(service);
    var lines := Section(service);
    var head, own, rest := lines[..2], [SpecName(service.name)], lines[3..];
    assert lines == head + own + rest;
    assert lines[1] == Blank by {
      assert SectionHead(service)[1] == Blank;
      SecondLineIsBlank(service);
    }
    NoSpecNames(head);
    NoSpecNames(rest);
    assert own[..0] == [];
    SpecNamesConcat(head, own);
    SpecNamesConcat(head + own, rest);
  }

  lemma SecondLineIsBlank(service: ServiceContract)
    ensures |Section(service)| > 1 && Section(service)[1] == Blank
  {
    hide StableSort, GroupLe, CountOperations, DisplayName, AllRows;
  }

  lemma {:induction false} SectionsNameServices(services: seq<ServiceContract>)
    ensures SpecNames(Sections(services)) == NamesOf(services)
    decreases |services|
  {
    hide Section, SpecNames;
    if services == [] {
      NoSpecNames([]);
    } else {
      var init, last := services[..|services| - 1], services[|services| - 1];
      SectionsNameServices(init);
      SectionNamesItself(last);
      SpecNamesConcat(Sections(init), Section(last));
      NamesOfMore(init, last);
      assert services == init + [last];
    }
  }

  lemma ServicesAreOrdered()
    ensures TotalPreorder(ServiceLe)
  {
    forall a: ServiceContract, b: ServiceContract
      ensures ServiceLe(a, b) || ServiceLe(b, a)
    {
      StringsAreOrdered(a.name, b.name, a.name);
    }
    forall a: ServiceContract, b: ServiceContract, c: ServiceContract | ServiceLe(a, b) && ServiceLe(b, c)
      ensures ServiceLe(a, c)
    {
      StringsAreOrdered(a.name, b.name, c.name);
    }
  }

  /** One section per service, in the order of their names, under a count of them all. */
  lemma SectionsAreInOrder(services: seq<ServiceContract>)
    ensures var names := SpecNames(Rendered(services));
            && Rendered(services)[6] == ServicesTotal(|services|) && |names| == |services|
            && (forall service <- services :: service.name in names)
            && forall i, j :: 0 <= i < j < |names| ==> names[i] == names[j] || Before(names[i], names[j])
  {
    hide StableSort, ServiceLe, Section, CountAll, Before;
    var ordered := StableSort(services, ServiceLe);
    ServicesAreOrdered();
    StableSortSorts(services, ServiceLe);
    SectionsNameServices(ordered);
    NoSpecNames(Head(services));
    SpecNamesConcat(Head(services), Sections(ordered));
    var names := SpecNames(Rendered(services));
    assert names == [] + NamesOf(ordered) == NamesOf(ordered);
    assert |multiset(ordered)| == |multiset(services)|;
    forall service | service in services
      ensures service.name in names
    {
      assert service in multiset(services) && service in ordered;
      var i :| 0 <= i < |ordered| && ordered[i] == service;
      assert names[i] == service.name;
    }
    forall i, j | 0 <= i < j < |names|
      ensures names[i] == names[j] || Before(names[i], names[j])
    {
      NamesAreOrdered(ordered, i, j);
    }
  }

  lemma NamesAreOrdered(ordered: seq<ServiceContract>, i: nat, j: nat)
    requires SortedBy(ordered, ServiceLe) && i < j < |ordered|
    ensures ordered[i].name == ordered[j].name || Before(ordered[i].name, ordered[j].name)
  {
    assert ServiceLe(ordered[i], ordered[j]);
    StringLeMeans(ordered[i].name, ordered[j].name);
  }
}
