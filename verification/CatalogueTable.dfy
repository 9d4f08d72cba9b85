/** The shape of the grouped catalogue, and its rendering as lines of Markdown. */
module CatalogueTable {
  import opened Sorting
  import opened OpenApiSpec
  import opened Catalogue

  /* ---- Shape of the grouped result. ---- */

  lemma {:induction false} InsertDistinct(groups: seq<Group>, group: Group)
    requires DistinctResources(groups) && !HasGroup(groups, group.resource)
    ensures DistinctResources(Insert(groups, group, GroupLe))
    decreases |groups|
  {
    if groups != [] && !GroupLe(groups[|groups| - 1], group) {
      var init, last := groups[..|groups| - 1], groups[|groups| - 1];
      assert !HasGroup(init, group.resource);
      InsertDistinct(init, group);
      InsertContents(init, group, GroupLe);
      var r := Insert(init, group, GroupLe);
      forall i | 0 <= i < |r|
        ensures r[i].resource != last.resource
      {
        assert r[i] in multiset(r);
        if r[i] == group {
          assert groups[|groups| - 1].resource == last.resource;
        } else {
          assert r[i] in init;
        }
      }
    }
  }

  lemma {:induction false} SortKeepsDistinct(groups: seq<Group>)
    requires DistinctResources(groups)
    ensures DistinctResources(StableSort(groups, GroupLe))
    decreases |groups|
  {
    if groups != [] {
      var init, last := groups[..|groups| - 1], groups[|groups| - 1];
      SortKeepsDistinct(init);
      OrdersAreTotal();
      StableSortSorts(init, GroupLe);
      var sorted := StableSort(init, GroupLe);
      forall i | 0 <= i < |sorted|
        ensures sorted[i].resource != last.resource
      {
        assert sorted[i] in multiset(sorted);
        assert sorted[i] in init;
      }
      InsertDistinct(sorted, last);
    }
  }

  /** Resources come strictly in order, each once; a group is never empty and holds exactly
      the kept operations of its resource, sorted by method, scope, version and path with ties
      in spec order; and every kept operation's resource has a group. */
  lemma CatalogueShape(py: Python, paths: seq<PathItem>)
    ensures var contract := ParserContract(py, paths);
            var operations := Keep(Entries(paths), Lister(py));
            && SortedBy(contract, GroupLe) && DistinctResources(contract)
            && (forall group :: group in contract ==>
                  && group.operations != []
                  && group.operations == StableSort(OfResource(operations, group.resource), OperationLe)
                  && SortedBy(group.operations, OperationLe))
            && (forall operation :: operation in operations ==> HasGroup(contract, operation.resource))
  {
    var operations := Keep(Entries(paths), Lister(py));
    var groups := GroupAll(operations);
    var each := SortEach(groups);
    var contract := ParserContract(py, paths);
    GroupAllGroups(operations);
    SortEachAt(groups);
    OrdersAreTotal();
    StableSortSorts(each, GroupLe);
    SortKeepsDistinct(each);
    forall group | group in contract
      ensures group.operations != []
              && group.operations == StableSort(OfResource(operations, group.resource), OperationLe)
              && SortedBy(group.operations, OperationLe)
    {
      assert group in multiset(contract);
      assert group in each;
      StableSortSorts(OfResource(operations, group.resource), OperationLe);
      assert multiset(group.operations) == multiset(OfResource(operations, group.resource));
      assert OfResource(operations, group.resource)[0] in multiset(group.operations);
    }
    forall operation | operation in operations
      ensures HasGroup(contract, operation.resource)
    {
      var i :| 0 <= i < |groups| && groups[i].resource == operation.resource;
      assert each[i] in multiset(each);
      assert each[i] in contract;
    }
  }

  /* ---- Rendering. ---- */

  datatype ServiceContract = ServiceContract(name: string, groups: seq<Group>)

  datatype Line =
    | Title | Blank | Preamble | TableHeader | TableRule
    | ServicesTotal(count: nat)
    | OperationsTotal(count: nat)
    | ServiceHeading(display: string)
    | SpecName(name: string)
    | ResourceCount(count: nat)
    | OperationCount(count: nat)
    | Row(resource: string, operation: Operation)

  function DisplayName(service: string): string {
    match service
    case "cloudsave" => "cloud-save"
    case "gametelemetry" => "game-telemetry"
    case "loginqueue" => "login-queue"
    case "match2" => "matchmaking"
    case "seasonpass" => "season-pass"
    case "sessionhistory" => "session-history"
    case _ => service
  }

  function CountOperations(groups: seq<Group>): nat
    decreases |groups|
  {
    if groups == [] then 0 else CountOperations(groups[..|groups| - 1]) + |groups[|groups| - 1].operations|
  }

  function CountAll(services: seq<ServiceContract>): nat
    decreases |services|
  {
    if services == [] then 0
    else CountAll(services[..|services| - 1]) + CountOperations(services[|services| - 1].groups)
  }

  predicate ServiceLe(a: ServiceContract, b: ServiceContract) {
    StringLe(a.name, b.name)
  }

  /** The rows in a rendering, top to bottom. */
  function Rows(lines: seq<Line>): seq<Line>
    decreases |lines|
  {
    if lines == [] then [] else
    Rows(lines[..|lines| - 1]) + (if lines[|lines| - 1].Row? then [lines[|lines| - 1]] else [])
  }

  function GroupRows(group: Group): seq<Line> {
    seq(|group.operations|, i requires 0 <= i < |group.operations| => Row(group.resource, group.operations[i]))
  }

  function AllRows(groups: seq<Group>): seq<Line>
    decreases |groups|
  {
    if groups == [] then [] else AllRows(groups[..|groups| - 1]) + GroupRows(groups[|groups| - 1])
  }

  function SectionHead(service: ServiceContract): seq<Line> {
    [ServiceHeading(DisplayName(service.name)), Blank, SpecName(service.name), ResourceCount(|service.groups|),
     OperationCount(CountOperations(service.groups)), Blank, TableHeader, TableRule]
  }

  function Section(service: ServiceContract): seq<Line> {
    SectionHead(service) + AllRows(StableSort(service.groups, GroupLe)) + [Blank]
  }

  function Sections(services: seq<ServiceContract>): seq<Line>
    decreases |services|
  {
    if services == [] then [] else Sections(services[..|services| - 1]) + Section(services[|services| - 1])
  }

  function Head(services: seq<ServiceContract>): seq<Line> {
    [Title, Blank, Preamble, Blank, Preamble, Blank,
     ServicesTotal(|services|), OperationsTotal(CountAll(services)), Blank]
  }

  function Rendered(services: seq<ServiceContract>): seq<Line> {
    Head(services) + Sections(StableSort(services, ServiceLe))
  }

  method RenderCatalogue(services: seq<ServiceContract>) returns (lines: seq<Line>)
    ensures lines == Rendered(services)
  {
    hide StableSort, ServiceLe, Section, CountAll;
    lines := [Title, Blank, Preamble, Blank, Preamble, Blank];
    lines := lines + [ServicesTotal(|services|)];
    lines := lines + [OperationsTotal(CountAll(services)), Blank];
    ghost var head := lines;
    var ordered := StableSort(services, ServiceLe);
    var i := 0;
    while i < |ordered|
      invariant 0 <= i <= |ordered| && lines == head + Sections(ordered[..i])
    {
      assert ordered[..i + 1][..i] == ordered[..i];
      var section := RenderSection(ordered[i]);
      lines := lines + section;
      i := i + 1;
    }
    assert ordered[..i] == ordered;
  }

  method RenderSection(service: ServiceContract) returns (lines: seq<Line>)
    ensures lines == Section(service)
  {
    lines := SectionHead(service);
    var groups := StableSort(service.groups, GroupLe);
    var i := 0;
    while i < |groups|
      invariant 0 <= i <= |groups| && lines == SectionHead(service) + AllRows(groups[..i])
    {
      assert groups[..i + 1][..i] == groups[..i];
      ghost var before := lines;
      var k := 0;
      while k < |groups[i].operations|
        invariant 0 <= k <= |groups[i].operations| && lines == before + GroupRows(groups[i])[..k]
      {
        lines := lines + [Row(groups[i].resource, groups[i].operations[k])];
        k := k + 1;
      }
      assert GroupRows(groups[i])[..k] == GroupRows(groups[i]);
      i := i + 1;
    }
    assert groups[..i] == groups;
    lines := lines + [Blank];
  }

  /* ---- Totals. ---- */

  lemma {:induction false} RowsConcat(a: seq<Line>, b: seq<Line>)
    ensures Rows(a + b) == Rows(a) + Rows(b)
    decreases |b|
  {
    if b == [] {
      assert a + b == a;
    } else {
      assert (a + b)[..|a + b| - 1] == a + b[..|b| - 1];
      RowsConcat(a, b[..|b| - 1]);
    }
  }

  lemma {:induction false} NoRows(lines: seq<Line>)
    requires forall i :: 0 <= i < |lines| ==> !lines[i].Row?
    ensures Rows(lines) == []
    decreases |lines|
  {
    if lines != [] {
      NoRows(lines[..|lines| - 1]);
    }
  }

  lemma {:induction false} OnlyRows(lines: seq<Line>)
    requires forall i :: 0 <= i < |lines| ==> lines[i].Row?
    ensures Rows(lines) == lines
    decreases |lines|
  {
    if lines != [] {
      OnlyRows(lines[..|lines| - 1]);
      assert lines == lines[..|lines| - 1] + [lines[|lines| - 1]];
    }
  }

  lemma {:induction false} AllRowsAreRows(groups: seq<Group>)
    ensures |AllRows(groups)| == CountOperations(groups)
    ensures forall i :: 0 <= i < |AllRows(groups)| ==> AllRows(groups)[i].Row?
    decreases |groups|
  {
    if groups != [] {
      AllRowsAreRows(groups[..|groups| - 1]);
    }
  }

  lemma {:induction false} CountIsFlattened(groups: seq<Group>)
    ensures CountOperations(groups) == |Flatten(groups)|
    decreases |groups|
  {
    if groups != [] {
      var init, last := groups[..|groups| - 1], groups[|groups| - 1];
      CountIsFlattened(init);
      FlattenConcat(init, [last]);
      FlattenOne(last);
      assert groups == init + [last];
    }
  }

  lemma SortKeepsCount(groups: seq<Group>)
    ensures CountOperations(StableSort(groups, GroupLe)) == CountOperations(groups)
  {
    SortGroupsConserves(groups);
    CountIsFlattened(groups);
    CountIsFlattened(StableSort(groups, GroupLe));
    assert |multiset(Flatten(groups))| == |Flatten(groups)|;
  }

  /** Each section's own count is the number of rows in it. */
  lemma SectionCountIsItsRows(service: ServiceContract)
    ensures Rows(Section(service)) == AllRows(StableSort(service.groups, GroupLe))
    ensures |Section(service)| > 4 && Section(service)[4] == OperationCount(|Rows(Section(service))|)
  {
    hide StableSort, AllRows, GroupLe, CountOperations, DisplayName;
    var rows := AllRows(StableSort(service.groups, GroupLe));
    AllRowsAreRows(StableSort(service.groups, GroupLe));
    SortKeepsCount(service.groups);
    NoRows(SectionHead(service));
    NoRows([Blank]);
    OnlyRows(rows);
    RowsConcat(SectionHead(service), rows);
    RowsConcat(SectionHead(service) + rows, [Blank]);
  }

  lemma {:induction false} SectionsRowCount(services: seq<ServiceContract>)
    ensures |Rows(Sections(services))| == CountAll(services)
    decreases |services|
  {
    if services != [] {
      var init, last := services[..|services| - 1], services[|services| - 1];
      SectionsRowCount(init);
      SectionCountIsItsRows(last);
      AllRowsAreRows(StableSort(last.groups, GroupLe));
      SortKeepsCount(last.groups);
      RowsConcat(Sections(init), Section(last));
    }
  }

  lemma {:induction false} InsertKeepsCountAll(services: seq<ServiceContract>, service: ServiceContract)
    ensures CountAll(Insert(services, service, ServiceLe)) == CountAll(services) + CountOperations(service.groups)
    decreases |services|
  {
    if services == [] {
      assert [service][..0] == [];
    } else {
      var init, last := services[..|services| - 1], services[|services| - 1];
      if ServiceLe(last, service) {
        assert (services + [service])[..|services|] == services;
      } else {
        InsertKeepsCountAll(init, service);
        var r := Insert(init, service, ServiceLe);
        assert (r + [last])[..|r|] == r;
      }
    }
  }

  lemma {:induction false} SortKeepsCountAll(services: seq<ServiceContract>)
    ensures CountAll(StableSort(services, ServiceLe)) == CountAll(services)
    decreases |services|
  {
    if services != [] {
      SortKeepsCountAll(services[..|services| - 1]);
      InsertKeepsCountAll(StableSort(services[..|services| - 1], ServiceLe), services[|services| - 1]);
    }
  }

  /** The printed total is the number of table rows in the whole catalogue. */
  lemma PrintedTotalIsRowCount(services: seq<ServiceContract>)
    ensures Rendered(services)[7] == OperationsTotal(|Rows(Rendered(services))|)
  {
    var ordered := StableSort(services, ServiceLe);
    NoRows(Head(services));
    RowsConcat(Head(services), Sections(ordered));
    SectionsRowCount(ordered);
    SortKeepsCountAll(services);
  }

  /** And it is the only total printed. */
  lemma TotalIsPrintedOnce(services: seq<ServiceContract>, i: nat)
    requires i < |Rendered(services)| && Rendered(services)[i].OperationsTotal?
    ensures i == 7
  {
    NoTotalInSections(StableSort(services, ServiceLe));
  }

  lemma {:induction false} NoTotalInSections(services: seq<ServiceContract>)
    ensures forall i :: 0 <= i < |Sections(services)| ==> !Sections(services)[i].OperationsTotal?
    decreases |services|
  {
    hide StableSort, AllRows, GroupLe, CountOperations, DisplayName;
    if services != [] {
      NoTotalInSections(services[..|services| - 1]);
      AllRowsAreRows(StableSort(services[|services| - 1].groups, GroupLe));
    }
  }

  /** A service's section has exactly one row per operation its spec contributes. */
  lemma SectionRowsAreTheKeptOperations(py: Python, name: string, paths: seq<PathItem>)
    ensures |Rows(Section(ServiceContract(name, ParserContract(py, paths))))| == |Keep(Entries(paths), Lister(py))|
  {
    var service := ServiceContract(name, ParserContract(py, paths));
    SectionCountIsItsRows(service);
    AllRowsAreRows(StableSort(service.groups, GroupLe));
    SortKeepsCount(service.groups);
    CountIsFlattened(service.groups);
    CatalogueConservesOperations(py, paths);
    assert |multiset(Flatten(service.groups))| == |Flatten(service.groups)|;
    assert |multiset(Keep(Entries(paths), Lister(py)))| == |Keep(Entries(paths), Lister(py))|;
  }
}
