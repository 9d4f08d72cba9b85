/** The catalogue against the CLI: every row names a contract the CLI dispatches, and every
    contract the CLI dispatches has a row. */
module Dispatch {
  import opened Wrappers
  import opened Text
  import opened OpenApiSpec
  import opened ContractResolution
  import opened ServiceParser
  import opened Catalogue

  /** The generator and the CLI read this version text alike: the generator can read what it
      takes for digits, and takes for digits exactly the 32-bit ASCII numerals, which carry
      no plus sign. An `internal` resource is kept by neither, but is read by the generator. */
  predicate VersionMirrored(py: Python, entry: SpecEntry) {
    var parts := SplitAll(entry.raw.operationId, '/');
    Considered(entry) && |parts| == 5 ==>
      var digits := VersionDigits(parts[3]);
      && !(AllDigits(py, digits) && py.parseInt(digits).None?)
      && (parts[2] != "internal" ==>
            && !HoldsForeignDigit(py, digits)
            && !(IsNumeral(digits) && NumeralValue(digits) >= U32_BOUND)
            && !(digits != "" && digits[0] == '+' && IsNumeral(digits[1..]) && NumeralValue(digits[1..]) < U32_BOUND))
  }

  /** All digits to Python, and not all of them ASCII. */
  predicate HoldsForeignDigit(py: Python, text: string) {
    AllDigits(py, text) && exists c :: c in text && !IsDigit(c)
  }

  /** What the generator does with an entry is what the CLI's parser does. */
  predicate Mirrors(py: Python, entry: SpecEntry) {
    !Raises(py, entry) && Listed(py, entry) == ParseOperation(entry)
  }

  /** The generator mirrors the CLI's parser on an entry, without raising, if and only if the
      version text is one both read alike; they differ on nothing else. */
  lemma MirrorExactly(py: Python, entry: SpecEntry)
    requires Genuine(py)
    ensures Mirrors(py, entry) <==> VersionMirrored(py, entry)
  {
    hide SplitAll, NumeralValue, IsNumeral, AllDigits, HoldsForeignDigit, Genuine;
    var parts := SplitAll(entry.raw.operationId, '/');
    if |parts| == 5 {
      VersionReadings(py, VersionDigits(parts[3]));
    }
  }

  /** The two readings of a version text side by side. */
  lemma VersionReadings(py: Python, digits: string)
    requires Genuine(py)
    ensures IsNumeral(digits) ==> AllDigits(py, digits) && !HoldsForeignDigit(py, digits)
    ensures AllDigits(py, digits) && !HoldsForeignDigit(py, digits) ==> IsNumeral(digits)
    ensures IsNumeral(digits) ==> py.parseInt(digits).None? || py.parseInt(digits) == Some(NumeralValue(digits))
    ensures digits == "" ==> !AllDigits(py, digits) && !IsNumeral(digits)
    ensures digits != "" && digits[0] == '+' ==> !AllDigits(py, digits) && !IsNumeral(digits)
    ensures HoldsForeignDigit(py, digits) ==> AllDigits(py, digits) && !IsNumeral(digits)
  {
    if digits != "" && digits[0] == '+' {
      assert digits[0] in digits && !IsDigit('+') && !py.isDigit('+');
    }
  }

  /** A considered entry with these five segments, none of them `internal`. */
  predicate HasSegments(entry: SpecEntry, parts: seq<string>) {
    && |parts| == 5 && SlashFree(parts) && parts[2] != "internal"
    && !entry.raw.deprecated && entry.raw.operationId == Join(parts, '/')
  }

  lemma SegmentsAreRead(entry: SpecEntry, parts: seq<string>)
    requires HasSegments(entry, parts)
    ensures Considered(entry) && SplitAll(entry.raw.operationId, '/') == parts
  {
    SplitAllUnique(parts, '/');
    JoinIsNotEmpty(parts, '/');
  }

  /* One input per way of failing, over any service, scope, resource and method. */

  /** A digit of another script that `int` reads is listed and not dispatched; one it cannot
      read, such as a superscript, raises. */
  lemma ForeignDigitFails(py: Python, entry: SpecEntry, parts: seq<string>, c: char)
    requires HasSegments(entry, parts) && parts[3] == ['v', c] && py.isDigit(c) && c >= '\U{80}'
    ensures ParseOperation(entry).None?
    ensures if py.parseInt([c]).Some? then Listed(py, entry).Some? else Raises(py, entry)
  {
    hide SplitAll, Join, SlashFree, NumeralValue;
    SegmentsAreRead(entry, parts);
    assert parts[3][1..] == [c] && c in [c] && !IsDigit(c);
  }

  /** `v+` and a 32-bit numeral is dispatched and not listed. */
  lemma PlusSignFails(py: Python, entry: SpecEntry, parts: seq<string>, numeral: string)
    requires Genuine(py) && HasSegments(entry, parts) && parts[3] == ['v', '+'] + numeral
    requires IsNumeral(numeral) && NumeralValue(numeral) < U32_BOUND
    ensures Listed(py, entry).None? && !Raises(py, entry) && ParseOperation(entry).Some?
  {
    hide SplitAll, Join, SlashFree, NumeralValue, IsNumeral, AllDigits;
    SegmentsAreRead(entry, parts);
    var digits := parts[3][1..];
    assert digits[0] == '+' && digits[1..] == numeral;
    VersionReadings(py, digits);
  }

  lemma JoinIsNotEmpty(parts: seq<string>, separator: char)
    requires |parts| > 1
    ensures Join(parts, separator) != ""
  {
    assert separator in Join(parts, separator);
  }

  lemma MirroredNeverRaises(py: Python, paths: seq<PathItem>)
    requires Genuine(py) && (forall entry :: entry in Entries(paths) ==> VersionMirrored(py, entry))
    ensures NoneRaises(py, Entries(paths))
  {
    forall entry | entry in Entries(paths)
      ensures !Raises(py, entry)
    {
      MirrorExactly(py, entry);
    }
  }

  /* ---- The order in which the paths are visited does not matter. ---- */

  lemma {:induction false} PathEntryOf(item: PathItem, k: nat, entry: SpecEntry)
    requires k <= |METHODS|
    ensures entry in PathEntries(item, k) <==>
            exists i :: 0 <= i < k && METHODS[i] in item.operations
                        && entry == SpecEntry(item.path, METHODS[i], item.operations[METHODS[i]])
  {
    if k > 0 {
      PathEntryOf(item, k - 1, entry);
    }
  }

  lemma {:induction false} EntryOf(paths: seq<PathItem>, entry: SpecEntry)
    ensures entry in Entries(paths) <==> exists item :: item in paths && entry in PathEntries(item, |METHODS|)
    decreases |paths|
  {
    if paths != [] {
      var init, last := paths[..|paths| - 1], paths[|paths| - 1];
      EntryOf(init, entry);
      assert paths == init + [last];
      if entry in PathEntries(last, |METHODS|) {
        assert last in paths;
      }
    }
  }

  lemma SameEntries(paths: seq<PathItem>, order: seq<PathItem>, entry: SpecEntry)
    requires multiset(paths) == multiset(order)
    ensures entry in Entries(paths) <==> entry in Entries(order)
  {
    EntryOf(paths, entry);
    EntryOf(order, entry);
    assert forall item :: item in paths <==> item in multiset(paths);
    assert forall item :: item in order <==> item in multiset(order);
  }

  lemma KeptThere(here: seq<SpecEntry>, f: SpecEntry -> Option<Operation>, there: seq<SpecEntry>,
          g: SpecEntry -> Option<Operation>, operation: Operation)
    requires forall entry :: entry in here ==> entry in there && f(entry) == g(entry)
    ensures operation in Keep(here, f) ==> operation in Keep(there, g)
  {
    KeptOperations(here, f, operation);
    KeptOperations(there, g, operation);
    if operation in Keep(here, f) {
      var i :| 0 <= i < |here| && f(here[i]) == Some(operation);
      assert here[i] in here;
    }
  }

  /** In whatever order the CLI visits the paths, it parses exactly the operations listed. */
  lemma ParsedAreListed(py: Python, paths: seq<PathItem>, order: seq<PathItem>, operation: Operation)
    requires multiset(paths) == multiset(order)
    requires Genuine(py) && forall entry :: entry in Entries(paths) ==> VersionMirrored(py, entry)
    ensures operation in Parsed(order) <==> operation in Flatten(ParserContract(py, paths))
  {
    forall entry
      ensures entry in Entries(paths) <==> entry in Entries(order)
      ensures entry in Entries(paths) ==> Listed(py, entry) == ParseOperation(entry)
    {
      SameEntries(paths, order, entry);
      MirrorExactly(py, entry);
    }
    KeptThere(Entries(order), ParseOperation, Entries(paths), Lister(py), operation);
    KeptThere(Entries(paths), Lister(py), Entries(order), ParseOperation, operation);
    RowsAreKept(py, paths, operation);
  }

  lemma RowsAreKept(py: Python, paths: seq<PathItem>, operation: Operation)
    ensures operation in Flatten(ParserContract(py, paths)) <==> operation in Keep(Entries(paths), Lister(py))
  {
    var rows, listed := Flatten(ParserContract(py, paths)), Keep(Entries(paths), Lister(py));
    CatalogueConservesOperations(py, paths);
    assert operation in rows <==> operation in multiset(rows);
    assert operation in listed <==> operation in multiset(listed);
  }

  lemma ParsedVersionsFit(paths: seq<PathItem>)
    ensures Bounded(Parsed(paths)) && Bounded(KeepFirst(Parsed(paths)))
  {
    forall operation | operation in Parsed(paths)
      ensures operation.version < U32_BOUND
    {
      KeptOperations(Entries(paths), ParseOperation, operation);
    }
    KeptAreOperations(Parsed(paths));
  }

  /** Every catalogue row is a selectable contract: passing its scope and version resolves to
      the first operation the CLI visits under the row's resource, method, scope and version,
      which is the row's own operation when no other operation shares all four. */
  lemma EveryRowDispatches(py: Python, command: string, paths: seq<PathItem>, order: seq<PathItem>,
          operation: Operation)
    requires multiset(paths) == multiset(order)
    requires Genuine(py) && forall entry :: entry in Entries(paths) ==> VersionMirrored(py, entry)
    requires operation in Flatten(ParserContract(py, paths))
    ensures Bounded(KeepFirst(Parsed(order))) && operation.version < U32_BOUND
    ensures var resolved := Resolve(command, MethodFor(KeepFirst(Parsed(order)), operation.resource, operation.name),
                                    Some(operation.scope), Some(DisplayVersion(operation.version)));
            && resolved.Ok? && resolved.value.scope == operation.scope
            && resolved.value.apiVersion == operation.version
            && (Describes(resolved.value.operation, operation) <==>
                  FirstWithKey(Parsed(order), Key(operation)) == Some(operation))
            && ((forall other :: other in Parsed(order) && Key(other) == Key(operation) ==> other == operation) ==>
                  Describes(resolved.value.operation, operation))
  {
    ParsedVersionsFit(order);
    ParsedAreListed(py, paths, order, operation);
    SelectorsDispatch(command, Parsed(order), operation);
    FirstIsOne(Parsed(order), Key(operation));
  }

  /** Conversely, whatever a method resolves to, with or without selectors, has a row. */
  lemma {:induction false} EveryDispatchHasARow(py: Python, command: string, paths: seq<PathItem>,
          order: seq<PathItem>, resource: string, name: string, scope: Option<string>, version: Option<string>)
    requires multiset(paths) == multiset(order)
    requires Genuine(py) && forall entry :: entry in Entries(paths) ==> VersionMirrored(py, entry)
    ensures Bounded(KeepFirst(Parsed(order)))
    ensures var resolved := Resolve(command, MethodFor(KeepFirst(Parsed(order)), resource, name), scope, version);
            resolved.Ok? ==>
              exists row :: row in Flatten(ParserContract(py, paths))
                            && Key(row) == ContractKey(resource, name, resolved.value.scope, resolved.value.apiVersion)
                            && Describes(resolved.value.operation, row)
  {
    ParsedVersionsFit(order);
    OnlyParsedOperationsDispatch(command, Parsed(order), resource, name, scope, version);
    var resolved := Resolve(command, MethodFor(KeepFirst(Parsed(order)), resource, name), scope, version);
    if resolved.Ok? {
      var o :| o in Parsed(order)
               && Key(o) == ContractKey(resource, name, resolved.value.scope, resolved.value.apiVersion)
               && Describes(resolved.value.operation, o);
      ParsedAreListed(py, paths, order, o);
    }
  }
}
