/** The part of an OpenAPI specification both catalogue builders read, in the order they
    read it. */
module OpenApiSpec {
  import opened Wrappers

  datatype HttpMethod = Get | Post | Put | Patch | Delete

  const METHODS := [Get, Post, Put, Patch, Delete]

  /** `operationId` is the `x-operationId` value, empty when missing. */
  datatype RawOperation = RawOperation(deprecated: bool, operationId: string)

  datatype PathItem = PathItem(path: string, operations: map<HttpMethod, RawOperation>)

  datatype SpecEntry = SpecEntry(path: string, httpMethod: HttpMethod, raw: RawOperation)

  /** A kept operation: the segments of its id, and where it came from. */
  datatype Operation = Operation(
    resource: string,
    name: string,
    scope: string,
    version: nat,
    httpMethod: HttpMethod,
    path: string,
    id: string)

  /** The entries of one path under the first `k` HTTP methods. */
  function PathEntries(item: PathItem, k: nat): seq<SpecEntry>
    requires k <= |METHODS|
  {
    if k == 0 then [] else
    var m := METHODS[k - 1];
    PathEntries(item, k - 1) + (if m in item.operations then [SpecEntry(item.path, m, item.operations[m])] else [])
  }

  /** One more HTTP method of a path: its entry, if the path has it, goes last. */
  lemma EntriesStep(done: seq<SpecEntry>, item: PathItem, k: nat)
    requires k < |METHODS|
    ensures done + PathEntries(item, k + 1) ==
            if METHODS[k] in item.operations then
              (done + PathEntries(item, k)) + [SpecEntry(item.path, METHODS[k], item.operations[METHODS[k]])]
            else done + PathEntries(item, k)
  {
    assert PathEntries(item, k) + [] == PathEntries(item, k);
  }

  function Entries(paths: seq<PathItem>): seq<SpecEntry>
    decreases |paths|
  {
    if paths == [] then [] else Entries(paths[..|paths| - 1]) + PathEntries(paths[|paths| - 1], |METHODS|)
  }

  lemma {:induction false} ItemEntriesAreEntries(paths: seq<PathItem>, i: nat, k: nat, entry: SpecEntry)
    requires i < |paths| && k <= |METHODS| && entry in PathEntries(paths[i], k)
    ensures entry in Entries(paths)
    decreases |paths|
  {
    if i < |paths| - 1 {
      ItemEntriesAreEntries(paths[..|paths| - 1], i, k, entry);
    } else {
      PathEntriesGrow(paths[i], k, |METHODS|, entry);
    }
  }

  lemma {:induction false} PathEntriesGrow(item: PathItem, k: nat, n: nat, entry: SpecEntry)
    requires k <= n <= |METHODS| && entry in PathEntries(item, k)
    ensures entry in PathEntries(item, n)
  {
    if k < n {
      PathEntriesGrow(item, k, n - 1, entry);
    }
  }

  /** The operations `parse` keeps, in order. */
  function Keep(entries: seq<SpecEntry>, parse: SpecEntry -> Option<Operation>): seq<Operation>
    decreases |entries|
  {
    if entries == [] then [] else
    var last := parse(entries[|entries| - 1]);
    Keep(entries[..|entries| - 1], parse) + (if last.Some? then [last.value] else [])
  }

  lemma {:induction false} KeptOperations(entries: seq<SpecEntry>, parse: SpecEntry -> Option<Operation>,
          operation: Operation)
    ensures operation in Keep(entries, parse) <==>
            exists i :: 0 <= i < |entries| && parse(entries[i]) == Some(operation)
    decreases |entries|
  {
    if entries != [] {
      var init := entries[..|entries| - 1];
      KeptOperations(init, parse, operation);
      if i :| 0 <= i < |entries| && parse(entries[i]) == Some(operation) {
        assert i < |init| ==> init[i] == entries[i];
      }
    }
  }
}
