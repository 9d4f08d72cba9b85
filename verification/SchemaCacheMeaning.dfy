/** What one call leaves on disk and in memory, and how it fails, read off the directory and
    the circumstances of the call. */
module SchemaCacheMeaning {
  import opened Wrappers
  import opened SchemaCache
  import opened SchemaCacheTheorems

  /* ---- Memory. ---- */

  /** Whatever a load answered is answered by every later load of that name, after any history,
      over any directory and through any faults, and such a load leaves the directory alone. */
  lemma AnswersAreRemembered(build: Build, s: State, name: string, first: Circumstances, history: seq<Op>,
          anything: Disk, c: Circumstances)
    requires Do(build, s, GetOrLoad(name, first)).1.Some?
    ensures var (next, answer) := Do(build, s, GetOrLoad(name, first));
            var later := Run(build, next, history).(disk := anything);
            && Do(build, later, GetOrLoad(name, c)) == (later, answer)
            && Do(build, later, GetOrLoadBundled(name)) == (later, answer)
  {
    hide LoadService;
    LoadedEntryNeverChanges(build, Do(build, s, GetOrLoad(name, first)).0, history, name);
  }

  /** A name not answered before is loaded as it would be without a memory. */
  lemma FirstLoadIsUncached(build: Build, s: State, name: string, c: Circumstances)
    requires name !in s.memory
    ensures var first, uncached := Do(build, s, GetOrLoad(name, c)), Do(build, s, LoadUncached(name, c));
            first.0.disk == uncached.0.disk && first.1 == uncached.1
    ensures var first := Do(build, s, GetOrLoadBundled(name));
            && first.0.disk == s.disk
            && first.1 ==
               if LoadBundled(build.specs, name).Ok? then Some(LoadBundled(build.specs, name).value) else None
  {
    var loaded := LoadService(build, s.disk, name, c).1;
  }

  /* ---- One file. ---- */

  /** A file of this version that can be read. */
  predicate Usable(version: string, disk: Disk, path: string, schema: Schema) {
    path in disk && disk[path] == File(Envelope(version, schema))
  }

  /** A file a read rejects: of another version, or damaged. */
  predicate Rejected(version: string, disk: Disk, path: string) {
    && path in disk && disk[path].File?
    && (disk[path].content.Corrupt? || disk[path].content.version != version)
  }

  predicate IsDirectory(disk: Disk, path: string) {
    path in disk && disk[path].Directory?
  }

  /** A read finds the usable files and nothing else, fails on broken media and directories,
      and removes rejected files, where it can, and nothing else. */
  lemma ReadFindsExactly(version: string, disk: Disk, path: string, reading: Reading, schema: Schema)
    ensures var (after, found) := ReadCache(version, disk, path, reading);
            && (found == Ok(Some(schema)) <==> reading.fault.NoFault? && Usable(version, disk, path, schema))
            && (found.Err? <==> reading.fault.Broken? || (reading.fault.NoFault? && IsDirectory(disk, path)))
            && (found.Err? ==> found.error.CacheUnreadable?)
            && after == if reading.fault.NoFault? && Rejected(version, disk, path) && reading.removable
                        then disk - {path} else disk
  {
  }

  /* ---- One load. ---- */

  /** How a load fails: an unknown name, an unreadable cache, or no usable bundled spec. */
  lemma LoadFailsWith(build: Build, disk: Disk, name: string, c: Circumstances)
    requires LoadService(build, disk, name, c).1.Err?
    ensures var error, id := LoadService(build, disk, name, c).1.error, FindId(build.services, name);
            if id.None? then error.UnknownService?
            else if c.first.fault.Broken? || (c.first.fault.NoFault? && IsDirectory(disk, CachePath(id.value))) then
              error.CacheUnreadable?
            else error.NoBundledSpec?
  {
    NoBundledSpecIsTheOnlyError(build.specs, name);
  }

  lemma {:induction false} NoBundledSpecIsTheOnlyError(specs: seq<BundledSpec>, name: string)
    ensures LoadBundled(specs, name).Err? ==> LoadBundled(specs, name).error.NoBundledSpec?
  {
    if specs != [] {
      NoBundledSpecIsTheOnlyError(specs[1..], name);
    }
  }

  /** A usable file is answered at once, from the cache, with the directory untouched. */
  lemma HotLoad(build: Build, disk: Disk, name: string, c: Circumstances, schema: Schema)
    requires FindId(build.services, name).Some? && c.first.fault.NoFault?
    requires Usable(build.version, disk, CachePath(FindId(build.services, name).value), schema)
    ensures LoadService(build, disk, name, c) == (disk, Ok((schema, FromCache)))
  {
  }

  /** The directory as it stands when a cold load has parsed the bundled spec. */
  function BeforeLock(build: Build, disk: Disk, path: string, c: Circumstances): Disk {
    ActAll(ReadCache(build.version, disk, path, c.first).0, c.rival)
  }

  /** A cold load answers the file another process wrote meanwhile, if it holds the lock and
      can read one; otherwise the bundled parse, written under the lock where that is possible. */
  lemma ColdLoad(build: Build, disk: Disk, name: string, c: Circumstances)
    requires FindId(build.services, name).Some? && LoadBundled(build.specs, name).Ok?
    requires var path := CachePath(FindId(build.services, name).value);
             ReadCache(build.version, disk, path, c.first).1 == Ok(None)
    ensures var path, parsed := CachePath(FindId(build.services, name).value), LoadBundled(build.specs, name).value;
            var (after, loaded), before := LoadService(build, disk, name, c), BeforeLock(build, disk, path, c);
            && loaded.Ok?
            && (loaded.value.1.FromCache? <==>
                  c.locks && c.second.fault.NoFault? && Usable(build.version, before, path, loaded.value.0))
            && (loaded.value.1.FromCache? ==> after == before)
            && (loaded.value.1.FromBundled? ==> loaded.value.0 == parsed)
            && (!c.locks ==> after == before)
            && (loaded.value.1.FromBundled? && c.locks && c.writable && !IsDirectory(before, path) ==>
                  after == before[path := File(Envelope(build.version, parsed))])
            && (loaded.value.1.FromBundled? && (!c.writable || IsDirectory(before, path)) ==>
                  after == before || after == before - {path})
  {
    hide FindId, LoadBundled, ActAll;
  }

  /* ---- Refreshing. ---- */

  predicate Writes(before: Disk, after: Disk, path: string, version: string, schema: Schema) {
    after == before[path := File(Envelope(version, schema))]
  }

  /** A refresh needs a parse, a manifest entry, the lock and a writable file: then the
      service's file holds the parse, and otherwise nothing changed. */
  lemma RefreshWritesOneFile(build: Build, disk: Disk, name: string, locks: bool, writable: bool)
    ensures var (after, outcome) := RefreshOne(build, disk, name, locks, writable);
            var parsed, id := LoadBundled(build.specs, name), FindId(build.services, name);
            && (outcome.Ok? <==> parsed.Ok? && id.Some? && locks && writable && !IsDirectory(disk, CachePath(id.value)))
            && (outcome.Ok? ==> Writes(disk, after, CachePath(id.value), build.version, parsed.value))
            && (outcome.Err? ==> after == disk)
            && (parsed.Ok? && id.None? ==> outcome == Err(UnknownService))
            && (parsed.Ok? && id.Some? && !locks ==> outcome == Err(CacheLocked))
  {
    hide FindId, LoadBundled;
  }

  /** A listed JSON file that cannot be deleted. */
  predicate StuckIn(disk: Disk, listing: seq<string>, stuck: set<string>) {
    exists path :: path in listing && path in stuck && path in disk && disk[path].File? && IsJson(path)
  }

  /** Clearing fails exactly on such a file. */
  lemma {:induction false} ClearFailsExactly(disk: Disk, listing: seq<string>, stuck: set<string>)
    ensures Clear(disk, listing, stuck).1.Err? <==> StuckIn(disk, listing, stuck)
  {
    if listing != [] {
      var path, rest := listing[0], listing[1..];
      if path in disk && disk[path].File? && IsJson(path) {
        if path !in stuck {
          ClearFailsExactly(disk - {path}, rest, stuck);
          StuckInRest(disk, disk - {path}, listing, stuck);
        }
      } else {
        ClearFailsExactly(disk, rest, stuck);
        StuckInRest(disk, disk, listing, stuck);
      }
    }
  }

  lemma StuckInRest(disk: Disk, after: Disk, listing: seq<string>, stuck: set<string>)
    requires listing != [] && (after == disk || after == disk - {listing[0]})
    requires !(listing[0] in stuck && listing[0] in disk && disk[listing[0]].File? && IsJson(listing[0]))
    ensures StuckIn(after, listing[1..], stuck) <==> StuckIn(disk, listing, stuck)
  {
    if StuckIn(disk, listing, stuck) {
      var path :| path in listing && path in stuck && path in disk && disk[path].File? && IsJson(path);
      assert path in listing[1..] && path in after;
    }
  }

  /** A refresh of everything without the lock does nothing; with it, it stops at a file it
      cannot delete and otherwise reports every bundled spec. */
  lemma RefreshAllReports(build: Build, disk: Disk, locks: bool, listing: seq<string>, stuck: set<string>,
          unwritable: set<string>)
    ensures var (after, report) := RefreshAll(build, disk, locks, listing, stuck, unwritable);
            && (!locks ==> after == disk && report == RefreshReport([], [], Some(CacheLocked)))
            && (report.clearError.Some? <==> !locks || StuckIn(disk, listing, stuck))
            && (report.clearError.Some? ==> report.succeeded == [] && report.failed == [])
            && (report.clearError.None? ==>
                  multiset(report.succeeded) + multiset(report.failed) == multiset(Names(build.specs)))
  {
    hide StuckIn, RebuildFrom;
    ClearFailsExactly(disk, listing, stuck);
    RebuildReportsEverySpec(build, Clear(disk, listing, stuck).0, build.specs, unwritable);
  }

  /* ---- The shipped tables. ---- */

  /** The bundled spec of a name is the first under it, if that one parses. */
  lemma {:induction false} LoadBundledIsFirst(specs: seq<BundledSpec>, i: nat)
    requires i < |specs| && forall j :: 0 <= j < i ==> specs[j].name != specs[i].name
    ensures LoadBundled(specs, specs[i].name) ==
            if specs[i].parsed.Some? then Ok(specs[i].parsed.value) else Err(NoBundledSpec)
  {
    if i > 0 {
      assert forall j :: 0 <= j < |specs[1..]| ==> specs[1..][j] == specs[j + 1];
      LoadBundledIsFirst(specs[1..], i - 1);
    }
  }

  lemma {:induction false} NothingBundled(specs: seq<BundledSpec>, name: string)
    requires forall j :: 0 <= j < |specs| ==> specs[j].name != name
    ensures LoadBundled(specs, name) == Err(NoBundledSpec)
  {
    if specs != [] {
      NothingBundled(specs[1..], name);
    }
  }

  /** A name is unknown exactly when no manifest entry has it, as either of its names. */
  lemma {:induction false} UnknownExactly(services: seq<ServiceManifest>, name: string)
    ensures FindId(services, name).None? <==>
            forall i :: 0 <= i < |services| ==> services[i].internal != name && services[i].display != name
  {
    if services != [] {
      UnknownExactly(services[1..], name);
      assert forall i :: 0 < i < |services| ==> services[i] == services[1..][i - 1];
    }
  }
}
