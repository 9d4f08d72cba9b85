/** Cache transparency: whatever happened to the directory, a successful load is the parse of
    the bundled spec; and the exact condition on the directory for that to hold. */
module SchemaCacheTheorems {
  import opened Wrappers
  import opened SchemaCache

  /* ---- The shipped tables. ---- */

  ghost predicate IsService(build: Build, id: string) {
    exists i :: 0 <= i < |build.services| && build.services[i].internal == id
  }

  /** No two services share a name of either kind. */
  predicate Unambiguous(services: seq<ServiceManifest>) {
    forall i, j :: 0 <= i < |services| && 0 <= j < |services| && i != j ==>
      && services[i].internal != services[j].internal
      && services[i].display != services[j].internal
      && services[i].display != services[j].display
  }

  /** Every bundled spec belongs to a manifest service, under its internal name. */
  ghost predicate Shipped(build: Build) {
    && Unambiguous(build.services)
    && forall name :: LoadBundled(build.specs, name).Ok? ==> IsService(build, name)
  }

  /** An unambiguous manifest resolves both names of every service to its internal one. */
  lemma {:induction false} FindIdResolves(services: seq<ServiceManifest>, i: nat)
    requires Unambiguous(services) && i < |services|
    ensures FindId(services, services[i].internal) == Some(services[i].internal)
    ensures FindId(services, services[i].display) == Some(services[i].internal)
  {
    if i > 0 {
      assert forall k :: 0 <= k < |services[1..]| ==> services[1..][k] == services[k + 1];
      FindIdResolves(services[1..], i - 1);
    }
  }

  lemma {:induction false} FindIdFinds(services: seq<ServiceManifest>, name: string)
    requires FindId(services, name).Some?
    ensures exists i :: 0 <= i < |services| && services[i].internal == FindId(services, name).value
                        && (services[i].internal == name || services[i].display == name)
  {
    if services[0].display != name && services[0].internal != name {
      FindIdFinds(services[1..], name);
      var i :| 0 <= i < |services[1..]| && services[1..][i].internal == FindId(services, name).value
               && (services[1..][i].internal == name || services[1..][i].display == name);
      assert services[i + 1] == services[1..][i];
    }
  }

  lemma BundledNameIsItsId(build: Build, name: string)
    requires Shipped(build) && LoadBundled(build.specs, name).Ok?
    ensures FindId(build.services, name) == Some(name)
  {
    var i :| 0 <= i < |build.services| && build.services[i].internal == name;
    FindIdResolves(build.services, i);
  }

  /** What a load of `name` must return: the parse of the bundled spec of the service it names. */
  function Reference(build: Build, name: string): Option<Schema> {
    var id := FindId(build.services, name);
    if id.None? then None
    else
      var parsed := LoadBundled(build.specs, id.value);
      if parsed.Ok? then Some(parsed.value) else None
  }

  lemma BundledIsReference(build: Build, name: string)
    requires Shipped(build) && LoadBundled(build.specs, name).Ok?
    ensures Reference(build, name) == Some(LoadBundled(build.specs, name).value)
  {
    BundledNameIsItsId(build, name);
  }

  /* ---- Honest directories. ---- */

  lemma CachePathInjective(a: string, b: string)
    ensures CachePath(a) == CachePath(b) <==> a == b
  {
    if CachePath(a) == CachePath(b) {
      assert a == CachePath(a)[..|CachePath(a)| - 5];
      assert b == CachePath(b)[..|CachePath(b)| - 5];
    }
  }

  lemma CachePathIsJson(id: string)
    ensures IsJson(CachePath(id)) <==> id != ""
  {
    assert CachePath(id)[|CachePath(id)| - 5..] == ".json";
  }

  /** A file of this version under a service's path holds the parse of that service's spec. */
  ghost predicate HonestFile(build: Build, path: string, content: Content) {
    content.Envelope? && content.version == build.version ==>
      forall id :: IsService(build, id) && CachePath(id) == path ==> LoadBundled(build.specs, id) == Ok(content.schema)
  }

  ghost predicate Honest(build: Build, disk: Disk) {
    forall path :: path in disk && disk[path].File? ==> HonestFile(build, path, disk[path].content)
  }

  /** Damage, deletion and files of other versions are all honest; only a file claiming this
      version must hold what this version would have written. */
  ghost predicate HonestAction(build: Build, action: WorldAction) {
    action.Write? ==> HonestFile(build, action.path, Envelope(action.version, action.schema))
  }

  ghost predicate HonestActions(build: Build, actions: seq<WorldAction>) {
    forall i :: 0 <= i < |actions| ==> HonestAction(build, actions[i])
  }

  lemma {:induction false} ActAllKeepsHonest(build: Build, disk: Disk, actions: seq<WorldAction>)
    requires Honest(build, disk) && HonestActions(build, actions)
    ensures Honest(build, ActAll(disk, actions))
    decreases |actions|
  {
    if actions != [] {
      ActAllKeepsHonest(build, disk, actions[..|actions| - 1]);
    }
  }

  lemma ReadKeepsHonest(build: Build, disk: Disk, path: string, reading: Reading)
    requires Honest(build, disk)
    ensures Honest(build, ReadCache(build.version, disk, path, reading).0)
  {
    // A read removes at most one file.
  }

  lemma HonestRead(build: Build, disk: Disk, id: string, reading: Reading)
    requires Honest(build, disk) && IsService(build, id)
    ensures var found := ReadCache(build.version, disk, CachePath(id), reading).1;
            found.Ok? && found.value.Some? ==> LoadBundled(build.specs, id) == Ok(found.value.value)
  {
    var path := CachePath(id);
    if path in disk && disk[path].File? {
      assert HonestFile(build, path, disk[path].content);
    }
  }

  lemma WriteKeepsHonest(build: Build, disk: Disk, id: string, schema: Schema, writable: bool)
    requires Honest(build, disk) && LoadBundled(build.specs, id) == Ok(schema)
    ensures Honest(build, WriteCache(build.version, disk, CachePath(id), schema, writable).0)
  {
    forall other | CachePath(other) == CachePath(id)
      ensures other == id
    {
      CachePathInjective(other, id);
    }
    assert HonestFile(build, CachePath(id), Envelope(build.version, schema));
  }

  /* ---- One load. ---- */

  /** On an honest directory, through honest interference and any faults, a load returns the
      parse of the bundled spec or fails, and leaves the directory honest. */
  lemma LoadIsTransparent(build: Build, disk: Disk, name: string, c: Circumstances)
    requires Shipped(build) && Honest(build, disk) && HonestActions(build, c.rival)
    ensures var (after, loaded) := LoadService(build, disk, name, c);
            && Honest(build, after)
            && (loaded.Ok? ==> Reference(build, name) == Some(loaded.value.0))
  {
    var id := FindId(build.services, name);
    if id.Some? {
      FindIdFinds(build.services, name);
      var path := CachePath(id.value);
      HonestRead(build, disk, id.value, c.first);
      ReadKeepsHonest(build, disk, path, c.first);
      var (read, hot) := ReadCache(build.version, disk, path, c.first);
      var parsed := LoadBundled(build.specs, name);
      if hot.Ok? && hot.value.None? && parsed.Ok? {
        BundledNameIsItsId(build, name);
        ActAllKeepsHonest(build, read, c.rival);
        RepopulationIsTransparent(build, ActAll(read, c.rival), name, parsed.value, c);
      }
    }
  }

  lemma RepopulationIsTransparent(build: Build, disk: Disk, id: string, schema: Schema, c: Circumstances)
    requires Honest(build, disk) && IsService(build, id) && LoadBundled(build.specs, id) == Ok(schema)
    ensures var (after, rival) := TryCacheParsed(build, disk, CachePath(id), schema, c);
            Honest(build, after) && (rival.Some? ==> rival.value == schema)
  {
    HonestRead(build, disk, id, c.second);
    ReadKeepsHonest(build, disk, CachePath(id), c.second);
    WriteKeepsHonest(build, ReadCache(build.version, disk, CachePath(id), c.second).0, id, schema, c.writable);
  }

  const CALM := Circumstances(Reading(NoFault, true), [], true, Reading(NoFault, true), true)

  /** Honesty of the directory is exactly what transparency needs: every undisturbed load is
      the bundled parse if and only if no same-version service file holds anything else. */
  lemma TransparencyExactly(build: Build, disk: Disk)
    requires Shipped(build)
    ensures Honest(build, disk) <==>
            forall name :: LoadService(build, disk, name, CALM).1.Ok? ==>
              Reference(build, name) == Some(LoadService(build, disk, name, CALM).1.value.0)
  {
    if Honest(build, disk) {
      forall name | LoadService(build, disk, name, CALM).1.Ok?
        ensures Reference(build, name) == Some(LoadService(build, disk, name, CALM).1.value.0)
      {
        LoadIsTransparent(build, disk, name, CALM);
      }
    } else {
      var path :| path in disk && disk[path].File? && !HonestFile(build, path, disk[path].content);
      var id :| IsService(build, id) && CachePath(id) == path
                && LoadBundled(build.specs, id) != Ok(disk[path].content.schema);
      var i :| 0 <= i < |build.services| && build.services[i].internal == id;
      FindIdResolves(build.services, i);
      assert LoadService(build, disk, id, CALM).1 == Ok((disk[path].content.schema, FromCache));
    }
  }

  /** When a load succeeds. A service's display name finds its cached file, but only its
      internal name finds its bundled spec: a display name loads exactly while the cache is warm. */
  lemma LoadSucceedsExactly(build: Build, disk: Disk, name: string, c: Circumstances)
    ensures LoadService(build, disk, name, c).1.Ok? <==>
            && FindId(build.services, name).Some?
            && (var hot := ReadCache(build.version, disk, CachePath(FindId(build.services, name).value), c.first).1;
                hot.Ok? && (hot.value.Some? || LoadBundled(build.specs, name).Ok?))
  {
    var id := FindId(build.services, name);
    if id.Some? {
      var path := CachePath(id.value);
      var (read, hot) := ReadCache(build.version, disk, path, c.first);
    }
  }

  /** A display name of its own loads exactly when the file under the service's internal name
      can be read and is an envelope of this version; whether a spec is bundled plays no part. */
  lemma DisplayNameLoadsExactly(build: Build, disk: Disk, i: nat, c: Circumstances)
    requires Shipped(build) && i < |build.services|
    requires build.services[i].display != build.services[i].internal
    ensures var path := CachePath(build.services[i].internal);
            LoadService(build, disk, build.services[i].display, c).1.Ok? <==>
            && c.first.fault.NoFault? && path in disk && disk[path].File?
            && disk[path].content.Envelope? && disk[path].content.version == build.version
  {
    var service := build.services[i];
    FindIdResolves(build.services, i);
    if LoadBundled(build.specs, service.display).Ok? {
      BundledNameIsItsId(build, service.display);
      assert false;
    }
  }

  /** The display name of a bundled service: a cold load fails, and the same load succeeds
      after the service was loaded once under its internal name. */
  lemma DisplayNameNeedsAWarmCache(build: Build, i: nat)
    requires Shipped(build) && i < |build.services|
    requires var service := build.services[i];
             service.display != service.internal && LoadBundled(build.specs, service.internal).Ok?
    ensures var service := build.services[i];
            var warmed := LoadService(build, map[], service.internal, CALM).0;
            && LoadService(build, map[], service.display, CALM).1.Err?
            && LoadService(build, warmed, service.display, CALM).1 ==
               Ok((LoadBundled(build.specs, service.internal).value, FromCache))
  {
    var service := build.services[i];
    FindIdResolves(build.services, i);
    if LoadBundled(build.specs, service.display).Ok? {
      BundledNameIsItsId(build, service.display);
      assert false;
    }
    var path := CachePath(service.internal);
    assert ReadCache(build.version, map[], path, CALM.first) == (map[], Ok(None));
    assert ActAll(map[], CALM.rival) == map[];
    assert LoadService(build, map[], service.internal, CALM).1 ==
           Ok((LoadBundled(build.specs, service.internal).value, FromBundled));
    LoadWarmsTheCache(build, map[], service.internal, service.display);
  }

  /** An undisturbed successful load leaves a file that the next load, under any name of the
      service, reads back. */
  lemma LoadWarmsTheCache(build: Build, disk: Disk, name: string, again: string)
    requires FindId(build.services, name).Some? && FindId(build.services, again) == FindId(build.services, name)
    requires LoadService(build, disk, name, CALM).1.Ok?
    ensures var (after, loaded) := LoadService(build, disk, name, CALM);
            LoadService(build, after, again, CALM) == (after, Ok((loaded.value.0, FromCache)))
  {
    var path := CachePath(FindId(build.services, name).value);
    var (read, hot) := ReadCache(build.version, disk, path, CALM.first);
    if hot.value.None? {
      assert ActAll(read, CALM.rival) == read;
    }
  }

  /* ---- Refreshing. ---- */

  lemma RefreshOneKeepsHonest(build: Build, disk: Disk, name: string, locks: bool, writable: bool)
    requires Shipped(build) && Honest(build, disk)
    ensures Honest(build, RefreshOne(build, disk, name, locks, writable).0)
    ensures Honest(build, RebuildOne(build, disk, name, writable).0)
  {
    if LoadBundled(build.specs, name).Ok? {
      BundledNameIsItsId(build, name);
      WriteKeepsHonest(build, disk, name, LoadBundled(build.specs, name).value, writable);
    }
  }

  lemma {:induction false} RebuildKeepsHonest(build: Build, disk: Disk, specs: seq<BundledSpec>,
          unwritable: set<string>)
    requires Shipped(build) && Honest(build, disk)
    ensures Honest(build, RebuildFrom(build, disk, specs, unwritable).0)
    decreases |specs|
  {
    if specs != [] {
      RebuildKeepsHonest(build, disk, specs[..|specs| - 1], unwritable);
      var middle := RebuildFrom(build, disk, specs[..|specs| - 1], unwritable).0;
      var name := specs[|specs| - 1].name;
      RefreshOneKeepsHonest(build, middle, name, true, name !in unwritable);
    }
  }

  /** Clearing only removes files, and a completed clear removes exactly the listed JSON files. */
  lemma {:induction false} ClearRemovesExactlyJson(disk: Disk, listing: seq<string>, stuck: set<string>)
    ensures var (after, outcome) := Clear(disk, listing, stuck);
            && (forall path :: path in after ==> path in disk && after[path] == disk[path])
            && (forall path :: path in disk && path !in after ==> path in listing && disk[path].File? && IsJson(path))
            && (outcome.Ok? ==>
                  forall path :: path in listing && path in after ==> after[path].Directory? || !IsJson(path))
  {
    if listing != [] {
      if listing[0] in disk && disk[listing[0]].File? && IsJson(listing[0]) {
        if listing[0] !in stuck {
          ClearRemovesExactlyJson(disk - {listing[0]}, listing[1..], stuck);
        }
      } else {
        ClearRemovesExactlyJson(disk, listing[1..], stuck);
      }
    }
  }

  /** A refresh of everything whose clear completed makes any directory honest again, however
      many of the rewrites then fail. */
  lemma RefreshAllRepairs(build: Build, disk: Disk, listing: seq<string>, stuck: set<string>, unwritable: set<string>)
    requires Shipped(build) && (forall id :: IsService(build, id) ==> id != "")
    requires forall path :: path in disk ==> path in listing
    ensures var (after, report) := RefreshAll(build, disk, true, listing, stuck, unwritable);
            report.clearError.None? ==> Honest(build, after)
  {
    ClearRemovesExactlyJson(disk, listing, stuck);
    var (cleared, outcome) := Clear(disk, listing, stuck);
    if outcome.Ok? {
      forall path | path in cleared && cleared[path].File?
        ensures HonestFile(build, path, cleared[path].content)
      {
        forall id | IsService(build, id) && CachePath(id) == path
          ensures false
        {
          CachePathIsJson(id);
        }
      }
      RebuildKeepsHonest(build, cleared, build.specs, unwritable);
    }
  }

  /** Every bundled spec is reported exactly once, as rebuilt or as failed. */
  lemma {:induction false} RebuildReportsEverySpec(build: Build, disk: Disk, specs: seq<BundledSpec>,
          unwritable: set<string>)
    ensures var (after, succeeded, failed) := RebuildFrom(build, disk, specs, unwritable);
            multiset(succeeded) + multiset(failed) == multiset(Names(specs))
    decreases |specs|
  {
    hide RebuildOne;
    if specs != [] {
      var init, name := specs[..|specs| - 1], specs[|specs| - 1].name;
      RebuildReportsEverySpec(build, disk, init, unwritable);
      assert Names(specs) == Names(init) + [name];
    }
  }

  /** A rebuild fails only if the spec does not parse, has no manifest entry, or its file
      cannot be written. */
  predicate Blocked(build: Build, disk: Disk, unwritable: set<string>, name: string) {
    || LoadBundled(build.specs, name).Err? || FindId(build.services, name).None? || name in unwritable
    || (var path := CachePath(FindId(build.services, name).value); path in disk && disk[path].Directory?)
  }

  predicate NoNewDirectories(before: Disk, after: Disk) {
    forall path :: path in after && after[path].Directory? ==> path in before && before[path].Directory?
  }

  lemma RebuildOneBlocks(build: Build, disk: Disk, unwritable: set<string>, name: string)
    ensures var (after, outcome) := RebuildOne(build, disk, name, name !in unwritable);
            NoNewDirectories(disk, after) && (outcome.Err? <==> Blocked(build, disk, unwritable, name))
  {
    // Unfolding the definitions suffices.
  }

  lemma {:induction false} FailedRebuildsWereBlocked(build: Build, disk: Disk, specs: seq<BundledSpec>,
          unwritable: set<string>, name: string)
    requires name in RebuildFrom(build, disk, specs, unwritable).2
    ensures Blocked(build, disk, unwritable, name)
    decreases |specs|
  {
    hide RebuildOne;
    var init, last := specs[..|specs| - 1], specs[|specs| - 1].name;
    var (middle, succeeded, failed) := RebuildFrom(build, disk, init, unwritable);
    if name in failed {
      FailedRebuildsWereBlocked(build, disk, init, unwritable, name);
    } else {
      RebuildMakesNoDirectories(build, disk, init, unwritable);
      RebuildOneBlocks(build, middle, unwritable, last);
      var outcome := RebuildOne(build, middle, last, last !in unwritable).1;
      assert outcome.Err?;
      assert name == last && Blocked(build, middle, unwritable, last);
      if FindId(build.services, last).Some? {
        var path := CachePath(FindId(build.services, last).value);
        assert path in middle && middle[path].Directory? ==> path in disk && disk[path].Directory?;
      }
    }
  }

  lemma {:induction false} RebuildMakesNoDirectories(build: Build, disk: Disk, specs: seq<BundledSpec>,
          unwritable: set<string>)
    ensures NoNewDirectories(disk, RebuildFrom(build, disk, specs, unwritable).0)
    decreases |specs|
  {
    hide RebuildOne;
    if specs != [] {
      var init, last := specs[..|specs| - 1], specs[|specs| - 1].name;
      RebuildMakesNoDirectories(build, disk, init, unwritable);
      RebuildOneBlocks(build, RebuildFrom(build, disk, init, unwritable).0, unwritable, last);
    }
  }

  function Names(specs: seq<BundledSpec>): seq<string> {
    seq(|specs|, i requires 0 <= i < |specs| => specs[i].name)
  }

  /** A rebuilt spec's file holds its parse, whatever is rebuilt after it. */
  lemma {:induction false} RebuildLeavesParses(build: Build, disk: Disk, specs: seq<BundledSpec>,
          unwritable: set<string>, name: string)
    requires Shipped(build)
    requires name in RebuildFrom(build, disk, specs, unwritable).1
    ensures var after := RebuildFrom(build, disk, specs, unwritable).0;
            && LoadBundled(build.specs, name).Ok?
            && CachePath(name) in after
            && after[CachePath(name)] == File(Envelope(build.version, LoadBundled(build.specs, name).value))
    decreases |specs|
  {
    var init, last := specs[..|specs| - 1], specs[|specs| - 1].name;
    var (middle, succeeded, failed) := RebuildFrom(build, disk, init, unwritable);
    if LoadBundled(build.specs, last).Ok? {
      BundledNameIsItsId(build, last);
    }
    if name in succeeded {
      RebuildLeavesParses(build, disk, init, unwritable, name);
      CachePathInjective(name, last);
    }
  }

  /** Every service a refresh reports as rebuilt loads its bundled parse from the cache. */
  lemma RefreshedServicesHit(build: Build, disk: Disk, listing: seq<string>, stuck: set<string>,
          unwritable: set<string>, name: string)
    requires Shipped(build)
    requires name in RefreshAll(build, disk, true, listing, stuck, unwritable).1.succeeded
    ensures var after := RefreshAll(build, disk, true, listing, stuck, unwritable).0;
            LoadBundled(build.specs, name).Ok?
            && LoadService(build, after, name, CALM) == (after, Ok((LoadBundled(build.specs, name).value, FromCache)))
  {
    var cleared := Clear(disk, listing, stuck).0;
    RebuildLeavesParses(build, cleared, build.specs, unwritable, name);
    BundledNameIsItsId(build, name);
  }

  lemma RefreshAllKeepsHonest(build: Build, disk: Disk, locks: bool, listing: seq<string>, stuck: set<string>,
          unwritable: set<string>)
    requires Shipped(build) && Honest(build, disk)
    ensures Honest(build, RefreshAll(build, disk, locks, listing, stuck, unwritable).0)
  {
    ClearRemovesExactlyJson(disk, listing, stuck);
    var (cleared, outcome) := Clear(disk, listing, stuck);
    assert Honest(build, cleared);
    if outcome.Ok? {
      RebuildKeepsHonest(build, cleared, build.specs, unwritable);
    }
  }

  /* ---- Histories of one process among others. ---- */

  datatype Op =
    | GetOrLoad(name: string, c: Circumstances)
    | GetOrLoadBundled(name: string)
    | LoadUncached(name: string, c: Circumstances)
    | Refresh(name: string, locks: bool, writable: bool)
    | RefreshEvery(locks: bool, listing: seq<string>, stuck: set<string>, unwritable: set<string>)
    | World(actions: seq<WorldAction>)

  /** The next state, and the schema answered, if the operation answers one. */
  function Do(build: Build, s: State, op: Op): (State, Option<Schema>) {
    match op
    case GetOrLoad(name, c) =>
      var (next, answer) := GetOrLoadSpec(build, s, name, c);
      (next, if answer.Ok? then Some(answer.value) else None)
    case GetOrLoadBundled(name) =>
      var (next, answer) := GetOrLoadBundledSpec(build, s, name);
      (next, if answer.Ok? then Some(answer.value) else None)
    case LoadUncached(name, c) =>
      var (disk, loaded) := LoadService(build, s.disk, name, c);
      (s.(disk := disk), if loaded.Ok? then Some(loaded.value.0) else None)
    case Refresh(name, locks, writable) => (s.(disk := RefreshOne(build, s.disk, name, locks, writable).0), None)
    case RefreshEvery(locks, listing, stuck, unwritable) =>
      (s.(disk := RefreshAll(build, s.disk, locks, listing, stuck, unwritable).0), None)
    case World(actions) => (s.(disk := ActAll(s.disk, actions)), None)
  }

  function Run(build: Build, s: State, history: seq<Op>): State
    decreases |history|
  {
    if history == [] then s
    else Do(build, Run(build, s, history[..|history| - 1]), history[|history| - 1]).0
  }

  ghost predicate HonestOp(build: Build, op: Op) {
    match op
    case GetOrLoad(_, c) => HonestActions(build, c.rival)
    case LoadUncached(_, c) => HonestActions(build, c.rival)
    case World(actions) => HonestActions(build, actions)
    case _ => true
  }

  /** Every in-memory schema is the bundled parse of the service its key names. */
  ghost predicate Faithful(build: Build, memory: map<string, Schema>) {
    forall name :: name in memory ==> Reference(build, name) == Some(memory[name])
  }

  lemma StepIsTransparent(build: Build, s: State, op: Op)
    requires Shipped(build) && Honest(build, s.disk) && Faithful(build, s.memory) && HonestOp(build, op)
    ensures var (next, answer) := Do(build, s, op);
            && Honest(build, next.disk) && Faithful(build, next.memory)
            && (answer.Some? ==> (op.GetOrLoad? || op.GetOrLoadBundled? || op.LoadUncached?)
                                 && Reference(build, op.name) == answer)
  {
    match op {
      case GetOrLoad(name, c) => LoadIsTransparent(build, s.disk, name, c);
      case LoadUncached(name, c) => LoadIsTransparent(build, s.disk, name, c);
      case GetOrLoadBundled(name) =>
        if LoadBundled(build.specs, name).Ok? {
          BundledIsReference(build, name);
        }
      case Refresh(name, locks, writable) => RefreshOneKeepsHonest(build, s.disk, name, locks, writable);
      case RefreshEvery(locks, listing, stuck, unwritable) =>
        RefreshAllKeepsHonest(build, s.disk, locks, listing, stuck, unwritable);
      case World(actions) => ActAllKeepsHonest(build, s.disk, actions);
    }
  }

  lemma {:induction false} HistoryKeepsHonest(build: Build, s: State, history: seq<Op>)
    requires Shipped(build) && Honest(build, s.disk) && Faithful(build, s.memory)
    requires forall i :: 0 <= i < |history| ==> HonestOp(build, history[i])
    ensures Honest(build, Run(build, s, history).disk) && Faithful(build, Run(build, s, history).memory)
    decreases |history|
  {
    if history != [] {
      HistoryKeepsHonest(build, s, history[..|history| - 1]);
      StepIsTransparent(build, Run(build, s, history[..|history| - 1]), history[|history| - 1]);
    }
  }

  /** Cache transparency. Start with an empty memory and a directory of files written by any
      other versions, damaged or absent; after any history of loads, bundled loads, refreshes,
      damage, deletions and other versions' writes, every schema answered is the parse of the
      bundled spec of the service asked for. */
  lemma {:induction false} CacheTransparency(build: Build, disk: Disk, history: seq<Op>, op: Op)
    requires Shipped(build) && Honest(build, disk)
    requires forall i :: 0 <= i < |history| ==> HonestOp(build, history[i])
    requires HonestOp(build, op)
    ensures var answer := Do(build, Run(build, State(disk, map[]), history), op).1;
            answer.Some? ==> (op.GetOrLoad? || op.GetOrLoadBundled? || op.LoadUncached?)
                             && Reference(build, op.name) == answer
  {
    HistoryKeepsHonest(build, State(disk, map[]), history);
    StepIsTransparent(build, Run(build, State(disk, map[]), history), op);
  }

  /* ---- Memory. ---- */

  /** Memory only grows, by the answered schema under the asked name, and not on failure. */
  lemma MemoryGrowsOnlyByAnswers(build: Build, s: State, op: Op)
    ensures var (next, answer) := Do(build, s, op);
            && (answer.None? ==> next.memory == s.memory)
            && (forall name :: name in s.memory ==> name in next.memory && next.memory[name] == s.memory[name])
            && (forall name :: name in next.memory && name !in s.memory ==>
                  (op.GetOrLoad? || op.GetOrLoadBundled?) && name == op.name && answer == Some(next.memory[name]))
  {
    // Unfolding the definitions suffices.
  }

  lemma {:induction false} LoadedEntryNeverChanges(build: Build, s: State, history: seq<Op>, name: string)
    requires name in s.memory
    ensures name in Run(build, s, history).memory && Run(build, s, history).memory[name] == s.memory[name]
    decreases |history|
  {
    if history != [] {
      LoadedEntryNeverChanges(build, s, history[..|history| - 1], name);
      MemoryGrowsOnlyByAnswers(build, Run(build, s, history[..|history| - 1]), history[|history| - 1]);
    }
  }

  /** Once a bundled load has seeded a service, every later load of it, after any history at
      all, answers the bundled parse whatever the directory then holds and however reads of
      it would go, and leaves it as it is; so did the seeding. */
  lemma {:induction false} SeededLoadsTouchNoDisk(build: Build, s: State, name: string, history: seq<Op>,
          anything: Disk, c: Circumstances)
    requires name !in s.memory && LoadBundled(build.specs, name).Ok?
    ensures var seeded := Do(build, s, GetOrLoadBundled(name)).0;
            var later := Run(build, seeded, history).(disk := anything);
            && seeded.disk == s.disk
            && Do(build, s.(disk := anything), GetOrLoadBundled(name)).1 == Some(LoadBundled(build.specs, name).value)
            && Do(build, later, GetOrLoad(name, c)) == (later, Some(LoadBundled(build.specs, name).value))
  {
    LoadedEntryNeverChanges(build, Do(build, s, GetOrLoadBundled(name)).0, history, name);
  }
}
