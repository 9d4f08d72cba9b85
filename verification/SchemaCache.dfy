/** The layered service-schema cache: an in-memory map over version-gated files on disk over
    the specs bundled with the binary. */
module SchemaCache {
  import opened Wrappers

  datatype Schema = Schema(text: string)

  datatype LoadError = UnknownService | CacheUnreadable | NoBundledSpec | CacheLocked | CacheUnwritable

  datatype SpecSource = FromCache | FromBundled

  /* ---- What the binary ships with. ---- */

  datatype ServiceManifest = ServiceManifest(internal: string, display: string)

  /** A bundled spec, as the parser reads it; `None` when its bytes do not decompress or parse. */
  datatype BundledSpec = BundledSpec(name: string, parsed: Option<Schema>)

  datatype Build = Build(version: string, services: seq<ServiceManifest>, specs: seq<BundledSpec>)

  /** First manifest entry whose display or internal name is `name`. */
  function FindId(services: seq<ServiceManifest>, name: string): Option<string> {
    if services == [] then None
    else if services[0].display == name || services[0].internal == name then Some(services[0].internal)
    else FindId(services[1..], name)
  }

  function LoadBundled(specs: seq<BundledSpec>, name: string): Result<Schema, LoadError> {
    if specs == [] then Err(NoBundledSpec)
    else if specs[0].name == name then
      if specs[0].parsed.Some? then Ok(specs[0].parsed.value) else Err(NoBundledSpec)
    else LoadBundled(specs[1..], name)
  }

  /* ---- The cache directory. ---- */

  datatype Content = Corrupt | Envelope(version: string, schema: Schema)

  datatype Node = File(content: Content) | Directory

  type Disk = map<string, Node>

  function CachePath(service: string): string { service + ".json" }

  /** `Path::extension() == "json"`: a dot, `json`, and something before the dot. */
  predicate IsJson(path: string) {
    |path| > 5 && path[|path| - 5..] == ".json"
  }

  datatype ReadFault = NoFault | Denied | Broken

  /** How one read of a cache file goes, and whether a rejected file can be removed. */
  datatype Reading = Reading(fault: ReadFault, removable: bool)

  function ReadCache(version: string, disk: Disk, path: string, reading: Reading):
      (Disk, Result<Option<Schema>, LoadError>)
  {
    match reading.fault
    case Denied => (disk, Ok(None))
    case Broken => (disk, Err(CacheUnreadable))
    case NoFault =>
      if path !in disk then (disk, Ok(None))
      else if disk[path].Directory? then (disk, Err(CacheUnreadable))
      else if disk[path].content.Envelope? && disk[path].content.version == version then
        (disk, Ok(Some(disk[path].content.schema)))
      else (if reading.removable then disk - {path} else disk, Ok(None))
  }

  /** An atomic rewrite of one cache file: it happens entirely or not at all. */
  function WriteCache(version: string, disk: Disk, path: string, schema: Schema, writable: bool):
      (Disk, Result<(), LoadError>)
  {
    if !writable || (path in disk && disk[path].Directory?) then (disk, Err(CacheUnwritable))
    else (disk[path := File(Envelope(version, schema))], Ok(()))
  }

  /** Clearing walks a directory listing and stops at the first file it cannot delete. */
  function Clear(disk: Disk, listing: seq<string>, stuck: set<string>): (Disk, Result<(), LoadError>) {
    if listing == [] then (disk, Ok(()))
    else if listing[0] in disk && disk[listing[0]].File? && IsJson(listing[0]) then
      if listing[0] in stuck then (disk, Err(CacheUnwritable))
      else Clear(disk - {listing[0]}, listing[1..], stuck)
    else Clear(disk, listing[1..], stuck)
  }

  /* ---- Other processes and people. ---- */

  datatype WorldAction =
    | Damage(path: string)
    | Vanish(path: string)
    | MakeDirectory(path: string)
    | Write(path: string, version: string, schema: Schema)

  function Act(disk: Disk, action: WorldAction): Disk {
    match action
    case Damage(path) => disk[path := File(Corrupt)]
    case Vanish(path) => disk - {path}
    case MakeDirectory(path) => disk[path := Directory]
    case Write(path, version, schema) => disk[path := File(Envelope(version, schema))]
  }

  function ActAll(disk: Disk, actions: seq<WorldAction>): Disk
    decreases |actions|
  {
    if actions == [] then disk else Act(ActAll(disk, actions[..|actions| - 1]), actions[|actions| - 1])
  }

  /* ---- Loading. ---- */

  /** Everything about one load that the process does not control. `rival` is what others do
      to the directory between the unlocked read and the read under the lock. */
  datatype Circumstances = Circumstances(
    first: Reading,
    rival: seq<WorldAction>,
    locks: bool,
    second: Reading,
    writable: bool)

  /** Best-effort population under the lock: `Some` only for a competing writer's entry. */
  function TryCacheParsed(build: Build, disk: Disk, path: string, schema: Schema, c: Circumstances):
      (Disk, Option<Schema>)
  {
    if !c.locks then (disk, None) else
    var (after, reread) := ReadCache(build.version, disk, path, c.second);
    if reread.Ok? && reread.value.Some? then (after, reread.value)
    else (WriteCache(build.version, after, path, schema, c.writable).0, None)
  }

  function LoadService(build: Build, disk: Disk, name: string, c: Circumstances):
      (Disk, Result<(Schema, SpecSource), LoadError>)
  {
    var id := FindId(build.services, name);
    if id.None? then (disk, Err(UnknownService)) else
    var path := CachePath(id.value);
    var (read, hot) := ReadCache(build.version, disk, path, c.first);
    if hot.Err? then (read, Err(hot.error))
    else if hot.value.Some? then (read, Ok((hot.value.value, FromCache)))
    else
      var parsed := LoadBundled(build.specs, name);
      if parsed.Err? then (read, Err(parsed.error)) else
      var (after, rival) := TryCacheParsed(build, ActAll(read, c.rival), path, parsed.value, c);
      if rival.Some? then (after, Ok((rival.value, FromCache))) else (after, Ok((parsed.value, FromBundled)))
  }

  function RefreshOne(build: Build, disk: Disk, name: string, locks: bool, writable: bool):
      (Disk, Result<(), LoadError>)
  {
    var parsed := LoadBundled(build.specs, name);
    if parsed.Err? then (disk, Err(parsed.error)) else
    var id := FindId(build.services, name);
    if id.None? then (disk, Err(UnknownService))
    else if !locks then (disk, Err(CacheLocked))
    else WriteCache(build.version, disk, CachePath(id.value), parsed.value, writable)
  }

  function RebuildOne(build: Build, disk: Disk, name: string, writable: bool): (Disk, Result<(), LoadError>) {
    var id := FindId(build.services, name);
    if id.None? then (disk, Err(UnknownService)) else
    var parsed := LoadBundled(build.specs, name);
    if parsed.Err? then (disk, Err(parsed.error))
    else WriteCache(build.version, disk, CachePath(id.value), parsed.value, writable)
  }

  /** One failure never stops the loop; `unwritable` names the specs whose write fails. */
  function RebuildFrom(build: Build, disk: Disk, specs: seq<BundledSpec>, unwritable: set<string>):
      (Disk, seq<string>, seq<string>)
    decreases |specs|
  {
    if specs == [] then (disk, [], []) else
    var (middle, succeeded, failed) := RebuildFrom(build, disk, specs[..|specs| - 1], unwritable);
    var name := specs[|specs| - 1].name;
    var (after, outcome) := RebuildOne(build, middle, name, name !in unwritable);
    if outcome.Ok? then (after, succeeded + [name], failed) else (after, succeeded, failed + [name])
  }

  datatype RefreshReport = RefreshReport(succeeded: seq<string>, failed: seq<string>, clearError: Option<LoadError>)

  function RefreshAll(build: Build, disk: Disk, locks: bool, listing: seq<string>, stuck: set<string>,
          unwritable: set<string>): (Disk, RefreshReport)
  {
    if !locks then (disk, RefreshReport([], [], Some(CacheLocked))) else
    var (cleared, outcome) := Clear(disk, listing, stuck);
    if outcome.Err? then (cleared, RefreshReport([], [], Some(outcome.error)))
    else
      var (after, succeeded, failed) := RebuildFrom(build, cleared, build.specs, unwritable);
      (after, RefreshReport(succeeded, failed, None))
  }

  /* ---- The objects. ---- */

  class CacheDirectory {
    var files: Disk

    constructor (files: Disk)
      ensures this.files == files
    {
      this.files := files;
    }

    /** What everyone else does to the directory. */
    method Disturb(actions: seq<WorldAction>)
      modifies this
      ensures files == ActAll(old(files), actions)
    {
      var i := 0;
      while i < |actions|
        invariant 0 <= i <= |actions| && files == ActAll(old(files), actions[..i])
      {
        assert actions[..i + 1][..i] == actions[..i];
        files := Act(files, actions[i]);
        i := i + 1;
      }
      assert actions[..i] == actions;
    }

    method LoadFromCache(version: string, path: string, reading: Reading)
      returns (found: Result<Option<Schema>, LoadError>)
      modifies this
      ensures (files, found) == ReadCache(version, old(files), path, reading)
    {
      match reading.fault {
        case Denied => return Ok(None);
        case Broken => return Err(CacheUnreadable);
        case NoFault =>
      }
      if path !in files {
        return Ok(None);
      }
      var node := files[path];
      if node.Directory? {
        return Err(CacheUnreadable);
      }
      if node.content.Corrupt? {
        if reading.removable {
          files := files - {path};
        }
        return Ok(None);
      }
      if node.content.version != version {
        if reading.removable {
          files := files - {path};
        }
        return Ok(None);
      }
      found := Ok(Some(node.content.schema));
    }

    method WriteToCache(version: string, path: string, schema: Schema, writable: bool)
      returns (written: Result<(), LoadError>)
      modifies this
      ensures (files, written) == WriteCache(version, old(files), path, schema, writable)
    {
      if !writable || (path in files && files[path].Directory?) {
        return Err(CacheUnwritable);
      }
      files := files[path := File(Envelope(version, schema))];
      written := Ok(());
    }

    method ClearDefinitionCache(listing: seq<string>, stuck: set<string>) returns (cleared: Result<(), LoadError>)
      modifies this
      ensures (files, cleared) == Clear(old(files), listing, stuck)
    {
      var i := 0;
      while i < |listing|
        invariant 0 <= i <= |listing|
        invariant Clear(old(files), listing, stuck) == Clear(files, listing[i..], stuck)
      {
        var path := listing[i];
        assert listing[i..][0] == path && listing[i..][1..] == listing[i + 1..];
        if path in files && files[path].File? && IsJson(path) {
          if path in stuck {
            return Err(CacheUnwritable);
          }
          files := files - {path};
        }
        i := i + 1;
      }
      cleared := Ok(());
    }
  }

  /** The service repository over one cache directory. */
  class Repository {
    const build: Build
    const cache: CacheDirectory

    constructor (build: Build, cache: CacheDirectory)
      ensures this.build == build && this.cache == cache
    {
      this.build, this.cache := build, cache;
    }

    method Load(name: string, c: Circumstances) returns (loaded: Result<(Schema, SpecSource), LoadError>)
      modifies cache
      ensures (cache.files, loaded) == LoadService(build, old(cache.files), name, c)
    {
      var id := FindId(build.services, name);
      if id.None? {
        return Err(UnknownService);
      }
      var path := CachePath(id.value);
      var hot := cache.LoadFromCache(build.version, path, c.first);
      if hot.Err? {
        return Err(hot.error);
      }
      if hot.value.Some? {
        return Ok((hot.value.value, FromCache));
      }
      var parsed := LoadBundled(build.specs, name);
      if parsed.Err? {
        return Err(parsed.error);
      }
      cache.Disturb(c.rival);
      var rival := TryCache(path, parsed.value, c);
      loaded := if rival.Some? then Ok((rival.value, FromCache)) else Ok((parsed.value, FromBundled));
    }

    method TryCache(path: string, schema: Schema, c: Circumstances) returns (rival: Option<Schema>)
      modifies cache
      ensures (cache.files, rival) == TryCacheParsed(build, old(cache.files), path, schema, c)
    {
      if !c.locks {
        return None;
      }
      var reread := cache.LoadFromCache(build.version, path, c.second);
      if reread.Ok? && reread.value.Some? {
        return reread.value;
      }
      var _ := cache.WriteToCache(build.version, path, schema, c.writable);
      rival := None;
    }

    method Refresh(name: string, locks: bool, writable: bool) returns (refreshed: Result<(), LoadError>)
      modifies cache
      ensures (cache.files, refreshed) == RefreshOne(build, old(cache.files), name, locks, writable)
    {
      var parsed := LoadBundled(build.specs, name);
      if parsed.Err? {
        return Err(parsed.error);
      }
      var id := FindId(build.services, name);
      if id.None? {
        return Err(UnknownService);
      }
      if !locks {
        return Err(CacheLocked);
      }
      refreshed := cache.WriteToCache(build.version, CachePath(id.value), parsed.value, writable);
    }

    method Rebuild(name: string, writable: bool) returns (rebuilt: Result<(), LoadError>)
      modifies cache
      ensures (cache.files, rebuilt) == RebuildOne(build, old(cache.files), name, writable)
    {
      var id := FindId(build.services, name);
      if id.None? {
        return Err(UnknownService);
      }
      var parsed := LoadBundled(build.specs, name);
      if parsed.Err? {
        return Err(parsed.error);
      }
      rebuilt := cache.WriteToCache(build.version, CachePath(id.value), parsed.value, writable);
    }

    method RefreshEverything(locks: bool, listing: seq<string>, stuck: set<string>, unwritable: set<string>)
      returns (report: RefreshReport)
      modifies cache
      ensures (cache.files, report) == RefreshAll(build, old(cache.files), locks, listing, stuck, unwritable)
    {
      if !locks {
        return RefreshReport([], [], Some(CacheLocked));
      }
      var cleared := cache.ClearDefinitionCache(listing, stuck);
      if cleared.Err? {
        return RefreshReport([], [], Some(cleared.error));
      }
      ghost var start := cache.files;
      var succeeded, failed := [], [];
      var i := 0;
      while i < |build.specs|
        invariant 0 <= i <= |build.specs|
        invariant (cache.files, succeeded, failed) == RebuildFrom(build, start, build.specs[..i], unwritable)
      {
        assert build.specs[..i + 1][..i] == build.specs[..i];
        var name := build.specs[i].name;
        var rebuilt := Rebuild(name, name !in unwritable);
        if rebuilt.Ok? {
          succeeded := succeeded + [name];
        } else {
          failed := failed + [name];
        }
        i := i + 1;
      }
      assert build.specs[..i] == build.specs;
      report := RefreshReport(succeeded, failed, None);
    }
  }

  class ServiceSchemaMemoryCache {
    const repository: Repository
    var services: map<string, Schema>

    constructor (repository: Repository)
      ensures this.repository == repository && services == map[]
    {
      this.repository, services := repository, map[];
    }

    method GetOrLoad(service: string, c: Circumstances) returns (schema: Result<Schema, LoadError>)
      modifies this, repository.cache
      ensures (State(repository.cache.files, services), schema)
              == GetOrLoadSpec(repository.build, State(old(repository.cache.files), old(services)), service, c)
    {
      if service !in services {
        var loaded := repository.Load(service, c);
        if loaded.Err? {
          return Err(loaded.error);
        }
        services := services[service := loaded.value.0];
      }
      schema := Ok(services[service]);
    }

    method GetOrLoadBundled(service: string) returns (schema: Result<Schema, LoadError>)
      modifies this
      ensures (State(repository.cache.files, services), schema)
              == GetOrLoadBundledSpec(repository.build, State(old(repository.cache.files), old(services)), service)
    {
      if service !in services {
        var parsed := LoadBundled(repository.build.specs, service);
        if parsed.Err? {
          return Err(parsed.error);
        }
        services := services[service := parsed.value];
      }
      schema := Ok(services[service]);
    }
  }

  /* ---- The process as a function of its state. ---- */

  datatype State = State(disk: Disk, memory: map<string, Schema>)

  function GetOrLoadSpec(build: Build, s: State, name: string, c: Circumstances): (State, Result<Schema, LoadError>) {
    if name in s.memory then (s, Ok(s.memory[name])) else
    var (disk, loaded) := LoadService(build, s.disk, name, c);
    if loaded.Err? then (s.(disk := disk), Err(loaded.error))
    else (State(disk, s.memory[name := loaded.value.0]), Ok(loaded.value.0))
  }

  function GetOrLoadBundledSpec(build: Build, s: State, name: string): (State, Result<Schema, LoadError>) {
    if name in s.memory then (s, Ok(s.memory[name])) else
    var parsed := LoadBundled(build.specs, name);
    if parsed.Err? then (s, Err(parsed.error))
    else (s.(memory := s.memory[name := parsed.value]), Ok(parsed.value))
  }
}
