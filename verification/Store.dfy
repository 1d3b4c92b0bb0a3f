/** The daemon's configuration store: revisions, save before publish, preview leases. */
module Store {
  import opened Basics
  import opened Layout
  import opened Configuration
  import opened ConfigFile

  // ---------------------------------------------------------------- the file

  datatype File =
    | Absent
    | Blocked  // present, but not readable
    | Bytes(size: nat, document: Option<SavedConfig>)  // None: the text is no document

  datatype Loaded = Opened(saved: SavedConfig) | Refused

  function Migrated(saved: SavedConfig): SavedConfig {
    if saved.config.schemaVersion == 1 then saved.(config := saved.config.(schemaVersion := 2)) else saved
  }

  function Load(file: File): Loaded {
    match file
    case Absent => Opened(Default())
    case Blocked => Refused
    case Bytes(size, document) =>
      if size > MAX_FILE || document.None? || !Migrated(document.value).config.Valid() then Refused
      else Opened(Migrated(document.value))
  }

  function Written(saved: SavedConfig): File {
    Bytes(|FileText(saved)|, Some(saved))
  }

  lemma LoadAccepts(size: nat, saved: SavedConfig)
    requires size <= MAX_FILE && saved.config.Valid()
    ensures Load(Bytes(size, Some(saved))) == Opened(saved)
  {
  }

  /** What a save leaves behind, the next start reads back. */
  lemma LoadReadsWritten(saved: SavedConfig)
    requires saved.config.Valid()
    ensures Load(Written(saved)) == Opened(saved)
  {
    ValidFileFits(saved);
    LoadAccepts(|FileText(saved)|, saved);
  }

  /**
   A file that is there comes up exactly if it is small, well-formed, of one of the
   two schemas, and valid as a document of schema 2; and as that document.
   */
  lemma LoadExact(file: File, loaded: SavedConfig)
    ensures file.Absent? ==> Load(file) == Opened(Default())
    ensures !file.Absent? ==>
      (Load(file) == Opened(loaded)
       <==>
       && file.Bytes? && file.size <= 32768 && file.document.Some?
       && var c := file.document.value.config;
          && c.schemaVersion in [1, 2] && c.(schemaVersion := 2).Valid()
          && loaded.config.schemaVersion == 2 && loaded.revision == file.document.value.revision
          && loaded.config.clockIntensity == c.clockIntensity && loaded.config.brightness == c.brightness
          && loaded.config.panels == c.panels)
  {
  }

  /** Only valid configurations are ever loaded. */
  lemma LoadedIsValid(file: File)
    ensures Load(file).Opened? ==> Load(file).saved.config.Valid()
  {
    DefaultIsValid();
  }

  // ---------------------------------------------------------------- the store

  datatype Lease = Lease(owner: string, generation: u32, config: Config, expires: int)

  /** Times are milliseconds of the monotonic clock. */
  datatype StoreState = StoreState(saved: SavedConfig, preview: Option<Lease>, nextLease: u32)

  function PreviewActive(s: StoreState, now: int): bool {
    s.preview.Some? && now < s.preview.value.expires
  }

  function Expired(s: StoreState, now: int): StoreState {
    if PreviewActive(s, now) then s else s.(preview := None)
  }

  function Output(s: StoreState, now: int): Config {
    if PreviewActive(s, now) then s.preview.value.config else s.saved.config
  }

  predicate OwnerChar(c: char) {
    'a' <= c <= 'z' || 'A' <= c <= 'Z' || '0' <= c <= '9' || c == '-'
  }

  predicate PreviewRequest(owner: string, config: Config, seconds: byte) {
    && 1 <= |owner| <= 64 && (forall i :: 0 <= i < |owner| ==> OwnerChar(owner[i]))
    && 1 <= seconds <= 15 && config.Valid()
  }

  datatype Begun = Started(generation: u32) | Invalid | Busy

  function BeginReply(s: StoreState, owner: string, config: Config, seconds: byte, now: int): Begun {
    if !PreviewRequest(owner, config, seconds) then Invalid
    else if PreviewActive(s, now) then Busy
    else if s.nextLease == U32_MAX then Invalid
    else Started(s.nextLease + 1)
  }

  function Begin(s: StoreState, owner: string, config: Config, seconds: byte, now: int): StoreState {
    var reply := BeginReply(s, owner, config, seconds, now);
    if reply.Started? then
      s.(preview := Some(Lease(owner, reply.generation, config, now + 1000 * seconds)), nextLease := reply.generation)
    else s
  }

  predicate Owns(s: StoreState, owner: string, generation: u32, now: int) {
    && s.preview.Some? && s.preview.value.owner == owner && s.preview.value.generation == generation
    && now < s.preview.value.expires
  }

  predicate Cancels(s: StoreState, owner: string, generation: Option<u32>) {
    && s.preview.Some? && s.preview.value.owner == owner
    && (generation.None? || generation.value == s.preview.value.generation)
  }

  function Cancelled(s: StoreState, owner: string, generation: Option<u32>): StoreState {
    if Cancels(s, owner, generation) then s.(preview := None) else s
  }

  datatype Status = IsValid | IsInvalid | Applied | Conflict | SaveFailed

  datatype Reply = Reply(status: Status, saved: SavedConfig)

  /** The document an apply tries to save, or why it does not. */
  function Admit(s: StoreState, expected: u32, config: Config): Status {
    if !config.Valid() then IsInvalid
    else if expected != s.saved.revision then Conflict
    else if s.saved.revision == U32_MAX then SaveFailed
    else Applied
  }

  function Next(s: StoreState, config: Config): SavedConfig
    requires s.saved.revision < U32_MAX
  {
    SavedConfig(s.saved.revision + 1, config)
  }

  /** `persisted`: the file was replaced, or there is none to replace. */
  function Apply(s: StoreState, expected: u32, config: Config, persisted: bool): StoreState {
    if Admit(s, expected, config).Applied? && persisted then s.(saved := Next(s, config)) else s
  }

  function ApplyReply(s: StoreState, expected: u32, config: Config, persisted: bool): Reply {
    var status := Admit(s, expected, config);
    if !status.Applied? then Reply(status, s.saved)
    else if persisted then Reply(Applied, Next(s, config))
    else Reply(SaveFailed, s.saved)
  }

  // --------------------------------------------------------------- the classes

  class Disk {
    var file: File

    constructor (contents: File)
      ensures file == contents
    {
      file := contents;
    }

    /** Writes beside the file and renames over it: all of it, or nothing. */
    method Persist(saved: SavedConfig) returns (ok: bool)
      modifies this
      ensures file == if ok then Written(saved) else old(file)
    {
      if * {
        file := Written(saved);
        ok := true;
      } else {
        ok := false;
      }
    }
  }

  class ConfigStore {
    var saved: SavedConfig
    const path: Disk?
    var preview: Option<Lease>
    var nextLease: u32

    ghost function View(): StoreState
      reads this
    {
      StoreState(saved, preview, nextLease)
    }

    constructor Memory()
      ensures View() == StoreState(Default(), None, 0) && path == null
    {
      saved, path, preview, nextLease := Default(), null, None, 0;
    }

    constructor Open(disk: Disk, document: SavedConfig)
      ensures View() == StoreState(document, None, 0) && path == disk
    {
      saved, path, preview, nextLease := document, disk, None, 0;
    }

    /** Refuses an unreadable, oversized, malformed or invalid file; never writes to it. */
    static method LoadFrom(disk: Disk) returns (store: ConfigStore?)
      ensures store != null <==> Load(disk.file).Opened?
      ensures store != null ==>
        fresh(store) && store.path == disk && store.View() == StoreState(Load(disk.file).saved, None, 0)
    {
      var document := Default();
      if disk.file.Blocked? {
        return null;
      }
      if disk.file.Bytes? {
        if disk.file.size > MAX_FILE || disk.file.document.None? {
          return null;
        }
        document := disk.file.document.value;
        if document.config.schemaVersion == 1 {
          document := document.(config := document.config.(schemaVersion := 2));
        }
        var errors := Validate(document.config);
        if errors != [] {
          return null;
        }
      }
      store := new ConfigStore.Open(disk, document);
    }

    method IsActive(now: int) returns (active: bool)
      ensures active == PreviewActive(View(), now)
    {
      active := preview.Some? && now < preview.value.expires;
    }

    /** What to show now; a lease that has run out is dropped. */
    method OutputAt(now: int) returns (config: Config)
      modifies this
      ensures config == Output(old(View()), now)
      ensures View() == Expired(old(View()), now)
    {
      var active := IsActive(now);
      if !active {
        preview := None;
      }
      config := if preview.Some? then preview.value.config else saved.config;
    }

    method BeginPreview(owner: string, config: Config, seconds: byte, now: int) returns (r: Begun)
      modifies this
      ensures r == BeginReply(old(View()), owner, config, seconds, now)
      ensures View() == Begin(old(View()), owner, config, seconds, now)
    {
      var errors := Validate(config);
      if !(1 <= |owner| <= 64) || !(forall i :: 0 <= i < |owner| ==> OwnerChar(owner[i]))
         || !(1 <= seconds <= 15) || errors != [] {
        return Invalid;
      }
      var active := IsActive(now);
      if active {
        return Busy;
      }
      if nextLease == U32_MAX {
        return Invalid;
      }
      nextLease := nextLease + 1;
      preview := Some(Lease(owner, nextLease, config, now + 1000 * seconds));
      r := Started(nextLease);
    }

    method OwnsPreview(owner: string, generation: u32, now: int) returns (r: bool)
      ensures r == Owns(View(), owner, generation, now)
    {
      r := preview.Some? && preview.value.owner == owner && preview.value.generation == generation
        && now < preview.value.expires;
    }

    method CancelPreview(owner: string, generation: Option<u32>) returns (r: bool)
      modifies this
      ensures r == Cancels(old(View()), owner, generation)
      ensures View() == Cancelled(old(View()), owner, generation)
    {
      r := preview.Some? && preview.value.owner == owner
        && (generation.None? || generation.value == preview.value.generation);
      if r {
        preview := None;
      }
    }

    method ValidateOnly(config: Config) returns (reply: Reply)
      ensures reply == Reply(if config.Valid() then IsValid else IsInvalid, saved)
    {
      var errors := Validate(config);
      reply := Reply(if errors == [] then IsValid else IsInvalid, saved);
    }

    /** Validation comes first, then the expected revision, then room for another one. */
    method CheckApply(expected: u32, config: Config) returns (status: Status)
      ensures status == Admit(View(), expected, config)
    {
      var reply := ValidateOnly(config);
      status :=
        if reply.status.IsInvalid? then IsInvalid
        else if expected != saved.revision then Conflict
        else if saved.revision == U32_MAX then SaveFailed
        else Applied;
    }

    /**
     Saves before it publishes: the file and the store change together, and only
     when the reply says so.
     */
    method ApplyConfig(expected: u32, config: Config) returns (reply: Reply, ghost persisted: bool)
      modifies this, path
      ensures reply == ApplyReply(old(View()), expected, config, persisted)
      ensures View() == Apply(old(View()), expected, config, persisted)
      ensures reply.status.Applied? <==> saved.revision == old(saved.revision) + 1
      ensures path != null ==> path.file == if reply.status.Applied? then Written(saved) else old(path.file)
    {
      persisted := true;
      var status := CheckApply(expected, config);
      if !status.Applied? {
        return Reply(status, saved), persisted;
      }
      var next := SavedConfig(saved.revision + 1, config);
      if path != null {
        var ok := path.Persist(next);
        persisted := ok;
        if !ok {
          return Reply(SaveFailed, saved), persisted;
        }
      }
      saved := next;
      reply := Reply(Applied, saved);
    }
  }
}
