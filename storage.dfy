/**
 * The storage component object (`Storage` in viseron/components/storage/__init__.py):
 * it owns the database engine and session factory, bootstraps the schema at start-up,
 * answers where a camera writes new files, and starts the tier handlers of each
 * camera that registers.
 */
module StorageComponent {
  import opened Wrappers
  import opened Tiers
  import opened Dispatch
  import opened Schema

  /** The database the engine connects to. */
  const DatabaseUrl: string := "postgresql://localhost/viseron"

  /** A database engine; `disposed` once its connection pool has been released. */
  datatype Engine = Engine(url: string, disposed: bool)

  /** A session handed out by the session factory, bound to the engine. */
  datatype Session = Session(bind: Engine)

  datatype StorageError =
    | ConnectionNotEstablished  // the RuntimeError raised before the engine or factory exists
    | ConnectionFailed          // the error raised while connecting and reading the revision
    | UpgradeFailed             // the error the schema upgrade raised

  class Storage {
    /** The storage configuration, as validated at load time. */
    const config: StorageConfig
    /** The head revision of the schema migration scripts shipped with the code. */
    const head: Rev
    /** The helpers that derive a camera's recordings and segments directories from a tier. */
    const recordingsPathOf: (Tier, Camera) -> string
    const segmentsPathOf: (Tier, Camera) -> string

    /** The engine, None until the database is created. */
    var engine: Option<Engine>
    /** The schema revision recorded in the metadata store. */
    var rev: Option<Rev>
    /** Whether the session factory has been set. */
    var sessionReady: bool

    /** The session factory is only ever set once an engine exists. */
    ghost predicate Valid()
      reads this
    {
      sessionReady ==> engine.Some?
    }

    /** The object as it stands before the database is created: no engine and no
        session factory; `storedRev` is the revision the metadata store holds. */
    constructor (config: StorageConfig, head: Rev, storedRev: Option<Rev>,
                 recordingsPathOf: (Tier, Camera) -> string, segmentsPathOf: (Tier, Camera) -> string)
      ensures Valid()
      ensures this.config == config && this.head == head
      ensures this.recordingsPathOf == recordingsPathOf && this.segmentsPathOf == segmentsPathOf
      ensures engine == None && rev == storedRev && !sessionReady
    {
      this.config := config;
      this.head := head;
      this.recordingsPathOf := recordingsPathOf;
      this.segmentsPathOf := segmentsPathOf;
      engine := None;
      rev := storedRev;
      sessionReady := false;
    }

    /** Creates every table and stamps the store at head. Without an engine it raises;
        a failure of the creation itself is logged and swallowed, leaving the revision. */
    method CreateNewDb(createOk: bool) returns (r: Result<(), StorageError>)
      modifies this`rev
      ensures engine.None? ==> r == Err(ConnectionNotEstablished) && rev == old(rev)
      ensures engine.Some? ==> r == Ok(()) && rev == (if createOk then Some(head) else old(rev))
    {
      if engine.None? {
        return Err(ConnectionNotEstablished);
      }
      if createOk {
        rev := Some(head);
      }
      r := Ok(());
    }

    /** Upgrades the store to head; a failed upgrade raises and leaves the revision. */
    method RunMigrations(upgradeOk: bool) returns (r: Result<(), StorageError>)
      modifies this`rev
      ensures r.Ok? <==> upgradeOk
      ensures r.Err? ==> r.error == UpgradeFailed
      ensures rev == (if upgradeOk then Some(head) else old(rev))
    {
      if !upgradeOk {
        return Err(UpgradeFailed);
      }
      rev := Some(head);
      r := Ok(());
    }

    /** Opens the engine, connects and reads the recorded revision, takes the one branch
        that revision calls for, and then sets the session factory. A failed connection
        or a failed upgrade raises before the factory is set; the engine stays set. */
    method CreateDatabase(connectOk: bool, createOk: bool, upgradeOk: bool) returns (r: Result<Branch, StorageError>)
      requires Valid()
      modifies this`engine, this`rev, this`sessionReady
      ensures Valid()
      ensures engine == Some(Engine(DatabaseUrl, false))
      ensures r.Err? <==> BootstrapFails(old(rev), head, connectOk, upgradeOk)
      ensures r.Err? ==> r.error == (if connectOk then UpgradeFailed else ConnectionFailed)
      ensures r.Ok? ==> r.value == BranchFor(old(rev), head)
      ensures rev == RevisionAfter(old(rev), head, connectOk, createOk, upgradeOk)
      ensures sessionReady == (r.Ok? || old(sessionReady))
      ensures old(rev) == Some(head) && connectOk ==> r == Ok(NoOp) && rev == old(rev)
    {
      engine := Some(Engine(DatabaseUrl, false));
      if !connectOk {
        return Err(ConnectionFailed);
      }
      var current := rev;
      if current.None? {
        var _ := CreateNewDb(createOk);
        r := Ok(CreateNew);
      } else if current.value != head {
        var migrated := RunMigrations(upgradeOk);
        if migrated.Err? {
          return Err(migrated.error);
        }
        r := Ok(Upgrade);
      } else {
        r := Ok(NoOp);
      }
      sessionReady := true;
    }

    /** A new session, or the "connection not established" error until the session
        factory is set. */
    method GetSession() returns (r: Result<Session, StorageError>)
      requires Valid()
      ensures r.Ok? <==> sessionReady
      ensures r.Err? ==> r.error == ConnectionNotEstablished
      ensures r.Ok? ==> engine.Some? && r.value == Session(engine.value)
    {
      if !sessionReady {
        return Err(ConnectionNotEstablished);
      }
      r := Ok(Session(engine.value));
    }

    /** Where a camera's recordings are written: the recordings directory of the first
        recordings tier (None stands for the IndexError of an empty tier list). */
    function RecordingsPath(camera: Camera): (p: Option<string>)
      ensures p.Some? <==> |config.recordingsTiers| > 0
      ensures p.Some? ==> p.value == recordingsPathOf(config.recordingsTiers[0], camera)
    {
      if |config.recordingsTiers| == 0 then None
      else Some(recordingsPathOf(config.recordingsTiers[0], camera))
    }

    /** Where a camera's segments are written: the segments directory of the first
        recordings tier (None stands for the IndexError of an empty tier list). */
    function SegmentsPath(camera: Camera): (p: Option<string>)
      ensures p.Some? <==> |config.recordingsTiers| > 0
      ensures p.Some? ==> p.value == segmentsPathOf(config.recordingsTiers[0], camera)
    {
      if |config.recordingsTiers| == 0 then None
      else Some(segmentsPathOf(config.recordingsTiers[0], camera))
    }

    /** The tier handlers started for a newly registered camera, in the order they are
        constructed: category by category, tier by tier, subcategory by subcategory. */
    method CameraRegistered(camera: Camera) returns (handlers: seq<HandlerSpec>)
      ensures handlers == Expand(camera, config)
    {
      handlers := [];
      for k := 0 to |Categories|
        invariant handlers == ExpandCategories(camera, config, Categories[..k])
      {
        var category := Categories[k];
        var tiers := CategoryTiers(config, category);
        ghost var before := handlers;
        for index := 0 to |tiers|
          invariant handlers == before + ChainUpTo(camera, category, tiers, index)
        {
          var nextTier: Option<Tier>;
          if index == |tiers| - 1 {
            nextTier := None;
          } else {
            nextTier := Some(tiers[index + 1]);
          }
          assert nextTier == NextTier(tiers, index);
          var tier := tiers[index];
          var subs := Subcategories(category);
          ghost var start := handlers;
          for j := 0 to |subs|
            invariant handlers == start + TierBlock(camera, category, tiers, index)[..j]
          {
            handlers := handlers + [HandlerSpec(camera, index, category, subs[j], tier, nextTier)];
            ghost var block := TierBlock(camera, category, tiers, index);
            assert block[j] == HandlerSpec(camera, index, category, subs[j], tier, nextTier);
            assert block[..j + 1] == block[..j] + [block[j]];
          }
          assert TierBlock(camera, category, tiers, index)[..|subs|] == TierBlock(camera, category, tiers, index);
        }
        assert Categories[..k + 1][..k] == Categories[..k];
      }
      assert Categories[..|Categories|] == Categories;
    }

    /** Releases the engine's connections at shutdown. The session factory is left as
        it is. */
    method Shutdown()
      requires Valid()
      modifies this`engine
      ensures Valid()
      ensures engine == if old(engine).Some? then Some(old(engine).value.(disposed := true)) else None
      ensures rev == old(rev) && sessionReady == old(sessionReady)
    {
      if engine.Some? {
        engine := Some(engine.value.(disposed := true));
      }
    }
  }

  /** Sets the storage component up: builds the Storage object over a metadata store
      that holds `storedRev` and bootstraps the schema. A failed connection or a failed
      upgrade makes the set-up raise; a failed creation is logged and start-up continues. */
  method Setup(config: StorageConfig, head: Rev, storedRev: Option<Rev>,
               recordingsPathOf: (Tier, Camera) -> string, segmentsPathOf: (Tier, Camera) -> string,
               connectOk: bool, createOk: bool, upgradeOk: bool)
    returns (r: Result<Storage, StorageError>)
    ensures r.Err? <==> BootstrapFails(storedRev, head, connectOk, upgradeOk)
    ensures r.Err? ==> r.error == (if connectOk then UpgradeFailed else ConnectionFailed)
    ensures r.Ok? ==> fresh(r.value) && r.value.Valid()
                      && r.value.config == config && r.value.head == head
                      && r.value.sessionReady
                      && r.value.rev == RevisionAfter(storedRev, head, connectOk, createOk, upgradeOk)
  {
    var storage := new Storage(config, head, storedRev, recordingsPathOf, segmentsPathOf);
    var bootstrapped := storage.CreateDatabase(connectOk, createOk, upgradeOk);
    if bootstrapped.Err? {
      return Err(bootstrapped.error);
    }
    r := Ok(storage);
  }

  /** A camera's new files are written into the tier that its first handlers watch:
      segments into the tier of the first (segments) handler, recordings into the tier
      of the second (recordings) handler. */
  lemma WritePathsFollowFirstHandlers(storage: Storage, camera: Camera)
    requires |storage.config.recordingsTiers| > 0
    ensures var handlers := Expand(camera, storage.config);
            |handlers| >= 2
            && handlers[0].subcategory == Segments && handlers[1].subcategory == Recordings
            && storage.SegmentsPath(camera) == Some(storage.segmentsPathOf(handlers[0].tier, camera))
            && storage.RecordingsPath(camera) == Some(storage.recordingsPathOf(handlers[1].tier, camera))
  {
    ExpandAt(camera, storage.config, RecordingsCategory, 0, 0);
    ExpandAt(camera, storage.config, RecordingsCategory, 0, 1);
  }

  /** Two start-ups over the same store: the first creates a fresh store and stamps it at
      head, the second, over the revision the first left, takes the no-op branch once it
      connects, and hands out sessions exactly then. */
  method RestartAfterFreshCreate(config: StorageConfig, head: Rev,
                                 recordingsPathOf: (Tier, Camera) -> string, segmentsPathOf: (Tier, Camera) -> string,
                                 connectOk': bool, createOk': bool, upgradeOk': bool)
    returns (first: Result<Branch, StorageError>, second: Result<Branch, StorageError>, sessions: bool)
    ensures first == Ok(CreateNew)
    ensures second == (if connectOk' then Ok(NoOp) else Err(ConnectionFailed))
    ensures sessions == connectOk'
  {
    var s := new Storage(config, head, None, recordingsPathOf, segmentsPathOf);
    first := s.CreateDatabase(true, true, true);
    var restarted := new Storage(config, head, s.rev, recordingsPathOf, segmentsPathOf);
    second := restarted.CreateDatabase(connectOk', createOk', upgradeOk');
    var got := restarted.GetSession();
    sessions := got.Ok?;
  }

  /** A start-up whose creation fails still sets the session factory, so sessions can be
      had; the store keeps no revision and the next start-up tries to create it again. */
  method StartAfterFailedCreate(config: StorageConfig, head: Rev,
                                recordingsPathOf: (Tier, Camera) -> string, segmentsPathOf: (Tier, Camera) -> string)
    returns (first: Result<Branch, StorageError>, storedRev: Option<Rev>, sessions: bool, next: Result<Branch, StorageError>)
    ensures first == Ok(CreateNew) && storedRev == None && sessions && next == Ok(CreateNew)
  {
    var s := new Storage(config, head, None, recordingsPathOf, segmentsPathOf);
    first := s.CreateDatabase(true, false, true);
    storedRev := s.rev;
    var got := s.GetSession();
    sessions := got.Ok?;
    var restarted := new Storage(config, head, storedRev, recordingsPathOf, segmentsPathOf);
    next := restarted.CreateDatabase(true, true, true);
  }
}
