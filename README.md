# Viseron storage component: tier chains, handler dispatch and schema bootstrap

This project models the core of Viseron's storage component
(`viseron/components/storage/__init__.py`). Viseron keeps camera media in a chain of
storage tiers. Files move from one tier to the next as they age or as a tier fills up,
and the last tier deletes them. The component does three things, and the model covers
each of them:

- **Tier-chain validation** (`validate_tiers`, module `Tiers`). One pass over the
  recordings tiers rejects a reserved path (`/tmp` or Viseron's scratch directory
  `/tmp/viseron`), a path used twice, and a tier after the first whose max age is
  limited but not longer than its predecessor's. The loop is the method
  `ValidateTiers`. It is proved against the declarative predicate `ValidChain`. On
  failure it returns the list's first fault. `FirstFault` defines that fault from the
  end of the list, and `Rejection` gives the error one tier earns after the tiers
  before it.
- **Per-camera handler dispatch** (`TIER_CATEGORIES` and `_camera_registered`, modules
  `Dispatch` and `StorageComponent`). Registering a camera builds one tier handler per
  category, tier and subcategory. `Storage.CameraRegistered` runs the three nested
  loops and returns the handler specifications in construction order. It is proved
  equal to the function `Expand`. Lemmas about `Expand` give the count, the position of
  every handler, its tier and its next tier (None, meaning delete, for the last tier).
- **Schema bootstrap** (`create_database`, `_create_new_db`, `_run_migrations`,
  `get_session`, `_shutdown`, modules `Schema` and `StorageComponent`). The class
  `Storage` holds the engine, the recorded schema revision and whether the session
  factory is set. The start-up decision is the pure pair `BranchFor` / `RevisionAfter`,
  and the lemmas prove idempotence about them.

Some things are outside this code's reach and are inputs to the model:

- The outcomes of the database library calls are boolean parameters. `connectOk` says
  whether connecting and reading the recorded revision succeeded. `createOk` says
  whether table creation and stamping succeeded. `upgradeOk` says whether the upgrade
  did.
- The revision held by the store is a constructor argument.
- The head revision of the migration scripts is a constant of the object.
- The helpers that turn a tier and a camera into a directory are function-valued
  constants.
- A tier's `max_age` is a whole number of seconds, and 0 means "no limit".

Where the component's documented design and its code differ, the model follows the code:

- Only the recordings tiers are validated. Snapshots tiers are never inspected.
- A tier with no age limit may be followed by any tier. Nothing forces it to be last.
- The first tier's age is never compared.
- Every subcategory gets its category's own tier list. The per-domain snapshots
  overrides in the configuration are not consulted when handlers are built.
- A failed table creation is logged and start-up continues. The store is then left
  without a revision, and the session factory is still set.
- `_shutdown` disposes the engine but leaves the session factory in place.

## Model

| member | source | states |
|---|---|---|
| Tiers.ValidateTiers | viseron/components/storage/__init__.py:46-85 | succeeds exactly when the recordings chain is valid and then returns the configuration unchanged; on failure the error is the list's first fault |
| Tiers.ExtendValid | viseron/components/storage/__init__.py:57-84 | appending a tier to a valid chain keeps it valid iff the tier is not reserved, its path is new, and it is the first tier or has no age limit or a strictly longer one |
| Tiers.FaultFreeIffValid | viseron/components/storage/__init__.py:57-84 | a tier list has no fault exactly when it is a valid chain |
| Tiers.FirstFaultWitness | viseron/components/storage/__init__.py:57-84 | the reported fault is the rejection of a tier whose predecessors form a valid chain |
| Tiers.FaultFound | viseron/components/storage/__init__.py:57-84 | the first tier rejected after a fault-free prefix decides the error, whatever tiers follow it |
| Tiers.UnlimitedTierMayBeFollowed | viseron/components/storage/__init__.py:71-84 | a tier with max age 0 places no constraint on its successor |
| Tiers.SnapshotsTiersNotValidated | viseron/components/storage/__init__.py:53-57 | changing the snapshots tiers and overrides changes neither the verdict nor the error of validation |
| Tiers.SampleChains | viseron/components/storage/__init__.py:58-83 | duplicate, shrinking-age and reserved-path chains are rejected with the right error; the reserved test comes before the age and duplicate tests; an earlier fault wins over a later one; an unlimited last tier and an unlimited tier followed by a limited one are accepted |
| Tiers.DefaultConfigValid | viseron/components/storage/const.py:39-46 | the default chain (one tier at `/` keeping 7 days) is valid |
| Dispatch.Subcategories | viseron/components/storage/__init__.py:108-117 | each category has two subcategories |
| Dispatch.ChainUpToLength | viseron/components/storage/__init__.py:225-240 | a category's tiers yield two handlers per tier |
| Dispatch.ChainUpToAt | viseron/components/storage/__init__.py:225-240 | handler `2i+j` of a category is tier `i` with subcategory `j`, the category's tier `i` and the next tier or None for the last |
| Dispatch.ExpandLength | viseron/components/storage/__init__.py:219-240 | a camera gets 2·(recordings tiers) + 2·(snapshots tiers) handlers |
| Dispatch.ExpandAt | viseron/components/storage/__init__.py:223-240 | emission order: recordings handlers first, then snapshots, tier by tier, subcategories in their fixed order; each with its category's tier and next tier |
| Dispatch.HandlerLinks | viseron/components/storage/__init__.py:224-229 | every handler's tier is its category's tier at its index; its next tier is the following tier of the same list, None exactly for the last tier |
| Dispatch.ExpandComplete | viseron/components/storage/__init__.py:223-240 | every (category, tier, subcategory) combination gets its handler |
| Schema.BranchCases | viseron/components/storage/__init__.py:198-202 | no revision → create; revision other than head → upgrade; revision equal to head → no-op |
| Schema.BootstrapReachesHead | viseron/components/storage/__init__.py:175-202 | when the connection, the creation and the upgrade succeed the store ends at head |
| Schema.NoPartialAdvance | viseron/components/storage/__init__.py:181-201 | the revision only ever moves to head; a bootstrap that raises leaves it where it was (a failed connection by the code, a failed upgrade by the assumption listed under Left out) |
| Schema.BootstrapIdempotent | viseron/components/storage/__init__.py:187-203 | after a bootstrap that reached head, the next one takes the no-op branch and changes nothing, and it can then raise only when it fails to connect |
| Schema.FailedCreateRetried | viseron/components/storage/__init__.py:181-185 | a swallowed creation failure leaves no revision, so the next start-up creates again |
| StorageComponent.Storage.constructor | viseron/components/storage/__init__.py:135-142 | a new object has no engine and no session factory |
| StorageComponent.Storage.CreateNewDb | viseron/components/storage/__init__.py:175-185 | raises without an engine; otherwise stamps head on success and swallows a failure, leaving the revision |
| StorageComponent.Storage.RunMigrations | viseron/components/storage/__init__.py:166-173 | a successful upgrade leaves the store at head; a failed one raises |
| StorageComponent.Storage.CreateDatabase | viseron/components/storage/__init__.py:187-203 | opens the engine; raises the connection error when it cannot connect and read the revision, and the upgrade error when a needed upgrade fails; otherwise takes exactly the branch the revision calls for; ends at the revision `RevisionAfter` gives, sets the session factory when it did not raise and otherwise leaves it as it was; once connected at head it is a no-op |
| StorageComponent.Storage.GetSession | viseron/components/storage/__init__.py:205-209 | returns a session bound to the engine iff the session factory is set, else the "connection not established" error |
| StorageComponent.Storage.RecordingsPath | viseron/components/storage/__init__.py:211-213 | the recordings directory derived from recordings tier 0; an error for an empty tier list |
| StorageComponent.Storage.SegmentsPath | viseron/components/storage/__init__.py:215-217 | the segments directory derived from recordings tier 0; an error for an empty tier list |
| StorageComponent.Storage.CameraRegistered | viseron/components/storage/__init__.py:219-240 | returns exactly the handler specifications of `Expand`, in construction order |
| StorageComponent.Storage.Shutdown | viseron/components/storage/__init__.py:242-245 | disposes an existing engine and changes nothing else |
| StorageComponent.Setup | viseron/components/storage/__init__.py:120-144 | set-up fails exactly when the connection fails or a needed upgrade fails, with the matching error; otherwise the object has its session factory and the revision `RevisionAfter` gives |
| StorageComponent.WritePathsFollowFirstHandlers | viseron/components/storage/__init__.py:211-240 | new segments and recordings are written into the tier watched by the first segments and recordings handlers |
| StorageComponent.RestartAfterFreshCreate | viseron/components/storage/__init__.py:187-209 | a fresh store is created at the first start-up; the restart over the stamped store is a no-op and hands out sessions exactly when it connects, and otherwise raises the connection error |
| StorageComponent.StartAfterFailedCreate | viseron/components/storage/__init__.py:181-209 | a failed creation leaves no revision, sessions are still available, and the next start-up creates again |

## Left out

- Tier handlers themselves (file watching, polling, throttled moves, move on shutdown,
  eviction by size and age): `tier_handler.py` is not part of this model. The model stops
  at the specifications the handlers are constructed with.
- The age helper `calculate_age` is not part of this model. Its result, a floating-point
  number of seconds, is abstracted to a whole number of seconds.
- `util.get_recordings_path` and `util.get_segments_path` are not part of this model.
  They are the function-valued constants `recordingsPathOf` and `segmentsPathOf`.
- The database libraries (engine creation, connection, migration context, table
  creation, stamping, upgrade, scoped sessions) are foreign calls. Their outcomes are
  parameters, and a session is a value bound to the engine.
- StorageComponent.Storage.CreateDatabase: a failure of `create_engine` itself is folded
  into the connection failure, so the model leaves the new engine set where the code
  would leave the attribute as it was; engine creation and connection are one foreign step
  here.
- Schema.NoPartialAdvance: its failed-upgrade clause holds only by the assumption below,
  because the migration environment that runs the upgrade is not part of this model.
- StorageComponent.Storage.RunMigrations: assumes that a failed upgrade leaves the
  recorded revision unchanged, because the upgrade's transaction handling belongs to the
  migration library.
- StorageComponent.Storage.CreateNewDb: treats table creation and stamping as one step.
  Tables created before a failed stamp are not represented, because the model has no tables.
- `_get_alembic_config`, the event-bus wiring (`listen_event`, `register_signal_handler`),
  logging and `StreamToLogger` are plumbing with no logic to model.
- The voluptuous schemas (`CONFIG_SCHEMA`, `STORAGE_SCHEMA`) are left out. Only their
  `validate_tiers` step is modelled.
- Tier settings other than path and max age are left out, because validation and dispatch
  only pass them on.
- Concurrency between handlers and across processes is not modelled.
