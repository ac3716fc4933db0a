/**
 * The expansion of a storage configuration into tier handlers when a camera is
 * registered (`TIER_CATEGORIES` and `Storage._camera_registered`): one handler per
 * category, tier and subcategory, each moving files from its tier to the next tier,
 * or deleting them from the last one.
 */
module Dispatch {
  import opened Wrappers
  import opened Tiers

  /** A camera, by its identifier. */
  type Camera = string

  datatype Category = RecordingsCategory | SnapshotsCategory

  datatype Subcategory = Segments | Recordings | FaceRecognition | ObjectDetection

  /** The categories in the order the registration visits them. */
  const Categories: seq<Category> := [RecordingsCategory, SnapshotsCategory]

  /** The subcategories of each category, in order. */
  function Subcategories(category: Category): (subs: seq<Subcategory>)
    ensures |subs| == 2
  {
    match category
    case RecordingsCategory => [Segments, Recordings]
    case SnapshotsCategory => [FaceRecognition, ObjectDetection]
  }

  /** The tier list a category's handlers are built from: the category's own list,
      whatever per-subcategory overrides the configuration holds. */
  function CategoryTiers(config: StorageConfig, category: Category): seq<Tier> {
    match category
    case RecordingsCategory => config.recordingsTiers
    case SnapshotsCategory => config.snapshotsTiers
  }

  /** What one tier handler is constructed with. A `nextTier` of None means that the
      handler deletes files instead of moving them. */
  datatype HandlerSpec = HandlerSpec(
    camera: Camera,
    index: nat,
    category: Category,
    subcategory: Subcategory,
    tier: Tier,
    nextTier: Option<Tier>)

  /** The tier after tier `index`, or None for the last tier. */
  function NextTier(tiers: seq<Tier>, index: nat): Option<Tier>
    requires index < |tiers|
  {
    if index == |tiers| - 1 then None else Some(tiers[index + 1])
  }

  /** The handlers of tier `index` of a category, one per subcategory. */
  function TierBlock(camera: Camera, category: Category, tiers: seq<Tier>, index: nat): seq<HandlerSpec>
    requires index < |tiers|
  {
    var subs := Subcategories(category);
    seq(|subs|, j requires 0 <= j < |subs| =>
      HandlerSpec(camera, index, category, subs[j], tiers[index], NextTier(tiers, index)))
  }

  /** The handlers of the first `n` tiers of a category, tier by tier. */
  function ChainUpTo(camera: Camera, category: Category, tiers: seq<Tier>, n: nat): seq<HandlerSpec>
    requires n <= |tiers|
  {
    if n == 0 then [] else ChainUpTo(camera, category, tiers, n - 1) + TierBlock(camera, category, tiers, n - 1)
  }

  /** The handlers of the listed categories, category by category. */
  function ExpandCategories(camera: Camera, config: StorageConfig, cats: seq<Category>): seq<HandlerSpec> {
    if cats == [] then []
    else
      var c := cats[|cats| - 1];
      var tiers := CategoryTiers(config, c);
      ExpandCategories(camera, config, cats[..|cats| - 1]) + ChainUpTo(camera, c, tiers, |tiers|)
  }

  /** All handlers registered for one camera, in the order they are constructed. */
  function Expand(camera: Camera, config: StorageConfig): seq<HandlerSpec> {
    ExpandCategories(camera, config, Categories)
  }

  /** Handler `2 * i + j` of a category's chain serves tier `i` and subcategory `j`. */
  lemma {:induction false} ChainUpToAt(camera: Camera, category: Category, tiers: seq<Tier>, n: nat, i: nat, j: nat)
    requires n <= |tiers| && i < n && j < 2
    ensures |ChainUpTo(camera, category, tiers, n)| == 2 * n
    ensures ChainUpTo(camera, category, tiers, n)[2 * i + j]
         == HandlerSpec(camera, i, category, Subcategories(category)[j], tiers[i], NextTier(tiers, i))
  {
    ChainUpToLength(camera, category, tiers, n - 1);
    if i < n - 1 {
      ChainUpToAt(camera, category, tiers, n - 1, i, j);
    }
  }

  /** A category's chain holds two handlers per tier. */
  lemma {:induction false} ChainUpToLength(camera: Camera, category: Category, tiers: seq<Tier>, n: nat)
    requires n <= |tiers|
    ensures |ChainUpTo(camera, category, tiers, n)| == 2 * n
  {
    if n > 0 {
      ChainUpToLength(camera, category, tiers, n - 1);
    }
  }

  /** A camera gets two handlers per recordings tier and two per snapshots tier. */
  lemma ExpandLength(camera: Camera, config: StorageConfig)
    ensures |Expand(camera, config)| == 2 * |config.recordingsTiers| + 2 * |config.snapshotsTiers|
  {
    var rec, snap := config.recordingsTiers, config.snapshotsTiers;
    ChainUpToLength(camera, RecordingsCategory, rec, |rec|);
    ChainUpToLength(camera, SnapshotsCategory, snap, |snap|);
    ExpandUnfold(camera, config);
  }

  lemma ExpandUnfold(camera: Camera, config: StorageConfig)
    ensures Expand(camera, config)
         == ChainUpTo(camera, RecordingsCategory, config.recordingsTiers, |config.recordingsTiers|)
          + ChainUpTo(camera, SnapshotsCategory, config.snapshotsTiers, |config.snapshotsTiers|)
  {
    var rec, snap := config.recordingsTiers, config.snapshotsTiers;
    assert Categories[..1] == [RecordingsCategory];
    assert Categories[..1][..0] == [];
    assert ExpandCategories(camera, config, Categories[..1])
        == [] + ChainUpTo(camera, RecordingsCategory, rec, |rec|);
    assert Expand(camera, config)
        == ExpandCategories(camera, config, Categories[..1]) + ChainUpTo(camera, SnapshotsCategory, snap, |snap|);
  }

  /** The emission order: first every recordings handler, tier by tier and, within a tier,
      segments before recordings; then every snapshots handler, tier by tier,
      face recognition before object detection. Each handler gets its category's tier
      at its index, and the next tier of that same list or None for the last tier. */
  lemma ExpandAt(camera: Camera, config: StorageConfig, category: Category, i: nat, j: nat)
    requires i < |CategoryTiers(config, category)| && j < 2
    ensures var tiers := CategoryTiers(config, category);
            var offset := if category == RecordingsCategory then 0 else 2 * |config.recordingsTiers|;
            offset + 2 * i + j < |Expand(camera, config)|
            && Expand(camera, config)[offset + 2 * i + j]
               == HandlerSpec(camera, i, category, Subcategories(category)[j], tiers[i], NextTier(tiers, i))
  {
    var rec, snap := config.recordingsTiers, config.snapshotsTiers;
    ExpandUnfold(camera, config);
    ChainUpToLength(camera, RecordingsCategory, rec, |rec|);
    ChainUpToLength(camera, SnapshotsCategory, snap, |snap|);
    var tiers := CategoryTiers(config, category);
    ChainUpToAt(camera, category, tiers, |tiers|, i, j);
  }

  /** Every handler is for the registered camera, serves a tier of its own category's
      list, and moves files to the next tier of that list; exactly the handlers of the
      last tier delete. */
  lemma HandlerLinks(camera: Camera, config: StorageConfig, p: nat)
    requires p < |Expand(camera, config)|
    ensures var h := Expand(camera, config)[p];
            var tiers := CategoryTiers(config, h.category);
            && h.camera == camera
            && h.index < |tiers|
            && h.subcategory in Subcategories(h.category)
            && h.tier == tiers[h.index]
            && (h.nextTier.None? <==> h.index == |tiers| - 1)
            && (h.nextTier.Some? ==> h.nextTier.value == tiers[h.index + 1])
  {
    var rec, snap := config.recordingsTiers, config.snapshotsTiers;
    ExpandLength(camera, config);
    if p < 2 * |rec| {
      ExpandAt(camera, config, RecordingsCategory, p / 2, p % 2);
    } else {
      var q := p - 2 * |rec|;
      ExpandAt(camera, config, SnapshotsCategory, q / 2, q % 2);
    }
  }

  /** Every (category, tier, subcategory) combination has its handler. */
  lemma ExpandComplete(camera: Camera, config: StorageConfig, category: Category, i: nat, subcategory: Subcategory)
    requires i < |CategoryTiers(config, category)|
    requires subcategory in Subcategories(category)
    ensures var tiers := CategoryTiers(config, category);
            HandlerSpec(camera, i, category, subcategory, tiers[i], NextTier(tiers, i)) in Expand(camera, config)
  {
    var j := if Subcategories(category)[0] == subcategory then 0 else 1;
    ExpandAt(camera, config, category, i, j);
  }
}
