/**
 * The storage component's configuration and its tier-chain validator
 * (`validate_tiers` in viseron/components/storage/__init__.py).
 *
 * A tier is one storage location. Files move from one tier to the next when they
 * reach its max age or max size, and are deleted from the last tier.
 */
module Tiers {
  import opened Wrappers

  /** One configured tier. `maxAge` is the tier's `max_age` in whole seconds, as the
      age helper computes it; 0 means that the tier sets no age limit. The tier's
      other settings (poll, move_on_shutdown, sizes, min_age) only matter to the
      tier handlers and are not part of this model. */
  datatype Tier = Tier(path: string, maxAge: nat)

  /** The storage component's configuration: the recordings tiers, the default
      snapshots tiers and the two optional per-domain snapshots overrides. */
  datatype StorageConfig = StorageConfig(
    recordingsTiers: seq<Tier>,
    snapshotsTiers: seq<Tier>,
    faceRecognitionTiers: Option<seq<Tier>>,
    objectDetectionTiers: Option<seq<Tier>>)

  /** Viseron's scratch directory, `TEMP_DIR`. */
  const TempDir: string := "/tmp/viseron"

  const SecondsPerDay: nat := 86400

  /** The default tier chain of both categories: one tier at `/` keeping files 7 days. */
  function DefaultTiers(): seq<Tier> {
    [Tier("/", 7 * SecondsPerDay)]
  }

  function DefaultConfig(): StorageConfig {
    StorageConfig(DefaultTiers(), DefaultTiers(), None, None)
  }

  /** The paths no tier may use. */
  const ReservedPaths: seq<string> := ["/tmp", TempDir]

  predicate Reserved(path: string) {
    path in ReservedPaths
  }

  /** The paths of a tier list, in order. */
  function Paths(tiers: seq<Tier>): (ps: seq<string>)
    ensures |ps| == |tiers|
    ensures forall i :: 0 <= i < |tiers| ==> ps[i] == tiers[i].path
  {
    seq(|tiers|, i requires 0 <= i < |tiers| => tiers[i].path)
  }

  /** A tier may follow `previous` when it has no age limit or keeps files strictly
      longer. Nothing is asked of a `previous` without an age limit beyond that. */
  predicate AgeIncreases(previous: Tier, tier: Tier) {
    tier.maxAge == 0 || tier.maxAge > previous.maxAge
  }

  /** What a valid recordings tier chain is: no reserved path, no path used twice, and
      every tier after the first keeps files longer than its predecessor or without limit. */
  predicate ValidChain(tiers: seq<Tier>) {
    && (forall i :: 0 <= i < |tiers| ==> !Reserved(tiers[i].path))
    && (forall i, j :: 0 <= i < j < |tiers| ==> tiers[i].path != tiers[j].path)
    && (forall i :: 0 < i < |tiers| ==> AgeIncreases(tiers[i - 1], tiers[i]))
  }

  /** The three rejections; each names the path of the offending tier. */
  datatype TierError =
    | ReservedPath(path: string)
    | DefinedMultipleTimes(path: string)
    | MaxAgeNotGreater(path: string)

  /** The error, if any, that `tier` earns when it follows the tiers `prefix`:
      the reserved-path test comes first, then the duplicate test, then the age test,
      which the first tier never takes. */
  function Rejection(prefix: seq<Tier>, tier: Tier): Option<TierError> {
    if Reserved(tier.path) then Some(ReservedPath(tier.path))
    else if tier.path in Paths(prefix) then Some(DefinedMultipleTimes(tier.path))
    else if |prefix| > 0 && !AgeIncreases(prefix[|prefix| - 1], tier) then Some(MaxAgeNotGreater(tier.path))
    else None
  }

  /** A valid chain stays valid after one more tier exactly when that tier is not rejected. */
  lemma ExtendValid(prefix: seq<Tier>, tier: Tier)
    requires ValidChain(prefix)
    ensures ValidChain(prefix + [tier]) <==> Rejection(prefix, tier).None?
  {
    var s := prefix + [tier];
    var n := |prefix|;
    if Rejection(prefix, tier).None? {
      forall i, j | 0 <= i < j < |s| ensures s[i].path != s[j].path {
        if j == n {
          assert Paths(prefix)[i] == s[i].path;
        }
      }
    } else if Reserved(tier.path) {
      assert !Reserved(s[n].path) ==> false;
    } else if tier.path in Paths(prefix) {
      var i :| 0 <= i < n && Paths(prefix)[i] == tier.path;
      assert s[i].path == s[n].path;
    } else {
      assert !AgeIncreases(s[n - 1], s[n]);
    }
  }

  /** Every prefix of a valid chain is valid. */
  lemma PrefixValid(tiers: seq<Tier>, k: nat)
    requires k <= |tiers|
    requires ValidChain(tiers)
    ensures ValidChain(tiers[..k])
  {
  }

  /** The error validation reports for a tier list: that of the first tier rejected
      after the tiers before it, or None when no tier is. */
  function FirstFault(tiers: seq<Tier>): Option<TierError> {
    if tiers == [] then None
    else
      var prefix := tiers[..|tiers| - 1];
      var earlier := FirstFault(prefix);
      if earlier.Some? then earlier else Rejection(prefix, tiers[|tiers| - 1])
  }

  /** A list has no fault exactly when it is a valid chain. */
  lemma {:induction false} FaultFreeIffValid(tiers: seq<Tier>)
    ensures FirstFault(tiers).None? <==> ValidChain(tiers)
  {
    if tiers != [] {
      var n := |tiers|;
      var prefix := tiers[..n - 1];
      FaultFreeIffValid(prefix);
      assert prefix + [tiers[n - 1]] == tiers;
      if FirstFault(prefix).Some? {
        if ValidChain(tiers) {
          PrefixValid(tiers, n - 1);
        }
      } else {
        ExtendValid(prefix, tiers[n - 1]);
      }
    }
  }

  /** The fault a list has is the rejection of a tier whose predecessors form a valid chain. */
  lemma {:induction false} FirstFaultWitness(tiers: seq<Tier>)
    requires FirstFault(tiers).Some?
    ensures exists k :: 0 <= k < |tiers| && ValidChain(tiers[..k]) && Rejection(tiers[..k], tiers[k]) == FirstFault(tiers)
  {
    var n := |tiers|;
    var prefix := tiers[..n - 1];
    if FirstFault(prefix).Some? {
      FirstFaultWitness(prefix);
      var k :| 0 <= k < n - 1 && ValidChain(prefix[..k]) && Rejection(prefix[..k], prefix[k]) == FirstFault(prefix);
      assert prefix[..k] == tiers[..k];
    } else {
      FaultFreeIffValid(prefix);
      assert ValidChain(tiers[..n - 1]);
    }
  }

  /** A tier without an age limit does not have to be last: any tier with a fresh,
      unreserved path may follow it. */
  lemma UnlimitedTierMayBeFollowed(prefix: seq<Tier>, tier: Tier)
    requires ValidChain(prefix) && |prefix| > 0 && prefix[|prefix| - 1].maxAge == 0
    requires !Reserved(tier.path) && tier.path !in Paths(prefix)
    ensures ValidChain(prefix + [tier])
  {
    ExtendValid(prefix, tier);
  }

  /** The configuration validator run when the configuration is loaded. It inspects the
      recordings tiers only, in order, and either returns the configuration unchanged or
      the error of the first faulty tier. */
  method ValidateTiers(config: StorageConfig) returns (r: Result<StorageConfig, TierError>)
    ensures r.Ok? <==> ValidChain(config.recordingsTiers)
    ensures r.Ok? ==> r.value == config
    ensures r.Err? ==> FirstFault(config.recordingsTiers) == Some(r.error)
  {
    var tiers := config.recordingsTiers;
    var previous: Option<Tier> := None;
    var paths: seq<string> := [];
    for i := 0 to |tiers|
      invariant paths == Paths(tiers[..i])
      invariant previous == if i == 0 then None else Some(tiers[i - 1])
      invariant FirstFault(tiers[..i]) == None
    {
      var tier := tiers[i];
      if tier.path in ReservedPaths {
        r := Err(ReservedPath(tier.path));
        FaultFound(tiers, i);
        FaultFreeIffValid(tiers);
        return;
      }
      if tier.path in paths {
        r := Err(DefinedMultipleTimes(tier.path));
        FaultFound(tiers, i);
        FaultFreeIffValid(tiers);
        return;
      }
      paths := paths + [tier.path];
      if previous.None? {
        previous := Some(tier);
        FaultFreeStep(tiers, i);
        continue;
      }
      if tier.maxAge > 0 && tier.maxAge <= previous.value.maxAge {
        r := Err(MaxAgeNotGreater(tier.path));
        FaultFound(tiers, i);
        FaultFreeIffValid(tiers);
        return;
      }
      previous := Some(tier);
      FaultFreeStep(tiers, i);
    }
    assert tiers[..|tiers|] == tiers;
    FaultFreeIffValid(tiers);
    r := Ok(config);
  }

  /** One more tier that is not rejected keeps a list fault-free. */
  lemma FaultFreeStep(tiers: seq<Tier>, k: nat)
    requires k < |tiers|
    requires FirstFault(tiers[..k]) == None && Rejection(tiers[..k], tiers[k]) == None
    ensures FirstFault(tiers[..k + 1]) == None && Paths(tiers[..k + 1]) == Paths(tiers[..k]) + [tiers[k].path]
  {
    assert tiers[..k + 1][..k] == tiers[..k];
  }

  /** A tier rejected after a fault-free prefix is the list's first fault, whatever
      tiers follow it. */
  lemma {:induction false} FaultFound(tiers: seq<Tier>, k: nat)
    requires k < |tiers|
    requires FirstFault(tiers[..k]) == None && Rejection(tiers[..k], tiers[k]).Some?
    ensures FirstFault(tiers) == Rejection(tiers[..k], tiers[k])
  {
    var n := |tiers|;
    var prefix := tiers[..n - 1];
    if k == n - 1 {
      assert prefix == tiers[..k];
    } else {
      assert prefix[..k] == tiers[..k] && prefix[k] == tiers[k];
      FaultFound(prefix, k);
    }
  }

  /** Validation looks at the recordings tiers only: replacing the snapshots tiers and
      the per-domain overrides by anything, faulty or not, changes neither the verdict
      nor the error. */
  method SnapshotsTiersNotValidated(config: StorageConfig, snapshotsTiers: seq<Tier>,
                                    faceRecognitionTiers: Option<seq<Tier>>,
                                    objectDetectionTiers: Option<seq<Tier>>)
    returns (r: Result<StorageConfig, TierError>, r': Result<StorageConfig, TierError>)
    ensures r.Ok? <==> r'.Ok?
    ensures r.Err? ==> r'.Err? && r.error == r'.error
  {
    r := ValidateTiers(config);
    var other := config.(snapshotsTiers := snapshotsTiers,
                         faceRecognitionTiers := faceRecognitionTiers,
                         objectDetectionTiers := objectDetectionTiers);
    r' := ValidateTiers(other);
  }

  /** Sample chains: a repeated path, a shrinking age, reserved paths (the reserved test
      coming before the age and duplicate tests), an earlier fault winning over a later
      one, an unlimited last tier and an unlimited tier followed by a limited one. */
  lemma SampleChains()
    ensures FirstFault([Tier("/a", 3 * SecondsPerDay), Tier("/a", 7 * SecondsPerDay)])
         == Some(DefinedMultipleTimes("/a"))
    ensures FirstFault([Tier("/a", 7 * SecondsPerDay), Tier("/b", 3 * SecondsPerDay)])
         == Some(MaxAgeNotGreater("/b"))
    ensures FirstFault([Tier("/tmp", 7 * SecondsPerDay)]) == Some(ReservedPath("/tmp"))
    ensures FirstFault([Tier("/a", 7 * SecondsPerDay), Tier(TempDir, 3 * SecondsPerDay)])
         == Some(ReservedPath(TempDir))
    ensures Rejection([Tier(TempDir, 7 * SecondsPerDay)], Tier(TempDir, 9 * SecondsPerDay))
         == Some(ReservedPath(TempDir))
    ensures FirstFault([Tier("/a", 7 * SecondsPerDay), Tier("/b", 3 * SecondsPerDay), Tier("/a", 9 * SecondsPerDay)])
         == Some(MaxAgeNotGreater("/b"))
    ensures FirstFault([Tier("/a", 3 * SecondsPerDay), Tier("/b", 0)]) == None
    ensures FirstFault([Tier("/a", 0), Tier("/b", 3 * SecondsPerDay)]) == None
  {
    var a3, a7, a9 := Tier("/a", 3 * SecondsPerDay), Tier("/a", 7 * SecondsPerDay), Tier("/a", 9 * SecondsPerDay);
    var b0, b3, t3 := Tier("/b", 0), Tier("/b", 3 * SecondsPerDay), Tier(TempDir, 3 * SecondsPerDay);
    assert [a3, a7][..1] == [a3] && [a3][..0] == [];
    assert [a7, b3][..1] == [a7] && [a7][..0] == [];
    assert [Tier("/tmp", 7 * SecondsPerDay)][..0] == [];
    assert [a7, t3][..1] == [a7];
    assert FirstFault([a7]) == None;
    assert [a7, b3, a9][..2] == [a7, b3];
    assert FirstFault([a7, b3]) == Some(MaxAgeNotGreater("/b"));
    assert [a3, b0][..1] == [a3];
    assert [Tier("/a", 0), b3][..1] == [Tier("/a", 0)] && [Tier("/a", 0)][..0] == [];
  }

  /** The default configuration's recordings chain is accepted. */
  lemma DefaultConfigValid()
    ensures ValidChain(DefaultConfig().recordingsTiers)
  {
  }
}
