/**
 * The in-memory flag store of the current user: a full snapshot replaces it,
 * a patch upserts one flag and a delete removes one, each guarded by the
 * flag's environment version so that an older change never overrides a
 * newer one.
 */
module FlagStores {
  import opened Wrappers
  import opened Json
  import opened FeatureFlags

  /** The store's contents: flag key to flag record. */
  type Flags = map<string, FeatureFlag>

  /** Every stored flag satisfies the record's invariant. */
  predicate ValidFlags(flags: Flags) {
    forall k | k in flags :: flags[k].Valid()
  }

  /** The environment version stored for a key, if any. */
  function StoredVersion(flags: Flags, key: string): (v: Option<int>)
    ensures key !in flags ==> v.None?
  {
    if key in flags then flags[key].version else None
  }

  /**
   * Whether an incoming version may replace a stored one: only a strictly
   * newer version does, and an absent version on either side never blocks.
   */
  predicate IsNewerVersion(current: Option<int>, incoming: Option<int>) {
    current.None? || incoming.None? || incoming.value > current.value
  }

  /** `replaceStore`: the parsed snapshot, or an empty store when any element fails to parse. */
  function ReplaceStore(snapshot: Object): (r: Flags)
    ensures ValidFlags(r)
    ensures AllElementsParse(snapshot) ==> Some(r) == FlagCollection(snapshot) && r.Keys == snapshot.Keys
    ensures !AllElementsParse(snapshot) ==> r == map[]
  {
    match FlagCollection(snapshot)
    case Some(flags) => flags
    case None => map[]
  }

  /** Whether a patch body is applied: it names a flag and its version is newer than the stored one. */
  predicate PatchApplies(flags: Flags, patch: Object) {
    && StringAt(patch, KeyKey).Some?
    && IsNewerVersion(StoredVersion(flags, StringAt(patch, KeyKey).value), IntAt(patch, VersionKey))
  }

  /**
   * `updateStore`: an applicable patch stores the flag it describes under its
   * key and leaves every other flag alone; any other patch changes nothing.
   */
  function UpdateStore(flags: Flags, patch: Object): (r: Flags)
    ensures !PatchApplies(flags, patch) ==> r == flags
    ensures PatchApplies(flags, patch) ==>
              var key := StringAt(patch, KeyKey).value;
              && r.Keys == flags.Keys + {key}
              && Some(r[key]) == Parse(Some(patch))
              && r[key].flagKey == key
              && r[key].version == IntAt(patch, VersionKey)
              && r[key].variation == IntAt(patch, VariationKey)
              && (forall k | k in flags && k != key :: r[k] == flags[k])
    ensures ValidFlags(flags) ==> ValidFlags(r)
  {
    if PatchApplies(flags, patch) then
      var key := StringAt(patch, KeyKey).value;
      flags[key := Parse(Some(patch)).value]
    else
      flags
  }

  /**
   * Whether a delete body is applied: it names a flag and carries a version
   * newer than the stored one; a delete without a version is ignored.
   */
  predicate DeleteApplies(flags: Flags, delete: Object) {
    && StringAt(delete, KeyKey).Some?
    && IntAt(delete, VersionKey).Some?
    && IsNewerVersion(StoredVersion(flags, StringAt(delete, KeyKey).value), IntAt(delete, VersionKey))
  }

  /** `deleteFlag`: an applicable delete removes its key and nothing else; any other delete changes nothing. */
  function DeleteFlag(flags: Flags, delete: Object): (r: Flags)
    ensures !DeleteApplies(flags, delete) ==> r == flags
    ensures DeleteApplies(flags, delete) ==>
              && r.Keys == flags.Keys - {StringAt(delete, KeyKey).value}
              && (forall k | k in r :: r[k] == flags[k])
    ensures ValidFlags(flags) ==> ValidFlags(r)
  {
    if DeleteApplies(flags, delete) then flags - {StringAt(delete, KeyKey).value} else flags
  }

  /** A patch or delete no newer than the stored version is ignored. */
  lemma StaleChangesIgnored(flags: Flags, change: Object, key: string)
    requires StringAt(change, KeyKey) == Some(key) && key in flags
    requires flags[key].version.Some? && IntAt(change, VersionKey).Some?
    requires IntAt(change, VersionKey).value <= flags[key].version.value
    ensures UpdateStore(flags, change) == flags
    ensures DeleteFlag(flags, change) == flags
  {
  }

  /**
   * Applying a patch twice is the same as applying it once: a versioned
   * patch is stale the second time, and a versionless one writes the same
   * flag again.
   */
  lemma PatchIdempotent(flags: Flags, patch: Object)
    ensures UpdateStore(UpdateStore(flags, patch), patch) == UpdateStore(flags, patch)
  {
    var once := UpdateStore(flags, patch);
    if PatchApplies(flags, patch) {
      var key := StringAt(patch, KeyKey).value;
      if IntAt(patch, VersionKey).Some? {
        assert StoredVersion(once, key) == IntAt(patch, VersionKey);
        assert !PatchApplies(once, patch);
      } else {
        MapsEqual(UpdateStore(once, patch), once);
      }
    }
  }

  /**
   * Two versioned patches of one flag give the same store whichever arrives
   * first: the newer one wins.
   */
  lemma PatchOrderIrrelevant(flags: Flags, p: Object, q: Object)
    requires StringAt(p, KeyKey).Some? && StringAt(p, KeyKey) == StringAt(q, KeyKey)
    requires IntAt(p, VersionKey).Some? && IntAt(q, VersionKey).Some?
    requires IntAt(p, VersionKey) != IntAt(q, VersionKey)
    ensures UpdateStore(UpdateStore(flags, p), q) == UpdateStore(UpdateStore(flags, q), p)
  {
    var key := StringAt(p, KeyKey).value;
    var pq := UpdateStore(UpdateStore(flags, p), q);
    var qp := UpdateStore(UpdateStore(flags, q), p);
    // The newer of the two, and the flag it describes.
    var (newer, older) := if IntAt(p, VersionKey).value > IntAt(q, VersionKey).value then (p, q) else (q, p);
    if PatchApplies(flags, newer) {
      assert UpdateStore(UpdateStore(flags, older), newer) == UpdateStore(flags, newer) by {
        if PatchApplies(flags, older) {
          assert PatchApplies(UpdateStore(flags, older), newer);
          MapsEqual(UpdateStore(UpdateStore(flags, older), newer), UpdateStore(flags, newer));
        }
      }
      assert !PatchApplies(UpdateStore(flags, newer), older);
    } else {
      assert !PatchApplies(flags, older);
    }
  }

  /** A delete at the version a patch stored is stale: the patched flag survives it. */
  lemma DeleteAtPatchedVersionIgnored(flags: Flags, patch: Object, delete: Object)
    requires PatchApplies(flags, patch) && IntAt(patch, VersionKey).Some?
    requires StringAt(delete, KeyKey) == StringAt(patch, KeyKey) && IntAt(delete, VersionKey) == IntAt(patch, VersionKey)
    ensures DeleteFlag(UpdateStore(flags, patch), delete) == UpdateStore(flags, patch)
  {
  }

  /** A delete body without an integer version changes nothing. */
  lemma VersionlessDeleteIgnored(flags: Flags, delete: Object)
    requires IntAt(delete, VersionKey).None?
    ensures DeleteFlag(flags, delete) == flags
  {
  }

  /** An applicable delete leaves no flag under its key. */
  lemma DeleteRemovesFlag(flags: Flags, delete: Object)
    requires DeleteApplies(flags, delete)
    ensures StringAt(delete, KeyKey).value !in DeleteFlag(flags, delete)
  {
  }
}
