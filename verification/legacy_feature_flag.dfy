/**
 * The legacy flag record (value, variation, version) and its codec, with the
 * "at least one flag field" rule and the `exciseNil` mode that strips null
 * markers from the dictionary it writes.
 */
module LegacyFeatureFlags {
  import opened Wrappers
  import opened Json

  const ValueKey := "value"
  const VariationKey := "variation"
  const VersionKey := "version"

  const CodingKeys: set<string> := {ValueKey, VariationKey, VersionKey}

  datatype FeatureFlag = FeatureFlag(value: Option<Json>, variation: Option<int>, version: Option<int>)
  {
    /** What the initialiser guarantees: a null marker is never kept as a value. */
    predicate Valid() {
      value != Some(JNull)
    }
  }

  /** The memberwise initialiser: a null-marker value is stored as absent. */
  function MakeFlag(value: Option<Json>, variation: Option<int>, version: Option<int>): (f: FeatureFlag)
    ensures f.Valid()
    ensures f.value.None? <==> value.None? || value == Some(JNull)
    ensures f.value.Some? ==> f.value == value
    ensures f.variation == variation && f.version == version
  {
    FeatureFlag(if value == Some(JNull) then None else value, variation, version)
  }

  /** `nullValuesRemoved`: the entries that are not the null marker. */
  function NullValuesRemoved(d: Object): (r: Object)
    ensures r.Keys == set k | k in d && d[k] != JNull
    ensures forall k | k in r :: r[k] == d[k]
    ensures forall k | k in r :: r[k] != JNull
  {
    map k | k in d && d[k] != JNull :: d[k]
  }

  /** Removing null markers twice is the same as removing them once. */
  lemma NullValuesRemovedIdempotent(d: Object)
    ensures NullValuesRemoved(NullValuesRemoved(d)) == NullValuesRemoved(d)
  {
    var once := NullValuesRemoved(d);
    var twice := NullValuesRemoved(once);
    assert twice.Keys == once.Keys;
    assert forall k | k in twice :: twice[k] == once[k];
  }

  /** `hasAtLeastOneFeatureFlagKey`: a non-empty dictionary with some flag field. */
  predicate HasAtLeastOneFeatureFlagKey(d: Object) {
    if |d| == 0 then false else d.Keys * CodingKeys != {}
  }

  /** The emptiness guard adds nothing: the rule is "some coding key is present". */
  lemma HasAtLeastOneFeatureFlagKeyIff(d: Object)
    ensures HasAtLeastOneFeatureFlagKey(d) <==> ValueKey in d || VariationKey in d || VersionKey in d
  {
    if ValueKey in d || VariationKey in d || VersionKey in d {
      var k :| k in d && k in CodingKeys;
      assert k in d.Keys * CodingKeys;
      assert |d.Keys| != 0;
    }
  }

  /** `containsValueAndVersionKeys`. */
  predicate ContainsValueAndVersionKeys(d: Object) {
    {ValueKey, VersionKey} <= d.Keys
  }

  lemma ContainsValueAndVersionKeysIff(d: Object)
    ensures ContainsValueAndVersionKeys(d) <==> ValueKey in d && VersionKey in d
  {
  }

  /**
   * `init?(dictionary:)`: fails for no dictionary and for one holding none of
   * the three coding keys; a non-integer variation or version reads as absent.
   */
  function Parse(d: Option<Object>): (r: Option<FeatureFlag>)
    ensures r.None? <==> d.None? || !(ValueKey in d.value || VariationKey in d.value || VersionKey in d.value)
    ensures r.Some? ==> r.value.Valid()
  {
    HasAtLeastOneFeatureFlagKeyIff(d.GetOr(map[]));
    if d.None? then None
    else if !HasAtLeastOneFeatureFlagKey(d.value) then None
    else Some(MakeFlag(EntryAt(d.value, ValueKey), IntAt(d.value, VariationKey), IntAt(d.value, VersionKey)))
  }

  /** `init?(object:)`: anything that is not a dictionary fails. */
  function ParseObject(o: Option<Json>): (r: Option<FeatureFlag>)
    ensures o.None? || !o.value.JObject? ==> r.None?
    ensures o.Some? && o.value.JObject? ==> r == Parse(Some(o.value.fields))
  {
    match o
    case Some(JObject(fields)) => Parse(Some(fields))
    case _ => None
  }

  /** The value written by `dictionaryValue`: a dictionary value loses its null entries under `exciseNil`. */
  function PreparedValue(value: Option<Json>, exciseNil: bool): (r: Option<Json>)
    ensures r.None? <==> value.None?
    ensures exciseNil && value.Some? && value.value.JObject? ==> r == Some(JObject(NullValuesRemoved(value.value.fields)))
    ensures !(exciseNil && value.Some? && value.value.JObject?) ==> r == value
  {
    if exciseNil && value.Some? && value.value.JObject? then Some(JObject(NullValuesRemoved(value.value.fields)))
    else value
  }

  /**
   * `dictionaryValue(exciseNil:)`. It always returns a dictionary. Without
   * `exciseNil` it holds exactly the three keys, absent fields as null
   * markers; with it, no entry is a null marker.
   */
  function ToDictionary(f: FeatureFlag, exciseNil: bool): (r: Option<Object>)
    ensures r.Some?
    ensures !exciseNil ==> r.value.Keys == CodingKeys
    ensures !exciseNil ==> (r.value[ValueKey] == JNull <==> f.value.None? || f.value == Some(JNull))
    ensures !exciseNil ==> (r.value[VariationKey] == JNull <==> f.variation.None?)
    ensures !exciseNil ==> (r.value[VersionKey] == JNull <==> f.version.None?)
    ensures exciseNil ==> forall k | k in r.value :: r.value[k] != JNull
  {
    var written := map[ValueKey := OrNull(PreparedValue(f.value, exciseNil)),
                       VariationKey := IntOrNull(f.variation),
                       VersionKey := IntOrNull(f.version)];
    Some(if exciseNil then NullValuesRemoved(written) else written)
  }

  /** The custom `==`: variation and version, each absent only equal to absent. */
  predicate Same(l: FeatureFlag, r: FeatureFlag) {
    && (if l.variation.None? then r.variation.None? else l.variation == r.variation)
    && (if l.version.None? then r.version.None? else l.version == r.version)
  }

  /** `matchesVariation`: with no variation, only a flag with no variation matches. */
  predicate MatchesVariation(l: FeatureFlag, r: FeatureFlag) {
    if l.variation.None? then r.variation.None? else l.variation == r.variation
  }

  /** Equality compares variation and version and nothing else. */
  lemma SameIff(l: FeatureFlag, r: FeatureFlag)
    ensures Same(l, r) <==> l.variation == r.variation && l.version == r.version
    ensures Same(l, r) <==> Same(l.(value := r.value), r)
  {
  }

  lemma MatchesVariationIff(l: FeatureFlag, r: FeatureFlag)
    ensures MatchesVariation(l, r) <==> l.variation == r.variation
  {
  }

  /** Without `exciseNil`, a flag's dictionary parses back to exactly that flag. */
  lemma RoundTripKeepingNulls(f: FeatureFlag)
    requires f.Valid()
    ensures Parse(ToDictionary(f, false)) == Some(f)
    ensures Same(f, Parse(ToDictionary(f, false)).value)
  {
    var d := ToDictionary(f, false).value;
    assert EntryAt(d, ValueKey) == Some(OrNull(f.value));
    assert IntAt(d, VariationKey) == f.variation;
    assert IntAt(d, VersionKey) == f.version;
  }

  /**
   * With `exciseNil`, the dictionary parses again only when the flag has some
   * field; the parsed flag then equals the original, and its value is the
   * original with a dictionary value's null entries removed.
   */
  lemma RoundTripExcisingNulls(f: FeatureFlag)
    requires f.Valid()
    ensures Parse(ToDictionary(f, true)).Some? <==> f.value.Some? || f.variation.Some? || f.version.Some?
    ensures Parse(ToDictionary(f, true)).Some? ==>
              && Same(f, Parse(ToDictionary(f, true)).value)
              && Parse(ToDictionary(f, true)).value.value == PreparedValue(f.value, true)
  {
    var d := ToDictionary(f, true).value;
    assert ValueKey in d <==> f.value.Some?;
    assert VariationKey in d <==> f.variation.Some?;
    assert VersionKey in d <==> f.version.Some?;
    assert IntAt(d, VariationKey) == f.variation;
    assert IntAt(d, VersionKey) == f.version;
    assert f.value.Some? ==> EntryAt(d, ValueKey) == PreparedValue(f.value, true);
  }

  /** A flag with no fields excises to the empty dictionary, which does not parse. */
  lemma AllAbsentDoesNotReparse()
    ensures ToDictionary(FeatureFlag(None, None, None), true) == Some(map[])
    ensures Parse(ToDictionary(FeatureFlag(None, None, None), true)).None?
  {
    var d := ToDictionary(FeatureFlag(None, None, None), true).value;
    assert d.Keys == {};
  }

  /** The dictionary of a collection of flags (`dictionaryValue(exciseNil:)` on the collection). */
  function CollectionDictionary(flags: map<string, FeatureFlag>, exciseNil: bool): (d: Object)
    ensures d.Keys == flags.Keys
    ensures forall k | k in d :: d[k] == JObject(ToDictionary(flags[k], exciseNil).value)
  {
    map k | k in flags :: JObject(ToDictionary(flags[k], exciseNil).value)
  }

  /** Whether every element of a collection parses as a flag. */
  predicate AllElementsParse(d: Object) {
    forall k | k in d :: ParseObject(Some(d[k])).Some?
  }

  /** `flagCollection`: the parsed flags, or nothing when any element fails. */
  function FlagCollection(d: Object): (r: Option<map<string, FeatureFlag>>)
    ensures r.Some? <==> AllElementsParse(d)
    ensures r.Some? ==> r.value.Keys == d.Keys
    ensures r.Some? ==> forall k | k in d :: Some(r.value[k]) == ParseObject(Some(d[k]))
  {
    if AllElementsParse(d) then Some(map k | k in d :: ParseObject(Some(d[k])).value) else None
  }

  /** An element that is not a dictionary holding a flag field fails the collection. */
  lemma CollectionFailsOnBadElement(d: Object, k: string)
    requires k in d
    requires !d[k].JObject? || !(ValueKey in d[k].fields || VariationKey in d[k].fields || VersionKey in d[k].fields)
    ensures FlagCollection(d).None?
  {
    assert ParseObject(Some(d[k])).None?;
  }

  /** Round trip of a whole collection written without `exciseNil`. */
  lemma CollectionRoundTrip(flags: map<string, FeatureFlag>)
    requires forall k | k in flags :: flags[k].Valid()
    ensures FlagCollection(CollectionDictionary(flags, false)) == Some(flags)
  {
    var d := CollectionDictionary(flags, false);
    CollectionElementsRoundTrip(flags, d);
    var r := FlagCollection(d);
    assert r.Some? && r.value.Keys == flags.Keys;
    forall k | k in flags
      ensures r.value[k] == flags[k]
    {
      assert Some(r.value[k]) == ParseObject(Some(d[k]));
    }
    MapsEqual(r.value, flags);
  }

  lemma CollectionElementsRoundTrip(flags: map<string, FeatureFlag>, d: Object)
    requires forall k | k in flags :: flags[k].Valid()
    requires d == CollectionDictionary(flags, false)
    ensures AllElementsParse(d)
    ensures forall k | k in d :: ParseObject(Some(d[k])) == Some(flags[k])
  {
    forall k | k in d
      ensures ParseObject(Some(d[k])) == Some(flags[k])
    {
      ElementRoundTrip(flags[k]);
    }
  }

  /** One element of a collection written without `exciseNil` reads back as its flag. */
  lemma ElementRoundTrip(f: FeatureFlag)
    requires f.Valid()
    ensures ParseObject(Some(JObject(ToDictionary(f, false).value))) == Some(f)
  {
    RoundTripKeepingNulls(f);
  }

  /** With `exciseNil`, one flag with no fields makes the written collection unreadable. */
  lemma ExcisedCollectionWithEmptyFlagFails(flags: map<string, FeatureFlag>, k: string)
    requires k in flags && flags[k] == FeatureFlag(None, None, None)
    ensures FlagCollection(CollectionDictionary(flags, true)).None?
  {
    AllAbsentDoesNotReparse();
    var d := CollectionDictionary(flags, true);
    assert d[k] == JObject(map[]);
    assert ParseObject(Some(d[k])).None?;
  }
}
