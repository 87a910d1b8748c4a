/**
 * The current flag record and its codec: conversion of a `FeatureFlag` to and
 * from a string-keyed dictionary, the flag-collection parser that fills in a
 * missing `"key"` from the collection's own key, and the record's equality.
 */
module FeatureFlags {
  import opened Wrappers
  import opened Json

  // The coding keys of a flag record.
  const KeyKey := "key"
  const ValueKey := "value"
  const VariationKey := "variation"
  const VersionKey := "version"
  const FlagVersionKey := "flagVersion"
  const ReasonKey := "reason"
  const TrackReasonKey := "trackReason"

  const CodingKeys: set<string> :=
    {KeyKey, ValueKey, VariationKey, VersionKey, FlagVersionKey, ReasonKey, TrackReasonKey}

  // The keys of the event tracking context merged into a flag's dictionary.
  const TrackEventsKey := "trackEvents"
  const DebugEventsUntilDateKey := "debugEventsUntilDate"

  /**
   * The event tracking context of a flag: whether full evaluation events are
   * wanted and, as milliseconds since 1970, until when debug events are.
   */
  datatype TrackingContext = TrackingContext(trackEvents: bool, debugEventsUntilDate: Option<int>)

  /** Reads a tracking context; there is none without a boolean `trackEvents`. */
  function ParseTrackingContext(d: Object): (r: Option<TrackingContext>)
    ensures r.Some? <==> BoolAt(d, TrackEventsKey).Some?
  {
    match BoolAt(d, TrackEventsKey)
    case None => None
    case Some(track) => Some(TrackingContext(track, IntAt(d, DebugEventsUntilDateKey)))
  }

  /** The dictionary of a tracking context; an absent date is the null marker. */
  function TrackingContextDictionary(c: TrackingContext): (d: Object)
    ensures d.Keys == {TrackEventsKey, DebugEventsUntilDateKey}
    ensures ParseTrackingContext(d) == Some(c)
  {
    map[TrackEventsKey := JBool(c.trackEvents),
        DebugEventsUntilDateKey := if c.debugEventsUntilDate.Some? then JInt(c.debugEventsUntilDate.value) else JNull]
  }

  datatype FeatureFlag = FeatureFlag(
    flagKey: string,
    value: Option<Json>,
    variation: Option<int>,
    /** The environment version, used to order streaming patches and deletes. */
    version: Option<int>,
    /** The flag's own version, used only in event payloads. */
    flagVersion: Option<int>,
    eventTrackingContext: Option<TrackingContext>,
    reason: Option<Object>,
    trackReason: Option<bool>)
  {
    /** What the initialiser guarantees: a null marker is never kept as a value. */
    predicate Valid() {
      value != Some(JNull)
    }
  }

  /** The memberwise initialiser: a null-marker value is stored as absent. */
  function MakeFlag(flagKey: string, value: Option<Json>, variation: Option<int>, version: Option<int>,
                    flagVersion: Option<int>, eventTrackingContext: Option<TrackingContext>,
                    reason: Option<Object>, trackReason: Option<bool>): (f: FeatureFlag)
    ensures f.Valid()
    ensures f.value.None? <==> value.None? || value == Some(JNull)
    ensures f.value.Some? ==> f.value == value
    ensures f.flagKey == flagKey && f.variation == variation && f.version == version
    ensures f.flagVersion == flagVersion && f.eventTrackingContext == eventTrackingContext
    ensures f.reason == reason && f.trackReason == trackReason
  {
    FeatureFlag(flagKey, if value == Some(JNull) then None else value,
                variation, version, flagVersion, eventTrackingContext, reason, trackReason)
  }

  /**
   * `init?(dictionary:)`: fails when there is no dictionary or it has no
   * string `"key"`; every other field that is missing or of the wrong type is
   * read as absent.
   */
  function Parse(d: Option<Object>): (r: Option<FeatureFlag>)
    ensures r.None? <==> d.None? || StringAt(d.value, KeyKey).None?
    ensures r.Some? ==> r.value.Valid() && JString(r.value.flagKey) == d.value[KeyKey]
  {
    if d.None? then None
    else
      match StringAt(d.value, KeyKey)
      case None => None
      case Some(flagKey) =>
        Some(MakeFlag(flagKey, EntryAt(d.value, ValueKey), IntAt(d.value, VariationKey),
                      IntAt(d.value, VersionKey), IntAt(d.value, FlagVersionKey),
                      ParseTrackingContext(d.value), ObjectAt(d.value, ReasonKey),
                      BoolAt(d.value, TrackReasonKey)))
  }

  /**
   * `dictionaryValue`: all seven coding keys, each absent optional written as
   * the null marker, with the tracking context's entries merged in.
   */
  function ToDictionary(f: FeatureFlag): (d: Object)
    ensures CodingKeys <= d.Keys
    ensures d.Keys == CodingKeys + (if f.eventTrackingContext.Some? then {TrackEventsKey, DebugEventsUntilDateKey} else {})
    ensures d[KeyKey] == JString(f.flagKey)
    ensures d[ValueKey] == JNull <==> f.value.None? || f.value == Some(JNull)
    ensures d[VariationKey] == JNull <==> f.variation.None?
    ensures d[VersionKey] == JNull <==> f.version.None?
    ensures d[FlagVersionKey] == JNull <==> f.flagVersion.None?
    ensures d[ReasonKey] == JNull <==> f.reason.None?
    ensures d[TrackReasonKey] == JNull <==> f.trackReason.None?
  {
    match f.eventTrackingContext
    case None => OwnEntries(f)
    case Some(c) => OwnEntries(f) + TrackingContextDictionary(c)
  }

  /** The seven coding-key entries of `dictionaryValue`, before the context is merged in. */
  function OwnEntries(f: FeatureFlag): (d: Object)
    ensures d.Keys == CodingKeys
  {
    map[KeyKey := JString(f.flagKey),
        ValueKey := OrNull(f.value),
        VariationKey := IntOrNull(f.variation),
        VersionKey := IntOrNull(f.version),
        FlagVersionKey := IntOrNull(f.flagVersion),
        ReasonKey := if f.reason.Some? then JObject(f.reason.value) else JNull,
        TrackReasonKey := if f.trackReason.Some? then JBool(f.trackReason.value) else JNull]
  }

  /** The custom `==`: key, variation, version, reason and trackReason only. */
  predicate Same(l: FeatureFlag, r: FeatureFlag) {
    && l.flagKey == r.flagKey
    && l.variation == r.variation
    && l.version == r.version
    && l.reason == r.reason
    && l.trackReason == r.trackReason
  }

  /** `matchesVariation`: the variations agree, an absent one only with an absent one. */
  predicate MatchesVariation(l: FeatureFlag, r: FeatureFlag) {
    l.variation == r.variation
  }

  /**
   * Two flags match in variation exactly when their variations are equal,
   * an absent one matching only an absent one; equal flags always match.
   */
  lemma MatchesVariationIff(l: FeatureFlag, r: FeatureFlag)
    ensures MatchesVariation(l, r) <==> l.variation == r.variation
    ensures l.variation.None? ==> (MatchesVariation(l, r) <==> r.variation.None?)
    ensures Same(l, r) ==> MatchesVariation(l, r)
  {
  }

  /** Round trip: parsing a flag's dictionary gives back exactly that flag. */
  lemma RoundTrip(f: FeatureFlag)
    requires f.Valid()
    ensures Parse(Some(ToDictionary(f))) == Some(f)
    ensures Same(f, Parse(Some(ToDictionary(f))).value)
  {
    OwnFieldsReadBack(f);
    TrackingContextReadsBack(f);
  }

  /** Each of the seven coding keys reads back as the field it was written from. */
  lemma OwnFieldsReadBack(f: FeatureFlag)
    ensures StringAt(ToDictionary(f), KeyKey) == Some(f.flagKey)
    ensures EntryAt(ToDictionary(f), ValueKey) == Some(OrNull(f.value))
    ensures IntAt(ToDictionary(f), VariationKey) == f.variation
    ensures IntAt(ToDictionary(f), VersionKey) == f.version
    ensures IntAt(ToDictionary(f), FlagVersionKey) == f.flagVersion
    ensures ObjectAt(ToDictionary(f), ReasonKey) == f.reason
    ensures BoolAt(ToDictionary(f), TrackReasonKey) == f.trackReason
  {
    var d, own := ToDictionary(f), OwnEntries(f);
    OwnEntriesReadBack(f);
    MergeKeepsOwnEntries(f);
    ReadsAgree(d, own, KeyKey);
    ReadsAgree(d, own, ValueKey);
    ReadsAgree(d, own, VariationKey);
    ReadsAgree(d, own, VersionKey);
    ReadsAgree(d, own, FlagVersionKey);
    ReadsAgree(d, own, ReasonKey);
    ReadsAgree(d, own, TrackReasonKey);
  }

  /** Merging the tracking context in leaves the seven own entries as they were. */
  lemma MergeKeepsOwnEntries(f: FeatureFlag)
    ensures forall k | k in CodingKeys :: k in ToDictionary(f) && ToDictionary(f)[k] == OwnEntries(f)[k]
  {
    match f.eventTrackingContext {
      case None =>
      case Some(c) =>
        assert TrackingContextDictionary(c).Keys !! CodingKeys;
    }
  }

  /** The seven own entries read back as the fields they were written from. */
  lemma OwnEntriesReadBack(f: FeatureFlag)
    ensures StringAt(OwnEntries(f), KeyKey) == Some(f.flagKey)
    ensures EntryAt(OwnEntries(f), ValueKey) == Some(OrNull(f.value))
    ensures IntAt(OwnEntries(f), VariationKey) == f.variation
    ensures IntAt(OwnEntries(f), VersionKey) == f.version
    ensures IntAt(OwnEntries(f), FlagVersionKey) == f.flagVersion
    ensures ObjectAt(OwnEntries(f), ReasonKey) == f.reason
    ensures BoolAt(OwnEntries(f), TrackReasonKey) == f.trackReason
  {
  }

  /** The merged tracking-context entries read back as the flag's context. */
  lemma TrackingContextReadsBack(f: FeatureFlag)
    ensures ParseTrackingContext(ToDictionary(f)) == f.eventTrackingContext
  {
    var d := ToDictionary(f);
    match f.eventTrackingContext {
      case None =>
        assert TrackEventsKey !in d;
      case Some(c) =>
        var cd := TrackingContextDictionary(c);
        assert BoolAt(d, TrackEventsKey) == BoolAt(cd, TrackEventsKey);
        assert IntAt(d, DebugEventsUntilDateKey) == IntAt(cd, DebugEventsUntilDateKey);
    }
  }

  /** A null-marker `value` entry is read as an absent value. */
  lemma ParseNullValueIsAbsent(d: Object)
    requires StringAt(d, KeyKey).Some?
    requires ValueKey !in d || d[ValueKey] == JNull
    ensures Parse(Some(d)).Some? && Parse(Some(d)).value.value.None?
  {
  }

  /**
   * A field of the wrong type reads as absent and does not make the parse
   * fail: `variation`, `version` and `flagVersion` must be integers, `reason`
   * an object and `trackReason` a boolean.
   */
  lemma ParseWrongTypeIsAbsent(d: Object)
    requires StringAt(d, KeyKey).Some?
    ensures Parse(Some(d)).Some?
    ensures VariationKey in d && !d[VariationKey].JInt? ==> Parse(Some(d)).value.variation.None?
    ensures VersionKey in d && !d[VersionKey].JInt? ==> Parse(Some(d)).value.version.None?
    ensures FlagVersionKey in d && !d[FlagVersionKey].JInt? ==> Parse(Some(d)).value.flagVersion.None?
    ensures ReasonKey in d && !d[ReasonKey].JObject? ==> Parse(Some(d)).value.reason.None?
    ensures TrackReasonKey in d && !d[TrackReasonKey].JBool? ==> Parse(Some(d)).value.trackReason.None?
  {
  }

  /** Equality ignores `value`, `flagVersion` and the tracking context. */
  lemma SameIgnoresUncomparedFields(f: FeatureFlag, value: Option<Json>, flagVersion: Option<int>,
                                    context: Option<TrackingContext>)
    ensures Same(f, f.(value := value, flagVersion := flagVersion, eventTrackingContext := context))
  {
  }

  /** Equality is an equivalence relation. */
  lemma SameIsEquivalence(a: FeatureFlag, b: FeatureFlag, c: FeatureFlag)
    ensures Same(a, a)
    ensures Same(a, b) ==> Same(b, a)
    ensures Same(a, b) && Same(b, c) ==> Same(a, c)
  {
  }

  /**
   * An element of a flag collection as the parser sees it: its dictionary,
   * if it is one, with the collection key filled in when `"key"` is missing.
   */
  function ElementDictionary(collectionKey: string, element: Json): (r: Option<Object>)
    ensures r.Some? <==> element.JObject?
    ensures r.Some? ==> r.value.Keys == element.fields.Keys + {KeyKey}
    ensures r.Some? && KeyKey in element.fields ==> r.value == element.fields
    ensures r.Some? && KeyKey !in element.fields ==> r.value[KeyKey] == JString(collectionKey)
  {
    match element
    case JObject(fields) =>
      Some(if KeyKey in fields then fields else fields[KeyKey := JString(collectionKey)])
    case _ => None
  }

  /** Whether every element of a collection parses as a flag. */
  predicate AllElementsParse(d: Object) {
    forall k | k in d :: Parse(ElementDictionary(k, d[k])).Some?
  }

  /**
   * `flagCollection`: the flags of a key-to-dictionary collection, or nothing
   * at all when any element fails to parse.
   */
  function FlagCollection(d: Object): (r: Option<map<string, FeatureFlag>>)
    ensures r.Some? <==> AllElementsParse(d)
    ensures r.Some? ==> r.value.Keys == d.Keys
    ensures r.Some? ==> forall k | k in r.value :: r.value[k].Valid()
  {
    if AllElementsParse(d) then
      Some(map k | k in d :: Parse(ElementDictionary(k, d[k])).value)
    else
      None
  }

  /** The dictionary of a collection of flags (`dictionaryValue` on the collection). */
  function CollectionDictionary(flags: map<string, FeatureFlag>): (d: Object)
    ensures d.Keys == flags.Keys
    ensures forall k | k in d :: d[k] == JObject(ToDictionary(flags[k]))
  {
    map k | k in flags :: JObject(ToDictionary(flags[k]))
  }

  /**
   * The collection key is injected only into elements lacking `"key"`; an
   * element's own `"key"` wins even when it names a different flag.
   */
  lemma CollectionKeyInjection(d: Object, k: string)
    requires k in d && FlagCollection(d).Some?
    ensures KeyKey !in d[k].fields ==> FlagCollection(d).value[k].flagKey == k
    ensures KeyKey in d[k].fields ==> JString(FlagCollection(d).value[k].flagKey) == d[k].fields[KeyKey]
  {
    assert Parse(ElementDictionary(k, d[k])).Some?;
  }

  /** One element that is not a dictionary, or not parseable, fails the whole collection. */
  lemma CollectionFailsOnBadElement(d: Object, k: string)
    requires k in d
    requires !d[k].JObject? || (KeyKey in d[k].fields && !d[k].fields[KeyKey].JString?)
    ensures FlagCollection(d).None?
  {
    assert Parse(ElementDictionary(k, d[k])).None?;
  }

  /** Round trip of a whole collection. */
  lemma CollectionRoundTrip(flags: map<string, FeatureFlag>)
    requires forall k | k in flags :: flags[k].Valid()
    ensures FlagCollection(CollectionDictionary(flags)) == Some(flags)
  {
    var d := CollectionDictionary(flags);
    forall k | k in d
      ensures Parse(ElementDictionary(k, d[k])) == Some(flags[k])
    {
      assert ElementDictionary(k, d[k]) == Some(ToDictionary(flags[k]));
      RoundTrip(flags[k]);
    }
    var r := FlagCollection(d).value;
    assert forall k | k in r :: r[k] == flags[k];
    MapsEqual(r, flags);
  }
}
