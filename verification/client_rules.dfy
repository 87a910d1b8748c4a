/**
 * The values the client exchanges with its collaborators, and the pure rules
 * it applies to them: when it may go online and why not, which streaming mode
 * and polling interval its synchronizer should have, what a flag read
 * returns and which error kind it reports.
 */
module ClientRules {
  import opened Wrappers
  import opened Json
  import opened FeatureFlags
  import opened FlagStores
  import opened Configuration

  /** A completion closure handed to the client, by identity. */
  type Completion = nat

  /** The user and the flag store that belongs to it. */
  datatype User = User(key: string, flags: Flags)

  /** The service provider, made from a configuration and a user. */
  datatype Service = Service(config: Config, userKey: string)

  /** The flag synchronizer: what it was made with, and whether it is connected. */
  datatype Synchronizer = Synchronizer(online: bool, streamingMode: StreamingMode, pollingInterval: int, service: Service)

  datatype Event =
    | IdentifyEvent(userKey: string)
    | CustomEvent(key: string, userKey: string, data: Option<Json>)
    | FeatureEvent(flagKey: string, value: Option<Json>, defaultValue: Option<Json>, flag: Option<FeatureFlag>,
                   userKey: string, includeReason: bool)

  /** The event reporter: its online state, configuration, service, the events recorded and the flushes asked for. */
  datatype EventReporter = EventReporter(online: bool, config: Config, service: Service, events: seq<Event>, flushes: nat)

  datatype DiagnosticReporter = DiagnosticReporter(online: bool, service: Service, runMode: RunMode)

  /** Why a flag or event request failed; a status code is absent when the response carried none. */
  datatype SyncError =
    | IsOffline
    | RequestError
    | ResponseError(statusCode: Option<int>)
    | DataError
    | StreamError(responseCode: Option<int>)
    | StreamEventWhilePolling
    | UnknownEventType(name: string)

  const Unauthorized := 401

  /** `isClientUnauthorized`: an HTTP response or a stream failure with status 401. */
  function IsClientUnauthorized(e: SyncError): (r: bool)
    ensures r <==> e == ResponseError(Some(Unauthorized)) || e == StreamError(Some(Unauthorized))
  {
    match e
    case ResponseError(code) => code == Some(Unauthorized)
    case StreamError(code) => code == Some(Unauthorized)
    case _ => false
  }

  datatype FlagUpdateType = Ping | Put | Patch | Delete

  datatype FlagSyncResult =
    | FlagSyncSuccess(flagDictionary: Object, updateType: Option<FlagUpdateType>)
    | FlagSyncFailure(error: SyncError)

  datatype EventSyncResult = EventSyncSuccess | EventSyncFailure(error: SyncError)

  /** The changes the client reports to its connection information. */
  datatype ConnectionCheck =
    | OnlineSetCheck(online: bool)
    | EstablishingStreamingCheck
    | SynchronizingErrorCheck(error: SyncError)
    | BackgroundBehaviorCheck(streamingMode: StreamingMode, goOnline: bool)

  /** The deferred "go online" action waiting in the throttler, with its completion. */
  datatype PendingOnline = PendingOnline(completion: Option<Completion>)

  /** `isInSupportedRunMode`: in the foreground, or in the background with background updates enabled. */
  predicate IsInSupportedRunMode(runMode: RunMode, config: Config) {
    runMode == Foreground || config.enableBackgroundUpdates
  }

  /** `canGoOnline`: started, in a supported run mode, and with a mobile key. */
  predicate CanGoOnline(hasStarted: bool, runMode: RunMode, config: Config) {
    hasStarted && IsInSupportedRunMode(runMode, config) && config.mobileKey != ""
  }

  /**
   * The gate in front of going online: in the foreground a started client
   * with a mobile key may go online; in the background it also needs
   * background updates enabled; an unstarted client never may.
   */
  lemma OnlineGate(hasStarted: bool, config: Config)
    ensures CanGoOnline(hasStarted, Foreground, config) <==> hasStarted && config.mobileKey != ""
    ensures CanGoOnline(hasStarted, Background, config) <==>
              hasStarted && config.mobileKey != "" && config.enableBackgroundUpdates
    ensures IsInSupportedRunMode(Foreground, config)
    ensures IsInSupportedRunMode(Background, config) <==> config.enableBackgroundUpdates
  {
  }

  /**
   * On a system without background updates, asking for them does not make
   * the background a supported run mode.
   */
  lemma BackgroundUnsupportedWhereGated(config: Config)
    requires !IsBackgroundEnabled(config.environment.os)
    ensures !IsInSupportedRunMode(Background, Apply(config, EnableBackgroundUpdates(true)))
    ensures !CanGoOnline(true, Background, Apply(config, EnableBackgroundUpdates(true)))
  {
    EnableBackgroundUpdatesGated(config);
  }

  const NotStartedReason := " LDClient not started."
  const BackgroundUpdatesDisabledReason := " LDConfig background updates not enabled."
  const EmptyMobileKeyReason := " Mobile Key is empty."

  /**
   * `reasonOnlineUnavailable`: empty unless going online was asked for and is
   * not possible; then the first failing condition, in the order not
   * started, run mode, mobile key.
   */
  function ReasonOnlineUnavailable(goOnline: bool, hasStarted: bool, runMode: RunMode, config: Config): (reason: string)
    ensures reason == "" <==> !goOnline || CanGoOnline(hasStarted, runMode, config)
    ensures goOnline && !hasStarted ==> reason == NotStartedReason
    ensures goOnline && hasStarted && !IsInSupportedRunMode(runMode, config) ==> reason == BackgroundUpdatesDisabledReason
    ensures goOnline && hasStarted && IsInSupportedRunMode(runMode, config) && config.mobileKey == "" ==>
              reason == EmptyMobileKeyReason
  {
    if !goOnline then ""
    else if !hasStarted then NotStartedReason
    else if !IsInSupportedRunMode(runMode, config) then BackgroundUpdatesDisabledReason
    else if config.mobileKey == "" then EmptyMobileKeyReason
    else ""
  }

  /**
   * The streaming mode the synchronizer should use: streaming only in the
   * foreground, when asked for and when the system allows it.
   */
  function EffectiveStreamingMode(config: Config, runMode: RunMode): (mode: StreamingMode)
    ensures mode == Streaming <==>
              runMode == Foreground && config.streamingMode == Streaming && AllowStreamingMode(config)
  {
    if runMode == Foreground && config.streamingMode == Streaming && AllowStreamingMode(config) then Streaming
    else Polling
  }

  /**
   * `flagSynchronizerConfigMatchesConfigAndRunMode`: the synchronizer has the
   * effective streaming mode and, when polling, the run mode's interval.
   */
  predicate SynchronizerMatches(s: Synchronizer, config: Config, runMode: RunMode) {
    && s.streamingMode == EffectiveStreamingMode(config, runMode)
    && (s.streamingMode == Streaming || (s.streamingMode == Polling && s.pollingInterval == FlagPollingInterval(config, runMode)))
  }

  /**
   * A synchronizer fits a configuration and run mode exactly when it differs
   * from one freshly made for them only in its online state and service, or,
   * when both stream, also in its polling interval.
   */
  lemma SynchronizerMatchesIff(s: Synchronizer, config: Config, runMode: RunMode)
    ensures SynchronizerMatches(s, config, runMode) <==>
              var made := MakeSynchronizer(config, runMode, s.service);
              || (s.streamingMode == Streaming && made.streamingMode == Streaming)
              || s == made.(online := s.online)
  {
  }

  /** A synchronizer made for a configuration and run mode, offline until told otherwise. */
  function MakeSynchronizer(config: Config, runMode: RunMode, service: Service): (s: Synchronizer)
    ensures !s.online && s.service == service
    ensures SynchronizerMatches(s, config, runMode)
  {
    Synchronizer(false, EffectiveStreamingMode(config, runMode), FlagPollingInterval(config, runMode), service)
  }

  /**
   * A synchronizer made in the foreground still fits in the background
   * exactly when it polls and the two run modes' clamped intervals agree.
   */
  lemma ForegroundSynchronizerInBackground(config: Config, service: Service)
    ensures SynchronizerMatches(MakeSynchronizer(config, Foreground, service), config, Background) <==>
              && EffectiveStreamingMode(config, Foreground) == Polling
              && FlagPollingInterval(config, Foreground) == FlagPollingInterval(config, Background)
  {
  }

  /** The tags of the flag value types a caller can ask for. */
  datatype ValueType = BoolType | IntType | DoubleType | StringType | ArrayType | ObjectType

  /** The `as? T` cast: whether a value has the requested type. */
  predicate HasType(j: Json, t: ValueType) {
    match t
    case BoolType => j.JBool?
    case IntType => j.JInt?
    case DoubleType => j.JDouble?
    case StringType => j.JString?
    case ArrayType => j.JArray?
    case ObjectType => j.JObject?
  }

  /** The flag stored under a key, if any. */
  function FlagFor(flags: Flags, key: string): (r: Option<FeatureFlag>)
    ensures r.Some? <==> key in flags
    ensures r.Some? ==> r.value == flags[key]
  {
    if key in flags then Some(flags[key]) else None
  }

  /**
   * The value a started client's flag read returns: the flag's value when
   * there is one of the requested type, the fallback otherwise.
   */
  function EvaluatedValue(flag: Option<FeatureFlag>, fallback: Option<Json>, requested: ValueType): (r: Option<Json>)
    ensures flag.Some? && flag.value.value.Some? && HasType(flag.value.value.value, requested) ==> r == flag.value.value
    ensures !(flag.Some? && flag.value.value.Some? && HasType(flag.value.value.value, requested)) ==> r == fallback
  {
    match flag
    case Some(FeatureFlag(_, Some(v), _, _, _, _, _, _)) => if HasType(v, requested) then Some(v) else fallback
    case _ => fallback
  }

  /** An evaluation reason of kind ERROR. */
  function ErrorReason(errorKind: string): (r: Object)
    ensures r.Keys == {"kind", "errorKind"} && r["kind"] == JString("ERROR") && r["errorKind"] == JString(errorKind)
  {
    map["kind" := JString("ERROR"), "errorKind" := JString(errorKind)]
  }

  /**
   * `checkErrorKinds`: CLIENT_NOT_READY before the client has started, then
   * FLAG_NOT_FOUND for a missing flag, and no error otherwise.
   */
  function CheckErrorKinds(hasStarted: bool, flag: Option<FeatureFlag>): (r: Option<Object>)
    ensures r.None? <==> hasStarted && flag.Some?
    ensures !hasStarted ==> r == Some(ErrorReason("CLIENT_NOT_READY"))
    ensures hasStarted && flag.None? ==> r == Some(ErrorReason("FLAG_NOT_FOUND"))
  {
    if !hasStarted then Some(ErrorReason("CLIENT_NOT_READY"))
    else if flag.None? then Some(ErrorReason("FLAG_NOT_FOUND"))
    else None
  }

  /** The reason a detailed flag read reports: an error kind if there is one, else the flag's own reason. */
  function DetailReason(hasStarted: bool, flag: Option<FeatureFlag>): (r: Option<Object>)
    ensures hasStarted && flag.Some? ==> r == flag.value.reason
    ensures !(hasStarted && flag.Some?) ==> r == CheckErrorKinds(hasStarted, flag)
  {
    match CheckErrorKinds(hasStarted, flag)
    case Some(error) => Some(error)
    case None => flag.value.reason
  }

  /** The result of a detailed flag read. */
  datatype EvaluationDetail = EvaluationDetail(value: Option<Json>, variationIndex: Option<int>, reason: Option<Object>)

  /** The flag values `allFlags` reports: every flag that has a value, and nothing else. */
  function AllFlagValues(flags: Flags): (r: map<string, Json>)
    ensures r.Keys == set k | k in flags && flags[k].value.Some?
    ensures forall k | k in r :: flags[k].value == Some(r[k])
  {
    map k | k in flags && flags[k].value.Some? :: flags[k].value.value
  }

  /** The flag store after a successful synchronization, chosen by the kind of update. */
  function AppliedUpdate(flags: Flags, flagDictionary: Object, updateType: Option<FlagUpdateType>): (r: Flags)
    ensures updateType.None? || updateType == Some(Ping) || updateType == Some(Put) ==> r == ReplaceStore(flagDictionary)
    ensures updateType == Some(Patch) ==> r == UpdateStore(flags, flagDictionary)
    ensures updateType == Some(Delete) ==> r == DeleteFlag(flags, flagDictionary)
    ensures ValidFlags(flags) ==> ValidFlags(r)
  {
    match updateType
    case None => ReplaceStore(flagDictionary)
    case Some(Ping) => ReplaceStore(flagDictionary)
    case Some(Put) => ReplaceStore(flagDictionary)
    case Some(Patch) => UpdateStore(flags, flagDictionary)
    case Some(Delete) => DeleteFlag(flags, flagDictionary)
  }

  /** The flags the cache holds for a user and mobile key, used only when non-empty. */
  function CachedFlags(cache: map<(string, string), Flags>, userKey: string, mobileKey: string, current: Flags): (r: Flags)
    ensures (userKey, mobileKey) in cache && |cache[(userKey, mobileKey)]| > 0 ==> r == cache[(userKey, mobileKey)]
    ensures !((userKey, mobileKey) in cache && |cache[(userKey, mobileKey)]| > 0) ==> r == current
  {
    if (userKey, mobileKey) in cache && |cache[(userKey, mobileKey)]| > 0 then cache[(userKey, mobileKey)] else current
  }
}
