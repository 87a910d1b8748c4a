/**
 * The client configuration as its tests fix it: a record of settings, the
 * clamping of polling and diagnostic intervals against build-dependent
 * minima, the background-update gate that depends on the operating system,
 * equality, defaults, and the status codes that trigger a REPORT retry.
 * Intervals are whole milliseconds.
 */
module Configuration {
  import opened Wrappers

  datatype OperatingSystem = IOS | WatchOS | MacOS | TvOS

  /** Only macOS may update flags while in the background. */
  predicate IsBackgroundEnabled(os: OperatingSystem) {
    os == MacOS
  }

  /** Streaming is available everywhere but on watchOS. */
  predicate IsStreamingEnabled(os: OperatingSystem) {
    os == IOS || os == MacOS || os == TvOS
  }

  /** What the configuration learns from its environment reporter. */
  datatype Environment = Environment(os: OperatingSystem, isDebugBuild: bool)

  datatype StreamingMode = Streaming | Polling

  datatype RunMode = Foreground | Background

  /** Lower bounds on the intervals, in milliseconds. */
  datatype Minima = Minima(flagPollingInterval: int, backgroundFlagPollingInterval: int, diagnosticRecordingInterval: int)

  const DebugMinima := Minima(30_000, 60_000, 60_000)
  const ProductionMinima := Minima(300_000, 900_000, 300_000)

  /** The minima of a configuration: the debug set in a debug build, else the production set. */
  function MinimaFor(env: Environment): (m: Minima)
    ensures env.isDebugBuild ==> m == DebugMinima
    ensures !env.isDebugBuild ==> m == ProductionMinima
  {
    if env.isDebugBuild then DebugMinima else ProductionMinima
  }

  datatype Config = Config(
    mobileKey: string,
    baseUrl: string,
    eventsUrl: string,
    streamUrl: string,
    eventCapacity: int,
    connectionTimeout: int,
    eventFlushInterval: int,
    flagPollingInterval: int,
    backgroundFlagPollingInterval: int,
    streamingMode: StreamingMode,
    enableBackgroundUpdates: bool,
    startOnline: bool,
    isDebugMode: bool,
    allUserAttributesPrivate: bool,
    privateUserAttributes: Option<seq<string>>,
    useReport: bool,
    inlineUserInEvents: bool,
    evaluationReasons: bool,
    maxCachedUsers: int,
    diagnosticOptOut: bool,
    diagnosticRecordingInterval: int,
    wrapperName: Option<string>,
    wrapperVersion: Option<string>,
    additionalHeaders: map<string, string>,
    environment: Environment)

  /** A fresh configuration for a mobile key: every setting at its default. */
  function NewConfig(mobileKey: string, env: Environment): (c: Config)
    ensures c.mobileKey == mobileKey && c.environment == env
    ensures c.privateUserAttributes == None
    ensures !c.enableBackgroundUpdates && c.startOnline && c.streamingMode == Streaming
  {
    Config(mobileKey, "https://app.launchdarkly.com", "https://mobile.launchdarkly.com",
           "https://clientstream.launchdarkly.com", 100, 10_000, 30_000, 300_000, 3_600_000,
           Streaming, false, true, false, false, None, false, false, false, 5, false, 900_000,
           None, None, map[], env)
  }

  /** Configuration equality: every setting, but not the environment it was made in. */
  predicate Equal(a: Config, b: Config) {
    && a.mobileKey == b.mobileKey
    && a.baseUrl == b.baseUrl
    && a.eventsUrl == b.eventsUrl
    && a.streamUrl == b.streamUrl
    && a.eventCapacity == b.eventCapacity
    && a.connectionTimeout == b.connectionTimeout
    && a.eventFlushInterval == b.eventFlushInterval
    && a.flagPollingInterval == b.flagPollingInterval
    && a.backgroundFlagPollingInterval == b.backgroundFlagPollingInterval
    && a.streamingMode == b.streamingMode
    && a.enableBackgroundUpdates == b.enableBackgroundUpdates
    && a.startOnline == b.startOnline
    && a.isDebugMode == b.isDebugMode
    && a.allUserAttributesPrivate == b.allUserAttributesPrivate
    && a.privateUserAttributes == b.privateUserAttributes
    && a.useReport == b.useReport
    && a.inlineUserInEvents == b.inlineUserInEvents
    && a.evaluationReasons == b.evaluationReasons
    && a.maxCachedUsers == b.maxCachedUsers
    && a.diagnosticOptOut == b.diagnosticOptOut
    && a.diagnosticRecordingInterval == b.diagnosticRecordingInterval
    && a.wrapperName == b.wrapperName
    && a.wrapperVersion == b.wrapperVersion
    && a.additionalHeaders == b.additionalHeaders
  }

  lemma EqualIsEquivalence(a: Config, b: Config, c: Config)
    ensures Equal(a, a)
    ensures Equal(a, b) ==> Equal(b, a)
    ensures Equal(a, b) && Equal(b, c) ==> Equal(a, c)
  {
  }

  /** Two fresh configurations for one key are equal whatever their environments; for two keys they are not. */
  lemma NewConfigEquality(k1: string, k2: string, e1: Environment, e2: Environment)
    ensures Equal(NewConfig(k1, e1), NewConfig(k2, e2)) <==> k1 == k2
  {
    if Equal(NewConfig(k1, e1), NewConfig(k2, e2)) {
      assert NewConfig(k1, e1).(environment := e2).mobileKey == k1;
    }
  }

  /** `flagPollingInterval(runMode:)`: the configured interval of the run mode, raised to its minimum. */
  function FlagPollingInterval(c: Config, runMode: RunMode): (ms: int)
    ensures runMode == Foreground ==> ms >= MinimaFor(c.environment).flagPollingInterval
    ensures runMode == Foreground && c.flagPollingInterval >= MinimaFor(c.environment).flagPollingInterval ==>
              ms == c.flagPollingInterval
    ensures runMode == Foreground && c.flagPollingInterval < MinimaFor(c.environment).flagPollingInterval ==>
              ms == MinimaFor(c.environment).flagPollingInterval
    ensures runMode == Background ==> ms >= MinimaFor(c.environment).backgroundFlagPollingInterval
    ensures runMode == Background && c.backgroundFlagPollingInterval >= MinimaFor(c.environment).backgroundFlagPollingInterval ==>
              ms == c.backgroundFlagPollingInterval
    ensures runMode == Background && c.backgroundFlagPollingInterval < MinimaFor(c.environment).backgroundFlagPollingInterval ==>
              ms == MinimaFor(c.environment).backgroundFlagPollingInterval
  {
    var minima := MinimaFor(c.environment);
    if runMode == Foreground then Max(c.flagPollingInterval, minima.flagPollingInterval)
    else Max(c.backgroundFlagPollingInterval, minima.backgroundFlagPollingInterval)
  }

  function Max(a: int, b: int): int {
    if a < b then b else a
  }

  /** `allowStreamingMode`: the operating system's streaming capability. */
  predicate AllowStreamingMode(c: Config) {
    IsStreamingEnabled(c.environment.os)
  }

  /** The status codes after which a REPORT request is retried as a GET: 405, 400 and 501. */
  const ReportRetryStatusCodes: seq<int> := [405, 400, 501]

  /** `isReportRetryStatusCode`: membership in the retry codes. */
  function IsReportRetryStatusCode(statusCode: int): (r: bool)
    ensures r <==> statusCode == 400 || statusCode == 405 || statusCode == 501
  {
    statusCode in ReportRetryStatusCodes
  }

  /** One assignment to a configuration setting, as the tests perform them. */
  datatype Setting =
    | MobileKey(key: string)
    | BaseUrl(url: string)
    | EventsUrl(url: string)
    | StreamUrl(url: string)
    | EventCapacity(count: int)
    | ConnectionTimeout(ms: int)
    | EventFlushInterval(ms: int)
    | FlagPollingIntervalSetting(ms: int)
    | BackgroundFlagPollingInterval(ms: int)
    | StreamingModeSetting(mode: StreamingMode)
    | EnableBackgroundUpdates(flag: bool)
    | StartOnline(flag: bool)
    | DebugMode(flag: bool)
    | AllUserAttributesPrivate(flag: bool)
    | PrivateUserAttributes(attributes: Option<seq<string>>)
    | UseReport(flag: bool)
    | InlineUserInEvents(flag: bool)
    | EvaluationReasons(flag: bool)
    | MaxCachedUsers(count: int)
    | DiagnosticOptOut(flag: bool)
    | DiagnosticRecordingInterval(ms: int)
    | WrapperName(name: Option<string>)
    | WrapperVersion(name: Option<string>)
    | AdditionalHeaders(headers: map<string, string>)

  /** Which setting an assignment is to. */
  function FieldOf(s: Setting): nat {
    match s
    case MobileKey(_) => 0
    case BaseUrl(_) => 1
    case EventsUrl(_) => 2
    case StreamUrl(_) => 3
    case EventCapacity(_) => 4
    case ConnectionTimeout(_) => 5
    case EventFlushInterval(_) => 6
    case FlagPollingIntervalSetting(_) => 7
    case BackgroundFlagPollingInterval(_) => 8
    case StreamingModeSetting(_) => 9
    case EnableBackgroundUpdates(_) => 10
    case StartOnline(_) => 11
    case DebugMode(_) => 12
    case AllUserAttributesPrivate(_) => 13
    case PrivateUserAttributes(_) => 14
    case UseReport(_) => 15
    case InlineUserInEvents(_) => 16
    case EvaluationReasons(_) => 17
    case MaxCachedUsers(_) => 18
    case DiagnosticOptOut(_) => 19
    case DiagnosticRecordingInterval(_) => 20
    case WrapperName(_) => 21
    case WrapperVersion(_) => 22
    case AdditionalHeaders(_) => 23
  }

  /** Whether reading the setting's field of `c` gives the setting's value. */
  predicate Holds(c: Config, s: Setting) {
    match s
    case MobileKey(k) => c.mobileKey == k
    case BaseUrl(u) => c.baseUrl == u
    case EventsUrl(u) => c.eventsUrl == u
    case StreamUrl(u) => c.streamUrl == u
    case EventCapacity(n) => c.eventCapacity == n
    case ConnectionTimeout(ms) => c.connectionTimeout == ms
    case EventFlushInterval(ms) => c.eventFlushInterval == ms
    case FlagPollingIntervalSetting(ms) => c.flagPollingInterval == ms
    case BackgroundFlagPollingInterval(ms) => c.backgroundFlagPollingInterval == ms
    case StreamingModeSetting(m) => c.streamingMode == m
    case EnableBackgroundUpdates(b) => c.enableBackgroundUpdates == b
    case StartOnline(b) => c.startOnline == b
    case DebugMode(b) => c.isDebugMode == b
    case AllUserAttributesPrivate(b) => c.allUserAttributesPrivate == b
    case PrivateUserAttributes(a) => c.privateUserAttributes == a
    case UseReport(b) => c.useReport == b
    case InlineUserInEvents(b) => c.inlineUserInEvents == b
    case EvaluationReasons(b) => c.evaluationReasons == b
    case MaxCachedUsers(n) => c.maxCachedUsers == n
    case DiagnosticOptOut(b) => c.diagnosticOptOut == b
    case DiagnosticRecordingInterval(ms) => c.diagnosticRecordingInterval == ms
    case WrapperName(n) => c.wrapperName == n
    case WrapperVersion(n) => c.wrapperVersion == n
    case AdditionalHeaders(h) => c.additionalHeaders == h
  }

  /**
   * What a setting stores in a configuration made in `env`: background
   * updates only where the system allows them, a diagnostic interval no
   * smaller than its minimum, every other value as given.
   */
  function Stored(env: Environment, s: Setting): (t: Setting)
    ensures FieldOf(t) == FieldOf(s)
    ensures s.EnableBackgroundUpdates? ==> t == EnableBackgroundUpdates(s.flag && IsBackgroundEnabled(env.os))
    ensures s.DiagnosticRecordingInterval? && s.ms < MinimaFor(env).diagnosticRecordingInterval ==>
              t == DiagnosticRecordingInterval(MinimaFor(env).diagnosticRecordingInterval)
    ensures s.DiagnosticRecordingInterval? && s.ms >= MinimaFor(env).diagnosticRecordingInterval ==> t == s
    ensures !s.EnableBackgroundUpdates? && !s.DiagnosticRecordingInterval? ==> t == s
  {
    match s
    case EnableBackgroundUpdates(b) => EnableBackgroundUpdates(b && IsBackgroundEnabled(env.os))
    case DiagnosticRecordingInterval(ms) => DiagnosticRecordingInterval(Max(ms, MinimaFor(env).diagnosticRecordingInterval))
    case _ => s
  }

  /** The setters: assign one setting, through its gate or clamp. */
  function Apply(c: Config, s: Setting): (r: Config)
    ensures r.environment == c.environment
  {
    match s
    case MobileKey(k) => c.(mobileKey := k)
    case BaseUrl(u) => c.(baseUrl := u)
    case EventsUrl(u) => c.(eventsUrl := u)
    case StreamUrl(u) => c.(streamUrl := u)
    case EventCapacity(n) => c.(eventCapacity := n)
    case ConnectionTimeout(ms) => c.(connectionTimeout := ms)
    case EventFlushInterval(ms) => c.(eventFlushInterval := ms)
    case FlagPollingIntervalSetting(ms) => c.(flagPollingInterval := ms)
    case BackgroundFlagPollingInterval(ms) => c.(backgroundFlagPollingInterval := ms)
    case StreamingModeSetting(m) => c.(streamingMode := m)
    case EnableBackgroundUpdates(b) => c.(enableBackgroundUpdates := b && IsBackgroundEnabled(c.environment.os))
    case StartOnline(b) => c.(startOnline := b)
    case DebugMode(b) => c.(isDebugMode := b)
    case AllUserAttributesPrivate(b) => c.(allUserAttributesPrivate := b)
    case PrivateUserAttributes(a) => c.(privateUserAttributes := a)
    case UseReport(b) => c.(useReport := b)
    case InlineUserInEvents(b) => c.(inlineUserInEvents := b)
    case EvaluationReasons(b) => c.(evaluationReasons := b)
    case MaxCachedUsers(n) => c.(maxCachedUsers := n)
    case DiagnosticOptOut(b) => c.(diagnosticOptOut := b)
    case DiagnosticRecordingInterval(ms) =>
      c.(diagnosticRecordingInterval := Max(ms, MinimaFor(c.environment).diagnosticRecordingInterval))
    case WrapperName(n) => c.(wrapperName := n)
    case WrapperVersion(n) => c.(wrapperVersion := n)
    case AdditionalHeaders(h) => c.(additionalHeaders := h)
  }

  // The settings fall into four groups of six, in declaration order; the
  // proofs about all 24 setters go group by group to keep each one small.

  /** The connection settings: key, URLs, event capacity, timeout. */
  predicate IsConnectionSetting(s: Setting) {
    s.MobileKey? || s.BaseUrl? || s.EventsUrl? || s.StreamUrl? || s.EventCapacity? || s.ConnectionTimeout?
  }

  /** The update settings: intervals, streaming mode, background updates, start online. */
  predicate IsUpdateSetting(s: Setting) {
    || s.EventFlushInterval? || s.FlagPollingIntervalSetting? || s.BackgroundFlagPollingInterval?
    || s.StreamingModeSetting? || s.EnableBackgroundUpdates? || s.StartOnline?
  }

  /** The user settings: debug mode, privacy, REPORT, inlining, reasons. */
  predicate IsUserSetting(s: Setting) {
    || s.DebugMode? || s.AllUserAttributesPrivate? || s.PrivateUserAttributes?
    || s.UseReport? || s.InlineUserInEvents? || s.EvaluationReasons?
  }

  /** The reporting settings: cached users, diagnostics, wrapper, headers. */
  predicate IsReportingSetting(s: Setting) {
    || s.MaxCachedUsers? || s.DiagnosticOptOut? || s.DiagnosticRecordingInterval?
    || s.WrapperName? || s.WrapperVersion? || s.AdditionalHeaders?
  }

  /** After a setting is assigned, its field reads back what was stored. */
  lemma ApplyThenRead(c: Config, s: Setting)
    ensures Holds(Apply(c, s), Stored(c.environment, s))
  {
    if IsConnectionSetting(s) {
      ApplyThenReadConnection(c, s);
    } else if IsUpdateSetting(s) {
      ApplyThenReadUpdate(c, s);
    } else if IsUserSetting(s) {
      ApplyThenReadUser(c, s);
    } else {
      ApplyThenReadReporting(c, s);
    }
  }

  lemma ApplyThenReadConnection(c: Config, s: Setting)
    requires IsConnectionSetting(s)
    ensures Holds(Apply(c, s), Stored(c.environment, s))
  {
    match s {
      case MobileKey(_) =>
      case BaseUrl(_) =>
      case EventsUrl(_) =>
      case StreamUrl(_) =>
      case EventCapacity(_) =>
      case ConnectionTimeout(_) =>
    }
  }

  lemma ApplyThenReadUpdate(c: Config, s: Setting)
    requires IsUpdateSetting(s)
    ensures Holds(Apply(c, s), Stored(c.environment, s))
  {
    match s {
      case EventFlushInterval(_) =>
      case FlagPollingIntervalSetting(_) =>
      case BackgroundFlagPollingInterval(_) =>
      case StreamingModeSetting(_) =>
      case EnableBackgroundUpdates(_) =>
      case StartOnline(_) =>
    }
  }

  lemma ApplyThenReadUser(c: Config, s: Setting)
    requires IsUserSetting(s)
    ensures Holds(Apply(c, s), Stored(c.environment, s))
  {
    match s {
      case DebugMode(_) =>
      case AllUserAttributesPrivate(_) =>
      case PrivateUserAttributes(_) =>
      case UseReport(_) =>
      case InlineUserInEvents(_) =>
      case EvaluationReasons(_) =>
    }
  }

  lemma ApplyThenReadReporting(c: Config, s: Setting)
    requires IsReportingSetting(s)
    ensures Holds(Apply(c, s), Stored(c.environment, s))
  {
    match s {
      case MaxCachedUsers(_) =>
      case DiagnosticOptOut(_) =>
      case DiagnosticRecordingInterval(_) =>
      case WrapperName(_) =>
      case WrapperVersion(_) =>
      case AdditionalHeaders(_) =>
    }
  }

  /** A setter writes only its own field: every field of another setting is read back unchanged. */
  lemma ApplyFrame(c: Config, s: Setting)
    ensures FieldOf(s) != 0 ==> Apply(c, s).mobileKey == c.mobileKey
    ensures FieldOf(s) != 1 ==> Apply(c, s).baseUrl == c.baseUrl
    ensures FieldOf(s) != 2 ==> Apply(c, s).eventsUrl == c.eventsUrl
    ensures FieldOf(s) != 3 ==> Apply(c, s).streamUrl == c.streamUrl
    ensures FieldOf(s) != 4 ==> Apply(c, s).eventCapacity == c.eventCapacity
    ensures FieldOf(s) != 5 ==> Apply(c, s).connectionTimeout == c.connectionTimeout
    ensures FieldOf(s) != 6 ==> Apply(c, s).eventFlushInterval == c.eventFlushInterval
    ensures FieldOf(s) != 7 ==> Apply(c, s).flagPollingInterval == c.flagPollingInterval
    ensures FieldOf(s) != 8 ==> Apply(c, s).backgroundFlagPollingInterval == c.backgroundFlagPollingInterval
    ensures FieldOf(s) != 9 ==> Apply(c, s).streamingMode == c.streamingMode
    ensures FieldOf(s) != 10 ==> Apply(c, s).enableBackgroundUpdates == c.enableBackgroundUpdates
    ensures FieldOf(s) != 11 ==> Apply(c, s).startOnline == c.startOnline
    ensures FieldOf(s) != 12 ==> Apply(c, s).isDebugMode == c.isDebugMode
    ensures FieldOf(s) != 13 ==> Apply(c, s).allUserAttributesPrivate == c.allUserAttributesPrivate
    ensures FieldOf(s) != 14 ==> Apply(c, s).privateUserAttributes == c.privateUserAttributes
    ensures FieldOf(s) != 15 ==> Apply(c, s).useReport == c.useReport
    ensures FieldOf(s) != 16 ==> Apply(c, s).inlineUserInEvents == c.inlineUserInEvents
    ensures FieldOf(s) != 17 ==> Apply(c, s).evaluationReasons == c.evaluationReasons
    ensures FieldOf(s) != 18 ==> Apply(c, s).maxCachedUsers == c.maxCachedUsers
    ensures FieldOf(s) != 19 ==> Apply(c, s).diagnosticOptOut == c.diagnosticOptOut
    ensures FieldOf(s) != 20 ==> Apply(c, s).diagnosticRecordingInterval == c.diagnosticRecordingInterval
    ensures FieldOf(s) != 21 ==> Apply(c, s).wrapperName == c.wrapperName
    ensures FieldOf(s) != 22 ==> Apply(c, s).wrapperVersion == c.wrapperVersion
    ensures FieldOf(s) != 23 ==> Apply(c, s).additionalHeaders == c.additionalHeaders
  {
    if IsConnectionSetting(s) {
      ApplyFrameConnection(c, s);
    } else if IsUpdateSetting(s) {
      ApplyFrameUpdate(c, s);
    } else if IsUserSetting(s) {
      ApplyFrameUser(c, s);
    } else {
      ApplyFrameReporting(c, s);
    }
  }

  lemma ApplyFrameConnection(c: Config, s: Setting)
    requires IsConnectionSetting(s)
    ensures FieldOf(s) != 0 ==> Apply(c, s).mobileKey == c.mobileKey
    ensures FieldOf(s) != 1 ==> Apply(c, s).baseUrl == c.baseUrl
    ensures FieldOf(s) != 2 ==> Apply(c, s).eventsUrl == c.eventsUrl
    ensures FieldOf(s) != 3 ==> Apply(c, s).streamUrl == c.streamUrl
    ensures FieldOf(s) != 4 ==> Apply(c, s).eventCapacity == c.eventCapacity
    ensures FieldOf(s) != 5 ==> Apply(c, s).connectionTimeout == c.connectionTimeout
    ensures Apply(c, s).eventFlushInterval == c.eventFlushInterval
    ensures Apply(c, s).flagPollingInterval == c.flagPollingInterval
    ensures Apply(c, s).backgroundFlagPollingInterval == c.backgroundFlagPollingInterval
    ensures Apply(c, s).streamingMode == c.streamingMode
    ensures Apply(c, s).enableBackgroundUpdates == c.enableBackgroundUpdates
    ensures Apply(c, s).startOnline == c.startOnline
    ensures Apply(c, s).isDebugMode == c.isDebugMode
    ensures Apply(c, s).allUserAttributesPrivate == c.allUserAttributesPrivate
    ensures Apply(c, s).privateUserAttributes == c.privateUserAttributes
    ensures Apply(c, s).useReport == c.useReport
    ensures Apply(c, s).inlineUserInEvents == c.inlineUserInEvents
    ensures Apply(c, s).evaluationReasons == c.evaluationReasons
    ensures Apply(c, s).maxCachedUsers == c.maxCachedUsers
    ensures Apply(c, s).diagnosticOptOut == c.diagnosticOptOut
    ensures Apply(c, s).diagnosticRecordingInterval == c.diagnosticRecordingInterval
    ensures Apply(c, s).wrapperName == c.wrapperName
    ensures Apply(c, s).wrapperVersion == c.wrapperVersion
    ensures Apply(c, s).additionalHeaders == c.additionalHeaders
  {
    match s {
      case MobileKey(_) =>
      case BaseUrl(_) =>
      case EventsUrl(_) =>
      case StreamUrl(_) =>
      case EventCapacity(_) =>
      case ConnectionTimeout(_) =>
    }
  }

  lemma ApplyFrameUpdate(c: Config, s: Setting)
    requires IsUpdateSetting(s)
    ensures Apply(c, s).mobileKey == c.mobileKey
    ensures Apply(c, s).baseUrl == c.baseUrl
    ensures Apply(c, s).eventsUrl == c.eventsUrl
    ensures Apply(c, s).streamUrl == c.streamUrl
    ensures Apply(c, s).eventCapacity == c.eventCapacity
    ensures Apply(c, s).connectionTimeout == c.connectionTimeout
    ensures FieldOf(s) != 6 ==> Apply(c, s).eventFlushInterval == c.eventFlushInterval
    ensures FieldOf(s) != 7 ==> Apply(c, s).flagPollingInterval == c.flagPollingInterval
    ensures FieldOf(s) != 8 ==> Apply(c, s).backgroundFlagPollingInterval == c.backgroundFlagPollingInterval
    ensures FieldOf(s) != 9 ==> Apply(c, s).streamingMode == c.streamingMode
    ensures FieldOf(s) != 10 ==> Apply(c, s).enableBackgroundUpdates == c.enableBackgroundUpdates
    ensures FieldOf(s) != 11 ==> Apply(c, s).startOnline == c.startOnline
    ensures Apply(c, s).isDebugMode == c.isDebugMode
    ensures Apply(c, s).allUserAttributesPrivate == c.allUserAttributesPrivate
    ensures Apply(c, s).privateUserAttributes == c.privateUserAttributes
    ensures Apply(c, s).useReport == c.useReport
    ensures Apply(c, s).inlineUserInEvents == c.inlineUserInEvents
    ensures Apply(c, s).evaluationReasons == c.evaluationReasons
    ensures Apply(c, s).maxCachedUsers == c.maxCachedUsers
    ensures Apply(c, s).diagnosticOptOut == c.diagnosticOptOut
    ensures Apply(c, s).diagnosticRecordingInterval == c.diagnosticRecordingInterval
    ensures Apply(c, s).wrapperName == c.wrapperName
    ensures Apply(c, s).wrapperVersion == c.wrapperVersion
    ensures Apply(c, s).additionalHeaders == c.additionalHeaders
  {
    match s {
      case EventFlushInterval(_) =>
      case FlagPollingIntervalSetting(_) =>
      case BackgroundFlagPollingInterval(_) =>
      case StreamingModeSetting(_) =>
      case EnableBackgroundUpdates(_) =>
      case StartOnline(_) =>
    }
  }

  lemma ApplyFrameUser(c: Config, s: Setting)
    requires IsUserSetting(s)
    ensures Apply(c, s).mobileKey == c.mobileKey
    ensures Apply(c, s).baseUrl == c.baseUrl
    ensures Apply(c, s).eventsUrl == c.eventsUrl
    ensures Apply(c, s).streamUrl == c.streamUrl
    ensures Apply(c, s).eventCapacity == c.eventCapacity
    ensures Apply(c, s).connectionTimeout == c.connectionTimeout
    ensures Apply(c, s).eventFlushInterval == c.eventFlushInterval
    ensures Apply(c, s).flagPollingInterval == c.flagPollingInterval
    ensures Apply(c, s).backgroundFlagPollingInterval == c.backgroundFlagPollingInterval
    ensures Apply(c, s).streamingMode == c.streamingMode
    ensures Apply(c, s).enableBackgroundUpdates == c.enableBackgroundUpdates
    ensures Apply(c, s).startOnline == c.startOnline
    ensures FieldOf(s) != 12 ==> Apply(c, s).isDebugMode == c.isDebugMode
    ensures FieldOf(s) != 13 ==> Apply(c, s).allUserAttributesPrivate == c.allUserAttributesPrivate
    ensures FieldOf(s) != 14 ==> Apply(c, s).privateUserAttributes == c.privateUserAttributes
    ensures FieldOf(s) != 15 ==> Apply(c, s).useReport == c.useReport
    ensures FieldOf(s) != 16 ==> Apply(c, s).inlineUserInEvents == c.inlineUserInEvents
    ensures FieldOf(s) != 17 ==> Apply(c, s).evaluationReasons == c.evaluationReasons
    ensures Apply(c, s).maxCachedUsers == c.maxCachedUsers
    ensures Apply(c, s).diagnosticOptOut == c.diagnosticOptOut
    ensures Apply(c, s).diagnosticRecordingInterval == c.diagnosticRecordingInterval
    ensures Apply(c, s).wrapperName == c.wrapperName
    ensures Apply(c, s).wrapperVersion == c.wrapperVersion
    ensures Apply(c, s).additionalHeaders == c.additionalHeaders
  {
    match s {
      case DebugMode(_) =>
      case AllUserAttributesPrivate(_) =>
      case PrivateUserAttributes(_) =>
      case UseReport(_) =>
      case InlineUserInEvents(_) =>
      case EvaluationReasons(_) =>
    }
  }

  lemma ApplyFrameReporting(c: Config, s: Setting)
    requires IsReportingSetting(s)
    ensures Apply(c, s).mobileKey == c.mobileKey
    ensures Apply(c, s).baseUrl == c.baseUrl
    ensures Apply(c, s).eventsUrl == c.eventsUrl
    ensures Apply(c, s).streamUrl == c.streamUrl
    ensures Apply(c, s).eventCapacity == c.eventCapacity
    ensures Apply(c, s).connectionTimeout == c.connectionTimeout
    ensures Apply(c, s).eventFlushInterval == c.eventFlushInterval
    ensures Apply(c, s).flagPollingInterval == c.flagPollingInterval
    ensures Apply(c, s).backgroundFlagPollingInterval == c.backgroundFlagPollingInterval
    ensures Apply(c, s).streamingMode == c.streamingMode
    ensures Apply(c, s).enableBackgroundUpdates == c.enableBackgroundUpdates
    ensures Apply(c, s).startOnline == c.startOnline
    ensures Apply(c, s).isDebugMode == c.isDebugMode
    ensures Apply(c, s).allUserAttributesPrivate == c.allUserAttributesPrivate
    ensures Apply(c, s).privateUserAttributes == c.privateUserAttributes
    ensures Apply(c, s).useReport == c.useReport
    ensures Apply(c, s).inlineUserInEvents == c.inlineUserInEvents
    ensures Apply(c, s).evaluationReasons == c.evaluationReasons
    ensures FieldOf(s) != 18 ==> Apply(c, s).maxCachedUsers == c.maxCachedUsers
    ensures FieldOf(s) != 19 ==> Apply(c, s).diagnosticOptOut == c.diagnosticOptOut
    ensures FieldOf(s) != 20 ==> Apply(c, s).diagnosticRecordingInterval == c.diagnosticRecordingInterval
    ensures FieldOf(s) != 21 ==> Apply(c, s).wrapperName == c.wrapperName
    ensures FieldOf(s) != 22 ==> Apply(c, s).wrapperVersion == c.wrapperVersion
    ensures FieldOf(s) != 23 ==> Apply(c, s).additionalHeaders == c.additionalHeaders
  {
    match s {
      case MaxCachedUsers(_) =>
      case DiagnosticOptOut(_) =>
      case DiagnosticRecordingInterval(_) =>
      case WrapperName(_) =>
      case WrapperVersion(_) =>
      case AdditionalHeaders(_) =>
    }
  }

  /** Whether a setting holds depends only on its own field. */
  lemma HoldsReadsOwnField(a: Config, b: Config, t: Setting)
    requires FieldOf(t) == 0 ==> a.mobileKey == b.mobileKey
    requires FieldOf(t) == 1 ==> a.baseUrl == b.baseUrl
    requires FieldOf(t) == 2 ==> a.eventsUrl == b.eventsUrl
    requires FieldOf(t) == 3 ==> a.streamUrl == b.streamUrl
    requires FieldOf(t) == 4 ==> a.eventCapacity == b.eventCapacity
    requires FieldOf(t) == 5 ==> a.connectionTimeout == b.connectionTimeout
    requires FieldOf(t) == 6 ==> a.eventFlushInterval == b.eventFlushInterval
    requires FieldOf(t) == 7 ==> a.flagPollingInterval == b.flagPollingInterval
    requires FieldOf(t) == 8 ==> a.backgroundFlagPollingInterval == b.backgroundFlagPollingInterval
    requires FieldOf(t) == 9 ==> a.streamingMode == b.streamingMode
    requires FieldOf(t) == 10 ==> a.enableBackgroundUpdates == b.enableBackgroundUpdates
    requires FieldOf(t) == 11 ==> a.startOnline == b.startOnline
    requires FieldOf(t) == 12 ==> a.isDebugMode == b.isDebugMode
    requires FieldOf(t) == 13 ==> a.allUserAttributesPrivate == b.allUserAttributesPrivate
    requires FieldOf(t) == 14 ==> a.privateUserAttributes == b.privateUserAttributes
    requires FieldOf(t) == 15 ==> a.useReport == b.useReport
    requires FieldOf(t) == 16 ==> a.inlineUserInEvents == b.inlineUserInEvents
    requires FieldOf(t) == 17 ==> a.evaluationReasons == b.evaluationReasons
    requires FieldOf(t) == 18 ==> a.maxCachedUsers == b.maxCachedUsers
    requires FieldOf(t) == 19 ==> a.diagnosticOptOut == b.diagnosticOptOut
    requires FieldOf(t) == 20 ==> a.diagnosticRecordingInterval == b.diagnosticRecordingInterval
    requires FieldOf(t) == 21 ==> a.wrapperName == b.wrapperName
    requires FieldOf(t) == 22 ==> a.wrapperVersion == b.wrapperVersion
    requires FieldOf(t) == 23 ==> a.additionalHeaders == b.additionalHeaders
    ensures Holds(a, t) <==> Holds(b, t)
  {
    if IsConnectionSetting(t) {
      HoldsReadsOwnFieldConnection(a, b, t);
    } else if IsUpdateSetting(t) {
      HoldsReadsOwnFieldUpdate(a, b, t);
    } else if IsUserSetting(t) {
      HoldsReadsOwnFieldUser(a, b, t);
    } else {
      HoldsReadsOwnFieldReporting(a, b, t);
    }
  }

  lemma HoldsReadsOwnFieldConnection(a: Config, b: Config, t: Setting)
    requires IsConnectionSetting(t)
    requires FieldOf(t) == 0 ==> a.mobileKey == b.mobileKey
    requires FieldOf(t) == 1 ==> a.baseUrl == b.baseUrl
    requires FieldOf(t) == 2 ==> a.eventsUrl == b.eventsUrl
    requires FieldOf(t) == 3 ==> a.streamUrl == b.streamUrl
    requires FieldOf(t) == 4 ==> a.eventCapacity == b.eventCapacity
    requires FieldOf(t) == 5 ==> a.connectionTimeout == b.connectionTimeout
    ensures Holds(a, t) <==> Holds(b, t)
  {
    match t {
      case MobileKey(_) =>
      case BaseUrl(_) =>
      case EventsUrl(_) =>
      case StreamUrl(_) =>
      case EventCapacity(_) =>
      case ConnectionTimeout(_) =>
    }
  }

  lemma HoldsReadsOwnFieldUpdate(a: Config, b: Config, t: Setting)
    requires IsUpdateSetting(t)
    requires FieldOf(t) == 6 ==> a.eventFlushInterval == b.eventFlushInterval
    requires FieldOf(t) == 7 ==> a.flagPollingInterval == b.flagPollingInterval
    requires FieldOf(t) == 8 ==> a.backgroundFlagPollingInterval == b.backgroundFlagPollingInterval
    requires FieldOf(t) == 9 ==> a.streamingMode == b.streamingMode
    requires FieldOf(t) == 10 ==> a.enableBackgroundUpdates == b.enableBackgroundUpdates
    requires FieldOf(t) == 11 ==> a.startOnline == b.startOnline
    ensures Holds(a, t) <==> Holds(b, t)
  {
    match t {
      case EventFlushInterval(_) =>
      case FlagPollingIntervalSetting(_) =>
      case BackgroundFlagPollingInterval(_) =>
      case StreamingModeSetting(_) =>
      case EnableBackgroundUpdates(_) =>
      case StartOnline(_) =>
    }
  }

  lemma HoldsReadsOwnFieldUser(a: Config, b: Config, t: Setting)
    requires IsUserSetting(t)
    requires FieldOf(t) == 12 ==> a.isDebugMode == b.isDebugMode
    requires FieldOf(t) == 13 ==> a.allUserAttributesPrivate == b.allUserAttributesPrivate
    requires FieldOf(t) == 14 ==> a.privateUserAttributes == b.privateUserAttributes
    requires FieldOf(t) == 15 ==> a.useReport == b.useReport
    requires FieldOf(t) == 16 ==> a.inlineUserInEvents == b.inlineUserInEvents
    requires FieldOf(t) == 17 ==> a.evaluationReasons == b.evaluationReasons
    ensures Holds(a, t) <==> Holds(b, t)
  {
    match t {
      case DebugMode(_) =>
      case AllUserAttributesPrivate(_) =>
      case PrivateUserAttributes(_) =>
      case UseReport(_) =>
      case InlineUserInEvents(_) =>
      case EvaluationReasons(_) =>
    }
  }

  lemma HoldsReadsOwnFieldReporting(a: Config, b: Config, t: Setting)
    requires IsReportingSetting(t)
    requires FieldOf(t) == 18 ==> a.maxCachedUsers == b.maxCachedUsers
    requires FieldOf(t) == 19 ==> a.diagnosticOptOut == b.diagnosticOptOut
    requires FieldOf(t) == 20 ==> a.diagnosticRecordingInterval == b.diagnosticRecordingInterval
    requires FieldOf(t) == 21 ==> a.wrapperName == b.wrapperName
    requires FieldOf(t) == 22 ==> a.wrapperVersion == b.wrapperVersion
    requires FieldOf(t) == 23 ==> a.additionalHeaders == b.additionalHeaders
    ensures Holds(a, t) <==> Holds(b, t)
  {
    match t {
      case MaxCachedUsers(_) =>
      case DiagnosticOptOut(_) =>
      case DiagnosticRecordingInterval(_) =>
      case WrapperName(_) =>
      case WrapperVersion(_) =>
      case AdditionalHeaders(_) =>
    }
  }

  /** Assigning one setting leaves every other setting as it was. */
  lemma ApplyKeepsOtherSettings(c: Config, s: Setting, t: Setting)
    requires FieldOf(s) != FieldOf(t)
    ensures Holds(Apply(c, s), t) <==> Holds(c, t)
  {
    ApplyFrame(c, s);
    HoldsReadsOwnField(Apply(c, s), c, t);
  }

  /** An assignment leaves the configuration equal exactly when its field already held the stored value. */
  lemma ApplyChangesEquality(c: Config, s: Setting)
    ensures Equal(Apply(c, s), c) <==> Holds(c, Stored(c.environment, s))
  {
    if IsConnectionSetting(s) {
      ApplyChangesEqualityConnection(c, s);
    } else if IsUpdateSetting(s) {
      ApplyChangesEqualityUpdate(c, s);
    } else if IsUserSetting(s) {
      ApplyChangesEqualityUser(c, s);
    } else {
      ApplyChangesEqualityReporting(c, s);
    }
  }

  lemma ApplyChangesEqualityConnection(c: Config, s: Setting)
    requires IsConnectionSetting(s)
    ensures Equal(Apply(c, s), c) <==> Holds(c, Stored(c.environment, s))
  {
    ApplyFrame(c, s);
    ApplyThenReadConnection(c, s);
  }

  lemma ApplyChangesEqualityUpdate(c: Config, s: Setting)
    requires IsUpdateSetting(s)
    ensures Equal(Apply(c, s), c) <==> Holds(c, Stored(c.environment, s))
  {
    ApplyFrame(c, s);
    ApplyThenReadUpdate(c, s);
  }

  lemma ApplyChangesEqualityUser(c: Config, s: Setting)
    requires IsUserSetting(s)
    ensures Equal(Apply(c, s), c) <==> Holds(c, Stored(c.environment, s))
  {
    ApplyFrame(c, s);
    ApplyThenReadUser(c, s);
  }

  lemma ApplyChangesEqualityReporting(c: Config, s: Setting)
    requires IsReportingSetting(s)
    ensures Equal(Apply(c, s), c) <==> Holds(c, Stored(c.environment, s))
  {
    ApplyFrame(c, s);
    ApplyThenReadReporting(c, s);
  }

  /**
   * Streaming is allowed exactly on a system capable of it, which is every
   * system but watchOS; a fresh configuration takes this from its
   * environment, and no setter changes it.
   */
  lemma AllowStreamingModeByOs(mobileKey: string, env: Environment, s: Setting)
    ensures AllowStreamingMode(NewConfig(mobileKey, env)) <==> IsStreamingEnabled(env.os)
    ensures AllowStreamingMode(NewConfig(mobileKey, env)) <==> env.os != WatchOS
    ensures AllowStreamingMode(Apply(NewConfig(mobileKey, env), s)) == AllowStreamingMode(NewConfig(mobileKey, env))
  {
  }

  /** Enabling background updates reads back true only on a system that allows them. */
  lemma EnableBackgroundUpdatesGated(c: Config)
    ensures Apply(c, EnableBackgroundUpdates(true)).enableBackgroundUpdates <==> IsBackgroundEnabled(c.environment.os)
  {
  }

  /** The diagnostic interval setter stores at least its minimum, and any value at or above it unchanged. */
  lemma DiagnosticRecordingIntervalClamped(c: Config, ms: int)
    ensures Apply(c, DiagnosticRecordingInterval(ms)).diagnosticRecordingInterval ==
              if ms < MinimaFor(c.environment).diagnosticRecordingInterval
              then MinimaFor(c.environment).diagnosticRecordingInterval else ms
  {
  }

  /** Whether no two assignments in a list are to the same setting. */
  predicate DistinctFields(settings: seq<Setting>) {
    forall i, j | 0 <= i < j < |settings| :: FieldOf(settings[i]) != FieldOf(settings[j])
  }

  /** Assigns each setting in turn, as the tests' update loop does. */
  method ApplyAll(c: Config, settings: seq<Setting>) returns (r: Config)
    requires DistinctFields(settings)
    ensures r.environment == c.environment
    ensures forall i | 0 <= i < |settings| :: Holds(r, Stored(c.environment, settings[i]))
  {
    r := c;
    for n := 0 to |settings|
      invariant r.environment == c.environment
      invariant forall i | 0 <= i < n :: Holds(r, Stored(c.environment, settings[i]))
    {
      forall i | 0 <= i < n
        ensures Holds(Apply(r, settings[n]), Stored(c.environment, settings[i]))
      {
        ApplyKeepsOtherSettings(r, settings[n], Stored(c.environment, settings[i]));
      }
      ApplyThenRead(r, settings[n]);
      r := Apply(r, settings[n]);
    }
  }
}
