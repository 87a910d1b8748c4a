/**
 * The alternative setting values the configuration's tests assign,
 * and what assigning them does to a fresh configuration.
 */
module ConfigScenarios {
  import opened Wrappers
  import opened Configuration

  /** Whether assigning a setting stores a value its field does not already hold. */
  predicate ChangesField(c: Config, s: Setting) {
    !Holds(c, Stored(c.environment, s))
  }

  /** A configuration as made for its key and environment, every other setting at its default. */
  predicate IsNewConfig(c: Config) {
    c == NewConfig(c.mobileKey, c.environment)
  }

  /** A URL different from every default service URL. */
  predicate IsAlternateUrl(u: string) {
    u != "https://app.launchdarkly.com" && u != "https://mobile.launchdarkly.com" && u != "https://clientstream.launchdarkly.com"
  }

  /**
   * The tests' alternative values, in their order, in four groups of
   * six: service connection, updates, user privacy and reporting. `k` is the
   * alternate mobile key and `u` the alternate URL.
   */
  function ConnectionSettings(k: string, u: string): seq<Setting> {
    [MobileKey(k), BaseUrl(u), EventsUrl(u), StreamUrl(u), EventCapacity(10), ConnectionTimeout(10)]
  }
  function UpdateSettings(): seq<Setting> {
    [EventFlushInterval(10), FlagPollingIntervalSetting(10), BackgroundFlagPollingInterval(10),
     StreamingModeSetting(Polling), EnableBackgroundUpdates(true), StartOnline(false)]
  }
  function UserSettings(): seq<Setting> {
    [DebugMode(true), AllUserAttributesPrivate(true), PrivateUserAttributes(Some(["dummy"])),
     UseReport(true), InlineUserInEvents(true), EvaluationReasons(true)]
  }
  function ReportingSettings(): seq<Setting> {
    [MaxCachedUsers(-1), DiagnosticOptOut(true), DiagnosticRecordingInterval(600_000), WrapperName(Some("ReactNative")),
     WrapperVersion(Some("0.1.0")), AdditionalHeaders(map["Proxy-Authorization" := "creds"])]
  }
  /** All 24 alternative assignments, one per setting. */
  function TestSettings(k: string, u: string): seq<Setting> {
    ConnectionSettings(k, u) + UpdateSettings() + UserSettings() + ReportingSettings()
  }

  /**
   * On a fresh configuration of a system that allows background updates,
   * every alternative value changes its field; one lemma per group.
   */
  lemma ConnectionSettingsChange(c: Config, k: string, u: string)
    requires IsNewConfig(c) && c.mobileKey != k && IsAlternateUrl(u) && IsBackgroundEnabled(c.environment.os)
    ensures forall s | s in ConnectionSettings(k, u) :: ChangesField(c, s)
  {
  }

  lemma UpdateSettingsChange(c: Config, k: string, u: string)
    requires IsNewConfig(c) && c.mobileKey != k && IsAlternateUrl(u) && IsBackgroundEnabled(c.environment.os)
    ensures forall s | s in UpdateSettings() :: ChangesField(c, s)
  {
  }

  lemma UserSettingsChange(c: Config, k: string, u: string)
    requires IsNewConfig(c) && c.mobileKey != k && IsAlternateUrl(u) && IsBackgroundEnabled(c.environment.os)
    ensures forall s | s in UserSettings() :: ChangesField(c, s)
  {
  }

  lemma ReportingSettingsChange(c: Config, k: string, u: string)
    requires IsNewConfig(c) && c.mobileKey != k && IsAlternateUrl(u) && IsBackgroundEnabled(c.environment.os)
    ensures forall s | s in ReportingSettings() :: ChangesField(c, s)
  {
    assert "Proxy-Authorization" !in c.additionalHeaders;
  }

  /** Every alternative value changes its field of such a configuration. */
  lemma TestSettingsChangeNewConfig(c: Config, k: string, u: string)
    requires IsNewConfig(c) && c.mobileKey != k && IsAlternateUrl(u) && IsBackgroundEnabled(c.environment.os)
    ensures forall s | s in TestSettings(k, u) :: ChangesField(c, s)
  {
    ConnectionSettingsChange(c, k, u);
    UpdateSettingsChange(c, k, u);
    UserSettingsChange(c, k, u);
    ReportingSettingsChange(c, k, u);
  }

  /** Each test assignment alone makes a fresh configuration unequal to the one it came from. */
  lemma TestSettingsBreakEquality(c: Config, k: string, u: string)
    requires IsNewConfig(c) && c.mobileKey != k && IsAlternateUrl(u) && IsBackgroundEnabled(c.environment.os)
    ensures forall s | s in TestSettings(k, u) :: !Equal(Apply(c, s), c) && !Equal(c, Apply(c, s))
  {
    TestSettingsChangeNewConfig(c, k, u);
    forall s | s in TestSettings(k, u) ensures !Equal(Apply(c, s), c) && !Equal(c, Apply(c, s)) {
      ApplyChangesEquality(c, s);
      EqualIsEquivalence(c, Apply(c, s), c);
    }
  }

  /** The alternative assignments are to 24 different settings. */
  lemma TestSettingsDistinct(k: string, u: string)
    ensures DistinctFields(TestSettings(k, u))
  {
    var t := TestSettings(k, u);
    assert forall i | 0 <= i < |t| :: FieldOf(t[i]) == i;
  }

  /**
   * Assigns every alternative value to a configuration, in order: each one
   * reads back as stored, so background updates only where the system
   * allows them and the diagnostic interval as given.
   */
  method AssignEverySetting(c: Config, k: string, u: string) returns (r: Config)
    ensures forall i | 0 <= i < |TestSettings(k, u)| :: Holds(r, Stored(c.environment, TestSettings(k, u)[i]))
    ensures r.enableBackgroundUpdates == IsBackgroundEnabled(c.environment.os)
    ensures r.diagnosticRecordingInterval == 600_000
  {
    var settings := TestSettings(k, u);
    TestSettingsDistinct(k, u);
    r := ApplyAll(c, settings);
    assert Holds(r, Stored(c.environment, settings[10]));
    assert Holds(r, Stored(c.environment, settings[20]));
  }
}
