# LaunchDarkly iOS client: flag codecs, configuration and client state machine

This project is a Dafny model of the core of the LaunchDarkly iOS client SDK,
with proofs about it. The model covers four parts.

- **Current flag codec** (`FeatureFlags`, `feature_flag.dfy`).
  - A flag record is parsed from a JSON dictionary and written back to one.
  - A collection of flags is parsed from a dictionary keyed by flag key. The collection key fills in a missing `"key"`, and the whole collection fails when one element fails.
  - Proved: the round trip from record to dictionary to record, null normalisation, typed field reads, and the partial equality and its properties.
- **Legacy flag codec** (`LegacyFeatureFlags`, `legacy_feature_flag.dfy`).
  - These are the older `Darkly` records with value, variation and version only.
  - The serialiser can optionally excise nulls. A parse requires at least one flag key.
  - Proved: both round trips, including where excising nulls breaks one (an all-absent flag no longer parses), and the collection codec.
- **Configuration** (`Configuration` and `ConfigScenarios`, `config.dfy` and `config_scenarios.dfy`).
  - This is the `LDConfig` behaviour its tests pin down:
    - defaults;
    - debug and production minima;
    - the clamped polling and diagnostic intervals;
    - the operating-system gate on background updates and streaming;
    - equality, which ignores the environment;
    - the REPORT retry status codes.
  - Every setter is one constructor of a `Setting` union. It is proved that each setter reads back what it stores, changes no other setting, and breaks equality exactly when it changes its field.
  - The tests' 24 alternative values are proved to change a fresh configuration.
- **Client orchestrator** (`ClientRules`, `FlagStores`, `Client` and `ClientScenarios`).
  - `LDClient` is a class whose fields are the client's state:
    - the online flag and started flag;
    - the run mode, configuration, user and service;
    - the synchronizer, event reporter and diagnostic reporter;
    - the throttler's pending online action and the flag cache;
    - the connection-information log, the completions waiting and called, and the errors passed to observers.
  - Its methods model:
    - the online setter, `internalSetOnline` and `go`;
    - the `config`, `service` and `runMode` observers;
    - `internalIdentify`;
    - the flag and event synchronization callbacks;
    - flag reads with and without detail, and `allFlags`;
    - event tracking, flush and close;
    - the initialiser.
  - Every method keeps the client's invariant:
    - the reporters mirror the online state;
    - the synchronizer is connected only while the client is online and may be;
    - only a started client with a mobile key is online;
    - every collaborator uses the current service, and it was built for a configuration equal to the current one.
  - The pure rules the client applies are functions with their own proved contracts:
    - the online gate and the reason reported when it fails;
    - the effective streaming mode and when a synchronizer still fits;
    - a flag read's value and error kind;
    - the flag-store update chosen by the kind of streaming event;
    - the version-guarded patch and delete of a flag.
  - Scenario methods chain operations. They show:
    - a deferred online action survives an offline request and an unauthorized error;
    - a closed client stays offline;
    - a new configuration or user restores the online state;
    - a start with cached flags goes online and applies a streamed `put`.

Modelling conventions:
- JSON values form a closed union (`Json`). Swift's `as? T` is a tag check, `NSNull` is `JNull`, and an optional is `Option`.
- Time intervals are whole milliseconds.
- A completion closure is a number that identifies it.
- Collaborators whose code is outside this model are record fields that capture what the client hands them. Their calls back into the client are methods that the environment invokes. These collaborators are the synchronizer, the reporters, the throttler, the flag cache and the connection information.

## Model

| member | source | states |
|---|---|---|
| FeatureFlags.MakeFlag | LaunchDarkly/LaunchDarkly/Models/FeatureFlag/FeatureFlag.swift:27-36 | a null value is stored as absent and every other field as given |
| FeatureFlags.ParseTrackingContext | LaunchDarkly/LaunchDarkly/Models/FeatureFlag/FeatureFlag.swift:47 | a tracking context is present exactly when the dictionary holds a boolean `trackEvents` |
| FeatureFlags.TrackingContextDictionary | LaunchDarkly/LaunchDarkly/Models/FeatureFlag/FeatureFlag.swift:61-65 | the tracking context writes two keys and parses back to itself |
| FeatureFlags.Parse | LaunchDarkly/LaunchDarkly/Models/FeatureFlag/FeatureFlag.swift:38-50 | parsing fails exactly when the dictionary is absent or has no string `key`; a parsed flag carries that key and no null value |
| FeatureFlags.ToDictionary | LaunchDarkly/LaunchDarkly/Models/FeatureFlag/FeatureFlag.swift:52-68 | every coding key is written, null exactly for an absent field, plus the tracking-context keys when there is one |
| FeatureFlags.RoundTrip | LaunchDarkly/LaunchDarkly/Models/FeatureFlag/FeatureFlag.swift:38-68 | parsing a flag's dictionary gives back the same flag |
| FeatureFlags.ParseNullValueIsAbsent | LaunchDarkly/LaunchDarkly/Models/FeatureFlag/FeatureFlag.swift:29 | a missing or null `value` parses as an absent value |
| FeatureFlags.ParseWrongTypeIsAbsent | LaunchDarkly/LaunchDarkly/Models/FeatureFlag/FeatureFlag.swift:98-116 | a field of the wrong JSON type parses as absent without failing the flag |
| FeatureFlags.SameIgnoresUncomparedFields | LaunchDarkly/LaunchDarkly/Models/FeatureFlag/FeatureFlag.swift:75-83 | flag equality ignores value, flag version and tracking context |
| FeatureFlags.SameIsEquivalence | LaunchDarkly/LaunchDarkly/Models/FeatureFlag/FeatureFlag.swift:75-83 | flag equality is reflexive, symmetric and transitive |
| FeatureFlags.MatchesVariationIff | LaunchDarkly/LaunchDarkly/Models/FeatureFlag/FeatureFlag.swift:70-72 | variations match exactly when they are equal, an absent one only an absent one, and equal flags always match |
| FeatureFlags.CollectionDictionary | LaunchDarkly/LaunchDarkly/Models/FeatureFlag/FeatureFlag.swift:85-87 | a flag map serialises key by key to its flags' dictionaries |
| FeatureFlags.ElementDictionary | LaunchDarkly/LaunchDarkly/Models/FeatureFlag/FeatureFlag.swift:123-127 | a collection element is usable only when it is a dictionary, and gets the collection key when it has no `key` |
| FeatureFlags.FlagCollection | LaunchDarkly/LaunchDarkly/Models/FeatureFlag/FeatureFlag.swift:118-139 | the collection parses exactly when every element parses, with the same keys |
| FeatureFlags.CollectionKeyInjection | LaunchDarkly/LaunchDarkly/Models/FeatureFlag/FeatureFlag.swift:124-127 | an element without `key` takes its collection key; one with a `key` keeps its own |
| FeatureFlags.CollectionFailsOnBadElement | LaunchDarkly/LaunchDarkly/Models/FeatureFlag/FeatureFlag.swift:128-137 | one element that is not a dictionary or has a non-string `key` fails the whole collection |
| FeatureFlags.CollectionRoundTrip | LaunchDarkly/LaunchDarkly/Models/FeatureFlag/FeatureFlag.swift:118-139 | parsing a serialised flag map gives back the same map |
| LegacyFeatureFlags.MakeFlag | Darkly/Darkly/Models/FeatureFlag.swift:24-28 | a null value is stored as absent; variation and version as given |
| LegacyFeatureFlags.NullValuesRemoved | Darkly/Darkly/Models/FeatureFlag.swift:108-110 | exactly the non-null entries are kept, unchanged |
| LegacyFeatureFlags.NullValuesRemovedIdempotent | Darkly/Darkly/Models/FeatureFlag.swift:108-110 | removing nulls twice is removing them once |
| LegacyFeatureFlags.HasAtLeastOneFeatureFlagKeyIff | Darkly/Darkly/Models/FeatureFlag.swift:112-115 | the check holds exactly when `value`, `variation` or `version` is a key |
| LegacyFeatureFlags.ContainsValueAndVersionKeysIff | Darkly/Darkly/Models/FeatureFlag.swift:117-121 | the check holds exactly when both `value` and `version` are keys |
| LegacyFeatureFlags.Parse | Darkly/Darkly/Models/FeatureFlag.swift:30-34 | parsing fails exactly when the dictionary is absent or has none of the three flag keys |
| LegacyFeatureFlags.ParseObject | Darkly/Darkly/Models/FeatureFlag.swift:36-39 | anything but a dictionary fails; a dictionary parses as `Parse` does |
| LegacyFeatureFlags.PreparedValue | Darkly/Darkly/Models/FeatureFlag.swift:43-46 | when excising nulls a dictionary value loses its null entries; any other value is kept |
| LegacyFeatureFlags.ToDictionary | Darkly/Darkly/Models/FeatureFlag.swift:41-56 | without excision all three keys are written, null exactly for absent fields; with excision no null remains |
| LegacyFeatureFlags.SameIff | Darkly/Darkly/Models/FeatureFlag.swift:59-73 | two flags are equal exactly when variation and version agree, whatever their values |
| LegacyFeatureFlags.MatchesVariationIff | Darkly/Darkly/Models/FeatureFlag.swift:75-80 | variations match exactly when they are equal, both absent included |
| LegacyFeatureFlags.RoundTripKeepingNulls | Darkly/Darkly/Models/FeatureFlag.swift:30-56 | parsing the unexcised dictionary gives back the same flag |
| LegacyFeatureFlags.RoundTripExcisingNulls | Darkly/Darkly/Models/FeatureFlag.swift:41-56 | the excised dictionary parses exactly when some field is present, and then gives back the flag with its value's nulls removed |
| LegacyFeatureFlags.AllAbsentDoesNotReparse | Darkly/Darkly/Models/FeatureFlag.swift:47-53 | a flag with nothing present excises to an empty dictionary, which does not parse |
| LegacyFeatureFlags.CollectionDictionary | Darkly/Darkly/Models/FeatureFlag.swift:82-86 | a flag map serialises key by key |
| LegacyFeatureFlags.FlagCollection | Darkly/Darkly/Models/FeatureFlag.swift:101-106 | the collection parses exactly when every element parses, element by element, with the same keys |
| LegacyFeatureFlags.CollectionFailsOnBadElement | Darkly/Darkly/Models/FeatureFlag.swift:101-106 | one unparsable element fails the whole collection |
| LegacyFeatureFlags.ElementRoundTrip | Darkly/Darkly/Models/FeatureFlag.swift:36-39 | a flag's unexcised dictionary, as a JSON object, parses back to the flag |
| LegacyFeatureFlags.CollectionElementsRoundTrip | Darkly/Darkly/Models/FeatureFlag.swift:101-106 | every element of a serialised flag map parses back to its flag |
| LegacyFeatureFlags.CollectionRoundTrip | Darkly/Darkly/Models/FeatureFlag.swift:101-106 | parsing a serialised flag map gives back the same map |
| LegacyFeatureFlags.ExcisedCollectionWithEmptyFlagFails | Darkly/Darkly/Models/FeatureFlag.swift:82-106 | a map holding an all-absent flag, serialised with excision, no longer parses |
| Configuration.MinimaFor | LaunchDarkly/LaunchDarklyTests/Models/LDConfigSpec.swift:132-148 | a debug build uses the debug minima, any other build the production minima |
| Configuration.NewConfig | LaunchDarkly/LaunchDarklyTests/Models/LDConfigSpec.swift:69-95 | a fresh configuration has the given key, no private attributes, background updates off, start online on and streaming |
| Configuration.EqualIsEquivalence | LaunchDarkly/LaunchDarklyTests/Models/LDConfigSpec.swift:192-200 | configuration equality is reflexive, symmetric and transitive |
| Configuration.NewConfigEquality | LaunchDarkly/LaunchDarklyTests/Models/LDConfigSpec.swift:196-202 | two fresh configurations are equal exactly when their mobile keys are, whatever their environments |
| Configuration.FlagPollingInterval | LaunchDarkly/LaunchDarklyTests/Models/LDConfigSpec.swift:150-180 | the run mode's interval is never below its minimum, and is the configured interval when that is at or above it |
| Configuration.IsReportRetryStatusCode | LaunchDarkly/LaunchDarklyTests/Models/LDConfigSpec.swift:210-216 | a status code triggers a REPORT retry exactly when it is 400, 405 or 501 |
| Configuration.Stored | LaunchDarkly/LaunchDarklyTests/Models/LDConfigSpec.swift:97-130 | a setting stores its value as given, except background updates (only where the system allows them) and the diagnostic interval (raised to its minimum) |
| Configuration.Apply | LaunchDarkly/LaunchDarklyTests/Models/LDConfigSpec.swift:43-67 | a setter never changes the configuration's environment |
| Configuration.ApplyThenRead | LaunchDarkly/LaunchDarklyTests/Models/LDConfigSpec.swift:97-130 | after a setter its field reads back the stored value |
| Configuration.ApplyKeepsOtherSettings | LaunchDarkly/LaunchDarklyTests/Models/LDConfigSpec.swift:102-104 | a setter leaves every other setting as it was |
| Configuration.ApplyChangesEquality | LaunchDarkly/LaunchDarklyTests/Models/LDConfigSpec.swift:203-207 | after a setter the configuration still equals the old one exactly when the field already held the stored value |
| Configuration.EnableBackgroundUpdatesGated | LaunchDarkly/LaunchDarklyTests/Models/LDConfigSpec.swift:227-235 | enabling background updates reads back true exactly on a system that allows them |
| Configuration.AllowStreamingModeByOs | LaunchDarkly/LaunchDarklyTests/Models/LDConfigSpec.swift:218-225 | a fresh configuration allows streaming exactly when its system is streaming-capable, that is on every system but watchOS, and no setter changes that |
| Configuration.DiagnosticRecordingIntervalClamped | LaunchDarkly/LaunchDarklyTests/Models/LDConfigSpec.swift:182-190 | the diagnostic interval reads back as the larger of the value and its minimum |
| Configuration.ApplyAll | LaunchDarkly/LaunchDarklyTests/Models/LDConfigSpec.swift:102-104 | assigning settings to distinct fields in turn leaves each field holding its stored value |
| ConfigScenarios.ConnectionSettingsChange | LaunchDarkly/LaunchDarklyTests/Models/LDConfigSpec.swift:44-49 | each alternative connection value changes a fresh configuration |
| ConfigScenarios.UpdateSettingsChange | LaunchDarkly/LaunchDarklyTests/Models/LDConfigSpec.swift:50-55 | each alternative update value changes a fresh configuration on a background-enabled system |
| ConfigScenarios.UserSettingsChange | LaunchDarkly/LaunchDarklyTests/Models/LDConfigSpec.swift:56-61 | each alternative user-privacy value changes a fresh configuration |
| ConfigScenarios.ReportingSettingsChange | LaunchDarkly/LaunchDarklyTests/Models/LDConfigSpec.swift:62-67 | each alternative reporting value changes a fresh configuration |
| ConfigScenarios.TestSettingsChangeNewConfig | LaunchDarkly/LaunchDarklyTests/Models/LDConfigSpec.swift:43-67 | all 24 alternative values change a fresh configuration |
| ConfigScenarios.TestSettingsBreakEquality | LaunchDarkly/LaunchDarklyTests/Models/LDConfigSpec.swift:192-208 | each alternative value makes a fresh configuration unequal to the original, in both directions |
| ConfigScenarios.TestSettingsDistinct | LaunchDarkly/LaunchDarklyTests/Models/LDConfigSpec.swift:43-67 | the 24 alternative assignments are to 24 different settings |
| ConfigScenarios.AssignEverySetting | LaunchDarkly/LaunchDarklyTests/Models/LDConfigSpec.swift:97-130 | after all assignments every field reads back its stored value: background updates only where allowed, diagnostic interval as given |
| FlagStores.ReplaceStore | LaunchDarkly/LaunchDarkly/LDClient.swift:722-725 | a snapshot replaces the store when every element parses, with the same keys, and empties it otherwise |
| FlagStores.UpdateStore | LaunchDarkly/LaunchDarkly/LDClient.swift:726-729 | a patch newer than the stored version, or one where either version is absent, stores under its key exactly the flag the patch parses to and leaves every other flag; any other patch changes nothing |
| FlagStores.DeleteFlag | LaunchDarkly/LaunchDarkly/LDClient.swift:730-733 | a delete carrying a version newer than the stored one removes its key and nothing else; any other delete, a versionless one included, changes nothing |
| FlagStores.StaleChangesIgnored | LaunchDarkly/LaunchDarkly/LDClient.swift:726-733 | a patch or delete at or below the stored version is ignored |
| FlagStores.PatchIdempotent | LaunchDarkly/LaunchDarkly/LDClient.swift:726-729 | applying a patch twice equals applying it once, with or without a version |
| FlagStores.PatchOrderIrrelevant | LaunchDarkly/LaunchDarkly/LDClient.swift:726-729 | two differently versioned patches of one flag give the same store in either order |
| FlagStores.DeleteAtPatchedVersionIgnored | LaunchDarkly/LaunchDarkly/LDClient.swift:726-733 | a delete at the version a patch stored leaves the patched flag in place |
| FlagStores.DeleteRemovesFlag | LaunchDarkly/LaunchDarkly/LDClient.swift:730-733 | an applicable delete leaves no flag under its key |
| FlagStores.VersionlessDeleteIgnored | LaunchDarkly/LaunchDarkly/LDClient.swift:730-733 | a delete body without an integer version leaves the store as it was |
| ClientRules.IsClientUnauthorized | LaunchDarkly/LaunchDarkly/LDClient.swift:741-744 | the error that takes the client offline is exactly a response or stream error with status 401 (the classification `isClientUnauthorized` of FlagSynchronizer.swift, lines 31-42) |
| ClientRules.ReasonOnlineUnavailable | LaunchDarkly/LaunchDarkly/LDClient.swift:172-186 | the reason is empty exactly when going online is not asked for or is possible, and otherwise names the first failing condition |
| ClientRules.OnlineGate | LaunchDarkly/LaunchDarkly/LDClient.swift:164-170 | in the foreground a started client with a mobile key may go online; in the background it also needs background updates; an unstarted client never may |
| ClientRules.BackgroundUnsupportedWhereGated | LaunchDarkly/LaunchDarkly/LDClient.swift:168-170 | on a system without background updates, enabling them still leaves the background unsupported, so the client cannot go online there |
| ClientRules.EffectiveStreamingMode | LaunchDarkly/LaunchDarkly/LDClient.swift:936-940 | the synchronizer streams exactly in the foreground, with streaming configured and allowed by the system |
| ClientRules.MakeSynchronizer | LaunchDarkly/LaunchDarkly/LDClient.swift:289-293 | a new synchronizer is offline, uses the given service and fits the configuration and run mode |
| ClientRules.SynchronizerMatchesIff | LaunchDarkly/LaunchDarkly/LDClient.swift:936-940 | a synchronizer fits exactly when it differs from a freshly made one only in online state and service, or in polling interval when both stream |
| ClientRules.ForegroundSynchronizerInBackground | LaunchDarkly/LaunchDarkly/LDClient.swift:919-940 | a foreground synchronizer still fits the background exactly when it polls at the background interval |
| ClientRules.FlagFor | LaunchDarkly/LaunchDarkly/LDClient.swift:500 | a flag is found exactly when its key is stored |
| ClientRules.EvaluatedValue | LaunchDarkly/LaunchDarkly/LDClient.swift:501 | a read returns the flag's value when it has the requested type, and the fallback otherwise |
| ClientRules.ErrorReason | LaunchDarkly/LaunchDarkly/LDClient.swift:418-426 | an error reason has exactly the kind ERROR and the given error kind |
| ClientRules.CheckErrorKinds | LaunchDarkly/LaunchDarkly/LDClient.swift:418-426 | there is no error exactly when the client has started and the flag exists; CLIENT_NOT_READY takes precedence over FLAG_NOT_FOUND |
| ClientRules.DetailReason | LaunchDarkly/LaunchDarkly/LDClient.swift:484 | a detailed read reports the error kind when there is one, else the flag's own reason |
| ClientRules.AllFlagValues | LaunchDarkly/LaunchDarkly/LDClient.swift:537-543 | every flag with a value is reported with that value, and no other |
| ClientRules.AppliedUpdate | LaunchDarkly/LaunchDarkly/LDClient.swift:719-734 | no kind, ping and put replace the store, a patch updates it, a delete deletes from it; valid stores stay valid |
| ClientRules.CachedFlags | LaunchDarkly/LaunchDarkly/LDClient.swift:210-212 | cached flags for the user and mobile key replace the current ones only when present and non-empty |
| Client.LDClient.constructor | LaunchDarkly/LaunchDarkly/LDClient.swift:958-1011 | a started, offline, foreground client with cached flags restored; an offline event reporter for the configuration and service holding just the identify event and no flush, and an offline foreground diagnostic reporter; the start completion waits in the throttler exactly when starting online is possible, and is called at once otherwise |
| Client.LDClient.SetIsOnline | LaunchDarkly/LaunchDarkly/LDClient.swift:62-79 | the value reaches the synchronizer and both reporters; the connection information hears only of a change |
| Client.LDClient.Go | LaunchDarkly/LaunchDarkly/LDClient.swift:146-162 | an offline completion is called at once, an online one waits for the next flag update; the online state becomes the request |
| Client.LDClient.InternalSetOnline | LaunchDarkly/LaunchDarkly/LDClient.swift:128-142 | offline or impossible requests take effect at once and leave the throttler alone; possible online requests only fill the throttler |
| Client.LDClient.RunThrottled | LaunchDarkly/LaunchDarkly/LDClient.swift:137-140 | the deferred action goes online exactly when the client can at that moment, empties the throttler, and changes the reporters only in their online state; with no pending action nothing else changes |
| Client.LDClient.RenewService | LaunchDarkly/LaunchDarkly/LDClient.swift:284-295 | a new service for the configuration and user reaches both reporters and a new offline synchronizer |
| Client.LDClient.SetConfig | LaunchDarkly/LaunchDarkly/LDClient.swift:197-219 | an equal configuration changes nothing else; a different one reconfigures the client (reporters offline, with the new service and configuration) and keeps its invariant |
| Client.LDClient.Reconfigure | LaunchDarkly/LaunchDarkly/LDClient.swift:207-217 | offline, cached flags restored, new service and synchronizer, reporter given the configuration, earlier online state requested again |
| Client.LDClient.SetAllUserAttributesPrivate | LaunchDarkly/LaunchDarkly/LDClient.swift:225-227 | the setting is stored, and the client reconfigures exactly when it changed |
| Client.LDClient.InternalIdentify | LaunchDarkly/LaunchDarkly/LDClient.swift:256-280 | the new user with cached flags and a new service; reporters offline with that service; an identify event if started; the completion waits in the throttler exactly when the client was online and may be |
| Client.LDClient.SetRunMode | LaunchDarkly/LaunchDarkly/LDClient.swift:909-934 | on a change the synchronizer fits the new mode, kept when it already did and replaced otherwise, and is connected exactly when online and supported |
| Client.LDClient.OnFlagSyncComplete | LaunchDarkly/LaunchDarkly/LDClient.swift:715-738 | success applies the update, caches the flags for the user and mobile key, calls every waiting completion and leaves the collaborators alone; failure is processed exactly as `Process` states |
| Client.LDClient.Process | LaunchDarkly/LaunchDarkly/LDClient.swift:740-749 | only an unauthorized error takes the client and its collaborators offline, and nothing else of them changes; every error is logged and passed to observers |
| Client.LDClient.OnEventSyncComplete | LaunchDarkly/LaunchDarkly/LDClient.swift:805-813 | success changes no state; failure is processed exactly as `Process` states |
| Client.LDClient.VariationInternal | LaunchDarkly/LaunchDarkly/LDClient.swift:494-507 | the fallback and no event before start; afterwards the typed flag value or fallback, with a feature event |
| Client.LDClient.VariationDetail | LaunchDarkly/LaunchDarkly/LDClient.swift:482-487 | the value as a read returns it, the flag's variation, and the error kind or flag reason; only the feature event is added, nothing else changes |
| Client.LDClient.AllFlags | LaunchDarkly/LaunchDarkly/LDClient.swift:537-543 | nothing exactly before start; afterwards every flag value held |
| Client.LDClient.TrackEvent | LaunchDarkly/LaunchDarkly/LDClient.swift:783-792 | a started client records one custom event for its user; otherwise nothing changes |
| Client.LDClient.InternalFlush | LaunchDarkly/LaunchDarkly/LDClient.swift:801-803 | one flush is asked of the event reporter and nothing else changes |
| Client.LDClient.InternalClose | LaunchDarkly/LaunchDarkly/LDClient.swift:307-313 | one flush, offline with the synchronizer and reporters otherwise unchanged, and no longer started |
| ClientScenarios.OfflineRequestKeepsPendingOnline | LaunchDarkly/LaunchDarkly/LDClient.swift:128-142 | a deferred online action brings the client online even after a later offline request |
| ClientScenarios.UnauthorizedErrorKeepsPendingOnline | LaunchDarkly/LaunchDarkly/LDClient.swift:740-749 | a deferred online action brings the client online even after an unauthorized error |
| ClientScenarios.ClosedClientStaysOffline | LaunchDarkly/LaunchDarkly/LDClient.swift:307-313 | a deferred online action that runs after close leaves the client offline |
| ClientScenarios.NewConfigRestoresOnline | LaunchDarkly/LaunchDarkly/LDClient.swift:197-219 | an online client given a different, usable configuration is online again once the throttler runs, on the new service |
| ClientScenarios.IdentifyRestoresOnline | LaunchDarkly/LaunchDarkly/LDClient.swift:256-280 | an online client identifying a user is online again once the throttler runs, with the completion waiting for flags |
| ClientScenarios.PutSnapshotParses | LaunchDarkly/LaunchDarkly/Models/FeatureFlag/FeatureFlag.swift:123-133 | a streamed snapshot whose element lacks `key` parses with the collection key |
| ClientScenarios.StartThenReceivePut | LaunchDarkly/LaunchDarkly/LDClient.swift:715-738 | a client started over cached flags goes online, takes a `put`, caches the new flags and calls its start completion |

## Left out

- `FlagStore.swift` is not part of this model. The replace, update and delete rules in `FlagStores` are the store's rules as the library describes them: a snapshot replaces the store with its parsed flags, and a snapshot with any element that fails to parse empties the store; a patch is applied when it names a flag and its version is strictly newer than the stored one or either version is absent; a delete is applied only when it names a flag and carries a version strictly newer than the stored one (or nothing versioned is stored).
- `Throttler.swift` is not part of this model. The throttler is one slot holding the latest deferred online action, and `RunThrottled` is the moment it fires. The increasing delay, jitter, timers and the immediate run of a first call are not modelled.
- `ConnectionInformation.swift` is not part of this model. Its updates are recorded as a log of the checks the client asks for. The effective streaming mode is foreground, streaming configured and streaming allowed by the system, as the initialiser (`LDClient.swift` line 977) and the run-mode comment (lines 919-920) use it. The public documentation of `LDClient.swift` (lines 368 and 436) says instead that on macOS the client may stream in the background too; the model does not follow that.
- `LDConfig.swift` is not part of this model. The configuration is modelled as far as its tests fix it. The default values and minima are the library's published constants.
- Concurrency: the dispatch queues, the main-thread hops and the asynchronous cache store are not modelled. Every operation is atomic.
- The `instances` registry of secondary environments, and the public `start`, `setOnline`, `identify`, `flush` and `close` that fan out over it, are not modelled. The model is one instance, through its internal operations.
- The start timeout variant of `start` is not modelled, because it is timing only.
- Flag change, connection mode and flags-unchanged observers are not modelled, nor the change notifications. The completion bookkeeping of `go` stands in for the observers it registers.
- Logging and the log-level switch are not modelled. Neither is `failedConversionMessage`, nor `isCollection`, because they only produce log text.
- `cacheConverter` (old cache formats), `clearFlagResponseCache` and the user's flag-store copy in `internalIdentify` are not modelled. The cache is a map from user key and mobile key to flags. Its size bound (`maxCachedUsers`) is not modelled.
- The foreground and background notifications (`didEnterBackground`, `willEnterForeground`) are not modelled separately: each only sets the run mode, which `SetRunMode` models. `didCloseEventSource` is not modelled, because it only records a connection check.
- The numeric bridging of `NSNumber` (a boolean read as an integer) is not modelled. A typed read succeeds only on the matching JSON tag.
- FeatureFlags.ParseTrackingContext: `EventTrackingContext.swift` is not part of this model. The context's keys (`trackEvents`, `debugEventsUntilDate`) and its shape are assumed, and the debug date is kept as the integer of milliseconds, so the conversion to and from a `Date` is not modelled; the exact round trips of `TrackingContextDictionary`, `TrackingContextReadsBack` and `RoundTrip` rest on that assumption.
- Client.LDClient.TrackEvent: the throwing path of custom-event construction (invalid data) is not modelled, and the metric value is not modelled.
- Client.LDClient.VariationDetail: models the optional-fallback form. The non-optional form differs only in replacing an absent value by the fallback.
- Configuration.NewConfig: the contract states only the defaults that the client's behaviour depends on. The remaining default values are the constants in its body.
- Configuration.FlagPollingInterval: intervals are whole milliseconds, so the tests' offsets of a thousandth of a second around a minimum become offsets of one millisecond.
- Event and diagnostic payloads, the event store's capacity, user attributes and private-attribute redaction are not modelled.
