/**
 * The client orchestrator: its online state, the gate and throttler in front
 * of going online, the offline-swap-restore sequence of a new configuration
 * or user, the handling of synchronization results, flag reads and events.
 * Collaborators whose code is not modelled (synchronizer, event reporter,
 * diagnostic reporter, throttler, flag cache, connection information,
 * observers) are fields that record what the client hands them.
 */
module Client {
  import opened Wrappers
  import opened Json
  import opened FeatureFlags
  import opened FlagStores
  import opened Configuration
  import opened ClientRules

  class LDClient {
    var online: bool
    var hasStarted: bool
    var runMode: RunMode
    var config: Config
    var user: User
    var service: Service
    var synchronizer: Synchronizer
    var eventReporter: EventReporter
    var diagnostics: DiagnosticReporter
    /** The throttler's single slot for a deferred "go online" action. */
    var throttler: Option<PendingOnline>
    /** The flag cache, by user key and mobile key. */
    var flagCache: map<(string, string), Flags>
    /** Every change reported to the connection information, oldest first. */
    var connectionLog: seq<ConnectionCheck>
    /** Completions waiting for the next flag update, and completions already called, in order. */
    var awaiting: seq<Completion>
    var called: seq<Completion>
    /** Errors passed on to error observers. */
    var errorsNotified: seq<SyncError>

    /**
     * What holds of the client at every step: the reporters mirror the online
     * state; the synchronizer is connected only while the client is online
     * and may be; only a started client with a mobile key is online; every
     * collaborator uses the current service; every flag held is valid.
     */
    ghost predicate Consistent()
      reads this
    {
      && eventReporter.online == online && diagnostics.online == online
      && (synchronizer.online ==> online && CanGoOnline(hasStarted, runMode, config))
      && (online ==> hasStarted && config.mobileKey != "")
      && eventReporter.service == service && diagnostics.service == service && synchronizer.service == service
      && diagnostics.runMode == runMode
      && ValidFlags(user.flags)
      && (forall k | k in flagCache :: ValidFlags(flagCache[k]))
    }

    /**
     * The client's invariant between operations: consistent, and the service
     * and event reporter made for a configuration equal to the current one
     * and, for the service, the current user.
     */
    ghost predicate Valid()
      reads this
    {
      && Consistent()
      && Equal(service.config, config) && service.userKey == user.key && Equal(eventReporter.config, config)
    }

    /**
     * The initialiser: a started, offline client in the foreground for the
     * configuration and user, with the cached flags restored, an identify
     * event recorded and the configured initial online request made.
     */
    constructor (configuration: Config, startUser: Option<User>, anonymousUser: User,
                 cache: map<(string, string), Flags>, completion: Completion)
      requires startUser.Some? ==> ValidFlags(startUser.value.flags)
      requires ValidFlags(anonymousUser.flags)
      requires forall k | k in cache :: ValidFlags(cache[k])
      ensures Valid()
      ensures hasStarted && !online && runMode == Foreground && config == configuration
      ensures user.key == (if startUser.Some? then startUser.value.key else anonymousUser.key)
      ensures user.flags == CachedFlags(cache, user.key, configuration.mobileKey,
                                        if startUser.Some? then startUser.value.flags else anonymousUser.flags)
      ensures service == Service(configuration, user.key) && flagCache == cache
      ensures synchronizer == MakeSynchronizer(configuration, Foreground, service)
      ensures eventReporter == EventReporter(false, configuration, service, [IdentifyEvent(user.key)], 0)
      ensures diagnostics == DiagnosticReporter(false, service, Foreground)
      ensures configuration.startOnline && CanGoOnline(true, Foreground, configuration) ==>
                throttler == Some(PendingOnline(Some(completion))) && called == []
      ensures !(configuration.startOnline && CanGoOnline(true, Foreground, configuration)) ==>
                throttler.None? && called == [completion]
      ensures awaiting == [] && connectionLog == [] && errorsNotified == []
    {
      online := false;
      hasStarted := true;
      runMode := Foreground;
      config := configuration;
      var u := if startUser.Some? then startUser.value else anonymousUser;
      var s := Service(configuration, u.key);
      service := s;
      diagnostics := DiagnosticReporter(false, s, Foreground);
      eventReporter := EventReporter(false, configuration, s, [], 0);
      synchronizer := MakeSynchronizer(configuration, Foreground, s);
      throttler := None;
      flagCache := cache;
      connectionLog := [];
      awaiting := [];
      called := [];
      errorsNotified := [];
      user := u.(flags := CachedFlags(cache, u.key, configuration.mobileKey, u.flags));
      new;
      eventReporter := eventReporter.(events := eventReporter.events + [IdentifyEvent(user.key)]);
      EqualIsEquivalence(configuration, configuration, configuration);
      InternalSetOnline(configuration.startOnline, Some(completion));
    }

    /**
     * The `isOnline` setter: the value goes to the synchronizer and both
     * reporters, and the connection information hears of it only when it
     * changes.
     */
    method SetIsOnline(value: bool)
      requires Consistent() && (value ==> CanGoOnline(hasStarted, runMode, config))
      modifies this
      ensures Consistent() && (old(Valid()) ==> Valid())
      ensures online == value
      ensures synchronizer == old(synchronizer).(online := value)
      ensures eventReporter == old(eventReporter).(online := value)
      ensures diagnostics == old(diagnostics).(online := value)
      ensures connectionLog == old(connectionLog) + (if value != old(online) then [OnlineSetCheck(value)] else [])
      ensures hasStarted == old(hasStarted) && runMode == old(runMode) && config == old(config)
      ensures user == old(user) && service == old(service) && throttler == old(throttler)
      ensures flagCache == old(flagCache) && awaiting == old(awaiting) && called == old(called)
      ensures errorsNotified == old(errorsNotified)
    {
      var wasOnline := online;
      online := value;
      synchronizer := synchronizer.(online := value);
      eventReporter := eventReporter.(online := value);
      diagnostics := diagnostics.(online := value);
      if value != wasOnline {
        connectionLog := connectionLog + [OnlineSetCheck(value)];
      }
    }

    /**
     * `go(online:)`: a completion for going offline is called at once, one
     * for going online waits for the next flag update; then the online state
     * is set.
     */
    method Go(goOnline: bool, completion: Option<Completion>)
      requires Consistent() && (goOnline ==> CanGoOnline(hasStarted, runMode, config))
      modifies this
      ensures Consistent() && (old(Valid()) ==> Valid())
      ensures online == goOnline
      ensures called == old(called) + (if completion.Some? && !goOnline then [completion.value] else [])
      ensures awaiting == old(awaiting) + (if completion.Some? && goOnline then [completion.value] else [])
      ensures synchronizer == old(synchronizer).(online := goOnline)
      ensures eventReporter == old(eventReporter).(online := goOnline)
      ensures diagnostics == old(diagnostics).(online := goOnline)
      ensures connectionLog == old(connectionLog) + (if goOnline != old(online) then [OnlineSetCheck(goOnline)] else [])
      ensures hasStarted == old(hasStarted) && runMode == old(runMode) && config == old(config)
      ensures user == old(user) && service == old(service) && throttler == old(throttler)
      ensures flagCache == old(flagCache) && errorsNotified == old(errorsNotified)
    {
      if completion.Some? && !goOnline {
        called := called + [completion.value];
      } else if completion.Some? {
        awaiting := awaiting + [completion.value];
      }
      SetIsOnline(goOnline);
    }

    /**
     * `internalSetOnline`: a request to go offline, or one that cannot go
     * online, takes effect at once without the throttler; any other request
     * fills the throttler's slot and changes nothing else yet.
     */
    method InternalSetOnline(goOnline: bool, completion: Option<Completion>)
      requires Consistent()
      modifies this
      ensures Consistent() && (old(Valid()) ==> Valid())
      ensures !(goOnline && CanGoOnline(hasStarted, runMode, config)) ==>
                && !online
                && throttler == old(throttler)
                && called == old(called) + (if completion.Some? then [completion.value] else [])
                && synchronizer == old(synchronizer).(online := false)
                && eventReporter == old(eventReporter).(online := false)
                && diagnostics == old(diagnostics).(online := false)
                && connectionLog == old(connectionLog) + (if old(online) then [OnlineSetCheck(false)] else [])
      ensures goOnline && CanGoOnline(hasStarted, runMode, config) ==>
                && throttler == Some(PendingOnline(completion))
                && online == old(online) && called == old(called)
                && synchronizer == old(synchronizer) && eventReporter == old(eventReporter)
                && diagnostics == old(diagnostics) && connectionLog == old(connectionLog)
      ensures hasStarted == old(hasStarted) && runMode == old(runMode) && config == old(config)
      ensures user == old(user) && service == old(service) && awaiting == old(awaiting)
      ensures flagCache == old(flagCache) && errorsNotified == old(errorsNotified)
    {
      if !(goOnline && CanGoOnline(hasStarted, runMode, config)) {
        Go(false, completion);
      } else {
        throttler := Some(PendingOnline(completion));
      }
    }

    /**
     * The throttler running its deferred action: the action goes online only
     * if the client still can, re-checked at that moment.
     */
    method RunThrottled()
      requires Consistent()
      modifies this
      ensures Consistent() && (old(Valid()) ==> Valid())
      ensures throttler.None?
      ensures old(throttler).None? ==> online == old(online) && called == old(called) && awaiting == old(awaiting)
      ensures old(throttler).None? ==> synchronizer == old(synchronizer) && connectionLog == old(connectionLog)
      ensures old(throttler).Some? ==>
                var goOnline := CanGoOnline(hasStarted, runMode, config);
                var completion := old(throttler).value.completion;
                && online == goOnline
                && synchronizer == old(synchronizer).(online := goOnline)
                && called == old(called) + (if completion.Some? && !goOnline then [completion.value] else [])
                && awaiting == old(awaiting) + (if completion.Some? && goOnline then [completion.value] else [])
                && connectionLog == old(connectionLog) + (if goOnline != old(online) then [OnlineSetCheck(goOnline)] else [])
      ensures eventReporter == old(eventReporter).(online := online)
      ensures diagnostics == old(diagnostics).(online := online)
      ensures hasStarted == old(hasStarted) && runMode == old(runMode) && config == old(config)
      ensures user == old(user) && service == old(service)
      ensures flagCache == old(flagCache) && errorsNotified == old(errorsNotified)
    {
      match throttler {
        case None =>
        case Some(pending) =>
          throttler := None;
          Go(CanGoOnline(hasStarted, runMode, config), pending.completion);
      }
    }

    /**
     * The `service` cascade: a service made for the current configuration and
     * user goes to both reporters, and a new, offline synchronizer is made
     * for it, the configuration and the run mode.
     */
    method RenewService()
      requires Consistent()
      modifies this
      ensures Consistent()
      ensures service == Service(config, user.key)
      ensures synchronizer == MakeSynchronizer(config, runMode, service)
      ensures eventReporter == old(eventReporter).(service := service)
      ensures diagnostics == old(diagnostics).(service := service)
      ensures online == old(online) && hasStarted == old(hasStarted) && runMode == old(runMode)
      ensures config == old(config) && user == old(user) && throttler == old(throttler)
      ensures flagCache == old(flagCache) && connectionLog == old(connectionLog)
      ensures awaiting == old(awaiting) && called == old(called) && errorsNotified == old(errorsNotified)
    {
      EqualIsEquivalence(config, config, config);
      service := Service(config, user.key);
      eventReporter := eventReporter.(service := service);
      diagnostics := diagnostics.(service := service);
      synchronizer := MakeSynchronizer(config, runMode, service);
    }

    /**
     * Setting `config`: the configuration is stored, and if it differs from
     * the old one the client reconfigures itself for it.
     */
    method SetConfig(newConfig: Config)
      requires Valid()
      modifies this
      ensures Valid()
      ensures config == newConfig
      ensures Equal(newConfig, old(config)) ==>
                && online == old(online) && user == old(user) && service == old(service)
                && synchronizer == old(synchronizer) && eventReporter == old(eventReporter) && diagnostics == old(diagnostics)
                && throttler == old(throttler) && connectionLog == old(connectionLog) && called == old(called)
      ensures !Equal(newConfig, old(config)) ==>
                Reconfigured(newConfig, old(online), old(user), old(eventReporter), old(diagnostics), old(throttler), old(connectionLog))
      ensures hasStarted == old(hasStarted) && runMode == old(runMode) && flagCache == old(flagCache)
      ensures awaiting == old(awaiting) && called == old(called) && errorsNotified == old(errorsNotified)
    {
      if Equal(newConfig, config) {
        EqualIsEquivalence(service.config, config, newConfig);
        EqualIsEquivalence(eventReporter.config, config, newConfig);
        config := newConfig;
      } else {
        Reconfigure(newConfig);
      }
    }

    /**
     * The state after a reconfiguration for `newConfig`, from the online
     * state, user, event reporter, throttler and connection log before it:
     * offline; the cached flags for the user and new mobile key restored; a
     * service and an offline synchronizer made for the new configuration; the
     * event reporter given both; and the earlier online state requested
     * again, which leaves a deferred online action when it was online and
     * still may be.
     */
    ghost predicate Reconfigured(newConfig: Config, wasOnline: bool, oldUser: User, oldReporter: EventReporter,
                                 oldDiagnostics: DiagnosticReporter, oldThrottler: Option<PendingOnline>,
                                 oldLog: seq<ConnectionCheck>)
      reads this
    {
      && config == newConfig
      && !online
      && user.key == oldUser.key
      && user.flags == CachedFlags(flagCache, oldUser.key, newConfig.mobileKey, oldUser.flags)
      && service == Service(newConfig, oldUser.key)
      && synchronizer == MakeSynchronizer(newConfig, runMode, service)
      && eventReporter == oldReporter.(online := false, config := newConfig, service := service)
      && diagnostics == oldDiagnostics.(online := false, service := service)
      && throttler == (if wasOnline && CanGoOnline(hasStarted, runMode, newConfig) then Some(PendingOnline(None)) else oldThrottler)
      && connectionLog == oldLog + (if wasOnline then [OnlineSetCheck(false)] else [])
    }

    /**
     * The body of the `config` observer past its equality guard: offline,
     * cached flags, service, event reporter configuration, online again.
     */
    method Reconfigure(newConfig: Config)
      requires Valid()
      modifies this
      ensures Valid()
      ensures Reconfigured(newConfig, old(online), old(user), old(eventReporter), old(diagnostics), old(throttler), old(connectionLog))
      ensures hasStarted == old(hasStarted) && runMode == old(runMode) && flagCache == old(flagCache)
      ensures awaiting == old(awaiting) && called == old(called) && errorsNotified == old(errorsNotified)
    {
      var wasOnline := online;
      // The client goes offline before the new configuration is stored
      // rather than just after; the connection log records no configuration,
      // so the state that results is the same.
      InternalSetOnline(false, None);
      config := newConfig;
      user := user.(flags := CachedFlags(flagCache, user.key, config.mobileKey, user.flags));
      RenewService();
      eventReporter := eventReporter.(config := config);
      EqualIsEquivalence(config, config, config);
      InternalSetOnline(wasOnline, None);
    }

    /**
     * `internalIdentify`: the new user is stored, the client goes offline,
     * restores the user's cached flags, renews its service, records an
     * identify event if it has started, and repeats its earlier online state
     * as a new online request carrying the completion.
     */
    method InternalIdentify(newUser: User, completion: Option<Completion>)
      requires Valid() && ValidFlags(newUser.flags)
      modifies this
      ensures Valid()
      ensures !online
      ensures user.key == newUser.key
      ensures user.flags == CachedFlags(flagCache, newUser.key, config.mobileKey, newUser.flags)
      ensures service == Service(config, newUser.key)
      ensures synchronizer == MakeSynchronizer(config, runMode, service)
      ensures eventReporter == old(eventReporter).(online := false, service := service, events := old(eventReporter.events) +
                                                      (if hasStarted then [IdentifyEvent(newUser.key)] else []))
      ensures diagnostics == old(diagnostics).(online := false, service := service)
      ensures old(online) && CanGoOnline(hasStarted, runMode, config) ==>
                throttler == Some(PendingOnline(completion)) && called == old(called)
      ensures !(old(online) && CanGoOnline(hasStarted, runMode, config)) ==>
                throttler == old(throttler) && called == old(called) + (if completion.Some? then [completion.value] else [])
      ensures connectionLog == old(connectionLog) + (if old(online) then [OnlineSetCheck(false)] else [])
      ensures hasStarted == old(hasStarted) && runMode == old(runMode) && config == old(config)
      ensures flagCache == old(flagCache) && awaiting == old(awaiting) && errorsNotified == old(errorsNotified)
    {
      user := newUser;
      var wasOnline := online;
      InternalSetOnline(false, None);
      user := user.(flags := CachedFlags(flagCache, user.key, config.mobileKey, user.flags));
      RenewService();
      if hasStarted {
        eventReporter := eventReporter.(events := eventReporter.events + [IdentifyEvent(user.key)]);
      }
      InternalSetOnline(wasOnline, completion);
    }

    /**
     * `internalSetAllUserAttributesPrivate`: a configuration change like any
     * other, so the client reconfigures itself only when the value differs.
     */
    method SetAllUserAttributesPrivate(allPrivate: bool)
      requires Valid()
      modifies this
      ensures Valid()
      ensures config == old(config).(allUserAttributesPrivate := allPrivate)
      ensures allPrivate == old(config.allUserAttributesPrivate) ==>
                && online == old(online) && user == old(user) && service == old(service)
                && synchronizer == old(synchronizer) && eventReporter == old(eventReporter) && diagnostics == old(diagnostics)
                && throttler == old(throttler) && connectionLog == old(connectionLog)
      ensures allPrivate != old(config.allUserAttributesPrivate) ==>
                Reconfigured(config, old(online), old(user), old(eventReporter), old(diagnostics), old(throttler), old(connectionLog))
      ensures hasStarted == old(hasStarted) && runMode == old(runMode) && flagCache == old(flagCache)
      ensures awaiting == old(awaiting) && called == old(called) && errorsNotified == old(errorsNotified)
    {
      SetConfig(config.(allUserAttributesPrivate := allPrivate));
    }

    /**
     * Setting `runMode`: on a change, the synchronizer is replaced by one made
     * for the new run mode unless it already fits it, and is connected
     * exactly when the client is online and the new run mode is supported.
     */
    method SetRunMode(newMode: RunMode)
      requires Valid()
      modifies this
      ensures Valid()
      ensures runMode == newMode
      ensures newMode == old(runMode) ==>
                synchronizer == old(synchronizer) && diagnostics == old(diagnostics) && connectionLog == old(connectionLog)
      ensures newMode != old(runMode) ==>
                var willSetOnline := online && IsInSupportedRunMode(newMode, config);
                && SynchronizerMatches(synchronizer, config, newMode)
                && synchronizer.online == willSetOnline
                && diagnostics == old(diagnostics).(runMode := newMode)
                && (SynchronizerMatches(old(synchronizer), config, newMode) ==>
                      synchronizer == old(synchronizer).(online := willSetOnline) && connectionLog == old(connectionLog))
                && (!SynchronizerMatches(old(synchronizer), config, newMode) ==>
                      && synchronizer == MakeSynchronizer(config, newMode, service).(online := willSetOnline)
                      && connectionLog == old(connectionLog) +
                           [BackgroundBehaviorCheck(EffectiveStreamingMode(config, newMode), willSetOnline)])
      ensures online == old(online) && hasStarted == old(hasStarted) && config == old(config)
      ensures user == old(user) && service == old(service) && eventReporter == old(eventReporter)
      ensures throttler == old(throttler) && flagCache == old(flagCache)
      ensures awaiting == old(awaiting) && called == old(called) && errorsNotified == old(errorsNotified)
    {
      if newMode == runMode {
        return;
      }
      runMode := newMode;
      var willSetOnline := online && IsInSupportedRunMode(runMode, config);
      if !SynchronizerMatches(synchronizer, config, runMode) {
        synchronizer := synchronizer.(online := false);
        var streamingMode := EffectiveStreamingMode(config, runMode);
        connectionLog := connectionLog + [BackgroundBehaviorCheck(streamingMode, willSetOnline)];
        synchronizer := MakeSynchronizer(config, runMode, service);
      }
      synchronizer := synchronizer.(online := willSetOnline);
      diagnostics := diagnostics.(runMode := runMode);
    }

    /**
     * `onFlagSyncComplete`: a full snapshot (no kind, ping or put) replaces
     * the flag store, a patch updates it, a delete deletes from it; then the
     * store is cached for the user and mobile key and every completion
     * waiting for a flag update is called. An error goes to `Process`.
     */
    method OnFlagSyncComplete(result: FlagSyncResult)
      requires Valid()
      modifies this
      ensures Valid()
      ensures result.FlagSyncSuccess? ==>
                && user == old(user).(flags := AppliedUpdate(old(user).flags, result.flagDictionary, result.updateType))
                && flagCache == old(flagCache)[(user.key, config.mobileKey) := user.flags]
                && connectionLog == old(connectionLog) + [EstablishingStreamingCheck]
                && called == old(called) + old(awaiting) && awaiting == []
                && online == old(online) && synchronizer == old(synchronizer) && errorsNotified == old(errorsNotified)
                && eventReporter == old(eventReporter) && diagnostics == old(diagnostics)
      ensures result.FlagSyncFailure? ==>
                var offline := IsClientUnauthorized(result.error);
                && online == (old(online) && !offline)
                && synchronizer == (if offline then old(synchronizer).(online := false) else old(synchronizer))
                && eventReporter == (if offline then old(eventReporter).(online := false) else old(eventReporter))
                && diagnostics == (if offline then old(diagnostics).(online := false) else old(diagnostics))
                && connectionLog == old(connectionLog) + (if offline && old(online) then [OnlineSetCheck(false)] else [])
                                                       + [SynchronizingErrorCheck(result.error)]
                && user == old(user) && flagCache == old(flagCache)
                && awaiting == old(awaiting) && called == old(called)
                && errorsNotified == old(errorsNotified) + [result.error]
      ensures hasStarted == old(hasStarted) && runMode == old(runMode) && config == old(config)
      ensures service == old(service) && throttler == old(throttler)
    {
      match result {
        case FlagSyncSuccess(flagDictionary, updateType) =>
          connectionLog := connectionLog + [EstablishingStreamingCheck];
          user := user.(flags := AppliedUpdate(user.flags, flagDictionary, updateType));
          flagCache := flagCache[(user.key, config.mobileKey) := user.flags];
          called := called + awaiting;
          awaiting := [];
        case FlagSyncFailure(error) =>
          Process(error);
      }
    }

    /**
     * `process(_:logPrefix:)`: an unauthorized error takes the client offline;
     * every error is reported to the connection information and to error
     * observers, and no other error changes the online state.
     */
    method Process(error: SyncError)
      requires Valid()
      modifies this
      ensures Valid()
      ensures online == (old(online) && !IsClientUnauthorized(error))
      ensures synchronizer == (if IsClientUnauthorized(error) then old(synchronizer).(online := false) else old(synchronizer))
      ensures eventReporter == (if IsClientUnauthorized(error) then old(eventReporter).(online := false) else old(eventReporter))
      ensures diagnostics == (if IsClientUnauthorized(error) then old(diagnostics).(online := false) else old(diagnostics))
      ensures connectionLog == old(connectionLog) + (if IsClientUnauthorized(error) && old(online) then [OnlineSetCheck(false)] else [])
                                                  + [SynchronizingErrorCheck(error)]
      ensures errorsNotified == old(errorsNotified) + [error]
      ensures throttler == old(throttler)
      ensures hasStarted == old(hasStarted) && runMode == old(runMode) && config == old(config)
      ensures user == old(user) && service == old(service) && flagCache == old(flagCache)
      ensures awaiting == old(awaiting) && called == old(called)
    {
      if IsClientUnauthorized(error) {
        InternalSetOnline(false, None);
      }
      connectionLog := connectionLog + [SynchronizingErrorCheck(error)];
      errorsNotified := errorsNotified + [error];
    }

    /** `onEventSyncComplete`: success changes nothing; an error goes to `Process`. */
    method OnEventSyncComplete(result: EventSyncResult)
      requires Valid()
      modifies this
      ensures Valid()
      ensures result.EventSyncSuccess? ==>
                && online == old(online) && synchronizer == old(synchronizer)
                && eventReporter == old(eventReporter) && diagnostics == old(diagnostics)
                && connectionLog == old(connectionLog) && errorsNotified == old(errorsNotified)
      ensures result.EventSyncFailure? ==>
                var offline := IsClientUnauthorized(result.error);
                && online == (old(online) && !offline)
                && synchronizer == (if offline then old(synchronizer).(online := false) else old(synchronizer))
                && eventReporter == (if offline then old(eventReporter).(online := false) else old(eventReporter))
                && diagnostics == (if offline then old(diagnostics).(online := false) else old(diagnostics))
                && connectionLog == old(connectionLog) + (if offline && old(online) then [OnlineSetCheck(false)] else [])
                                                       + [SynchronizingErrorCheck(result.error)]
                && errorsNotified == old(errorsNotified) + [result.error]
      ensures hasStarted == old(hasStarted) && runMode == old(runMode) && config == old(config)
      ensures user == old(user) && service == old(service) && throttler == old(throttler)
      ensures flagCache == old(flagCache) && awaiting == old(awaiting) && called == old(called)
    {
      match result {
        case EventSyncSuccess =>
        case EventSyncFailure(error) =>
          Process(error);
      }
    }

    /**
     * `variationInternal`: the fallback before the client has started, with
     * no event; afterwards the stored flag's value when it has the requested
     * type, else the fallback, with a feature event recorded either way.
     */
    method VariationInternal(flagKey: string, fallback: Option<Json>, requested: ValueType, includeReason: bool)
      returns (value: Option<Json>)
      requires Valid()
      modifies this
      ensures Valid()
      ensures !hasStarted ==> value == fallback && eventReporter == old(eventReporter)
      ensures hasStarted ==>
                && value == EvaluatedValue(FlagFor(user.flags, flagKey), fallback, requested)
                && eventReporter == old(eventReporter).(events := old(eventReporter.events) +
                     [FeatureEvent(flagKey, value, fallback, FlagFor(user.flags, flagKey), user.key, includeReason)])
      ensures online == old(online) && hasStarted == old(hasStarted) && runMode == old(runMode)
      ensures config == old(config) && user == old(user) && service == old(service)
      ensures synchronizer == old(synchronizer) && diagnostics == old(diagnostics) && throttler == old(throttler)
      ensures flagCache == old(flagCache) && connectionLog == old(connectionLog)
      ensures awaiting == old(awaiting) && called == old(called) && errorsNotified == old(errorsNotified)
    {
      if !hasStarted {
        return fallback;
      }
      var flag := FlagFor(user.flags, flagKey);
      value := EvaluatedValue(flag, fallback, requested);
      eventReporter := eventReporter.(events := eventReporter.events +
                                       [FeatureEvent(flagKey, value, fallback, flag, user.key, includeReason)]);
    }

    /**
     * `variationDetail`: the value a flag read with reasons returns, the
     * flag's variation index, and the reason: an error kind, which takes
     * precedence, or else the flag's own reason.
     */
    method VariationDetail(flagKey: string, fallback: Option<Json>, requested: ValueType)
      returns (detail: EvaluationDetail)
      requires Valid()
      modifies this
      ensures Valid()
      ensures detail.value == (if hasStarted then EvaluatedValue(FlagFor(user.flags, flagKey), fallback, requested) else fallback)
      ensures detail.variationIndex == (if flagKey in user.flags then user.flags[flagKey].variation else None)
      ensures detail.reason == DetailReason(hasStarted, FlagFor(user.flags, flagKey))
      ensures eventReporter == old(eventReporter).(events := old(eventReporter.events) +
                (if hasStarted then [FeatureEvent(flagKey, detail.value, fallback, FlagFor(user.flags, flagKey), user.key, true)] else []))
      ensures online == old(online) && hasStarted == old(hasStarted) && runMode == old(runMode)
      ensures config == old(config) && user == old(user) && service == old(service)
      ensures synchronizer == old(synchronizer) && diagnostics == old(diagnostics) && throttler == old(throttler)
      ensures flagCache == old(flagCache) && connectionLog == old(connectionLog)
      ensures awaiting == old(awaiting) && called == old(called) && errorsNotified == old(errorsNotified)
    {
      var flag := FlagFor(user.flags, flagKey);
      var reason := DetailReason(hasStarted, flag);
      var value := VariationInternal(flagKey, fallback, requested, true);
      detail := EvaluationDetail(value, if flag.Some? then flag.value.variation else None, reason);
    }

    /** `allFlags`: nothing before the client has started; then every flag value held. */
    function AllFlags(): (r: Option<map<string, Json>>)
      reads this
      ensures r.None? <==> !hasStarted
      ensures r.Some? ==> r.value == AllFlagValues(user.flags)
    {
      if hasStarted then Some(AllFlagValues(user.flags)) else None
    }

    /** `trackEvent`: a started client records a custom event for its user; otherwise nothing happens. */
    method TrackEvent(key: string, data: Option<Json>)
      requires Valid()
      modifies this
      ensures Valid()
      ensures eventReporter == old(eventReporter).(events := old(eventReporter.events) +
                                                      (if hasStarted then [CustomEvent(key, user.key, data)] else []))
      ensures online == old(online) && hasStarted == old(hasStarted) && runMode == old(runMode)
      ensures config == old(config) && user == old(user) && service == old(service)
      ensures synchronizer == old(synchronizer) && diagnostics == old(diagnostics) && throttler == old(throttler)
      ensures flagCache == old(flagCache) && connectionLog == old(connectionLog)
      ensures awaiting == old(awaiting) && called == old(called) && errorsNotified == old(errorsNotified)
    {
      if !hasStarted {
        return;
      }
      eventReporter := eventReporter.(events := eventReporter.events + [CustomEvent(key, user.key, data)]);
    }

    /** `internalFlush`: the event reporter is asked to flush. */
    method InternalFlush()
      requires Valid()
      modifies this
      ensures Valid()
      ensures eventReporter == old(eventReporter).(flushes := old(eventReporter.flushes) + 1)
      ensures online == old(online) && hasStarted == old(hasStarted) && runMode == old(runMode)
      ensures config == old(config) && user == old(user) && service == old(service)
      ensures synchronizer == old(synchronizer) && diagnostics == old(diagnostics) && throttler == old(throttler)
      ensures flagCache == old(flagCache) && connectionLog == old(connectionLog)
      ensures awaiting == old(awaiting) && called == old(called) && errorsNotified == old(errorsNotified)
    {
      eventReporter := eventReporter.(flushes := eventReporter.flushes + 1);
    }

    /** `internalClose`: flush, go offline, and stop being started. */
    method InternalClose()
      requires Valid()
      modifies this
      ensures Valid()
      ensures !online && !hasStarted
      ensures synchronizer == old(synchronizer).(online := false)
      ensures eventReporter == old(eventReporter).(online := false, flushes := old(eventReporter.flushes) + 1)
      ensures diagnostics == old(diagnostics).(online := false)
      ensures connectionLog == old(connectionLog) + (if old(online) then [OnlineSetCheck(false)] else [])
      ensures throttler == old(throttler) && runMode == old(runMode) && config == old(config)
      ensures user == old(user) && service == old(service) && flagCache == old(flagCache)
      ensures awaiting == old(awaiting) && called == old(called) && errorsNotified == old(errorsNotified)
    {
      InternalFlush();
      InternalSetOnline(false, None);
      hasStarted := false;
    }
  }
}
