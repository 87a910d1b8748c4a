/**
 * Sequences of client operations and what they lead to: the throttled online
 * action against later offline requests, errors and closing, the restoring
 * of the online state after a new configuration or user, and a start that
 * goes online and receives a full flag snapshot.
 */
module ClientScenarios {
  import opened Wrappers
  import opened Json
  import opened FeatureFlags
  import opened FlagStores
  import opened Configuration
  import opened ClientRules
  import opened Client

  /**
   * A deferred online action survives a later request to go offline: the
   * offline request takes effect at once, but when the throttler runs, the
   * client goes online again.
   */
  method OfflineRequestKeepsPendingOnline(c: LDClient)
    requires c.Valid() && CanGoOnline(c.hasStarted, c.runMode, c.config)
    modifies c
    ensures c.Valid() && c.online && c.throttler.None?
  {
    c.InternalSetOnline(true, None);
    c.InternalSetOnline(false, None);
    assert !c.online && c.throttler == Some(PendingOnline(None));
    c.RunThrottled();
  }

  /** An unauthorized error takes the client offline, but a deferred online action still brings it back. */
  method UnauthorizedErrorKeepsPendingOnline(c: LDClient)
    requires c.Valid() && CanGoOnline(c.hasStarted, c.runMode, c.config)
    modifies c
    ensures c.Valid() && c.online
    ensures c.errorsNotified == old(c.errorsNotified) + [ResponseError(Some(Unauthorized))]
  {
    c.InternalSetOnline(true, None);
    c.Process(ResponseError(Some(Unauthorized)));
    assert !c.online;
    c.RunThrottled();
  }

  /** A closed client stays offline even when a deferred online action runs after the close. */
  method ClosedClientStaysOffline(c: LDClient)
    requires c.Valid() && CanGoOnline(c.hasStarted, c.runMode, c.config)
    modifies c
    ensures c.Valid() && !c.online && !c.hasStarted
  {
    c.InternalSetOnline(true, None);
    c.InternalClose();
    c.RunThrottled();
  }

  /**
   * An online client given a different configuration that still allows it
   * online is offline until the throttler runs, and then online with a
   * service made for the new configuration.
   */
  method NewConfigRestoresOnline(c: LDClient, newConfig: Config)
    requires c.Valid() && c.online && !Equal(newConfig, c.config)
    requires CanGoOnline(c.hasStarted, c.runMode, newConfig)
    modifies c
    ensures c.Valid() && c.online && c.config == newConfig
    ensures c.service == Service(newConfig, c.user.key) && c.synchronizer.online
  {
    c.SetConfig(newConfig);
    assert !c.online && c.throttler == Some(PendingOnline(None));
    c.RunThrottled();
  }

  /**
   * An online client identifying a new user is offline until the throttler
   * runs; the identify completion is then waiting for the next flag update.
   */
  method IdentifyRestoresOnline(c: LDClient, newUser: User, completion: Completion)
    requires c.Valid() && c.online && ValidFlags(newUser.flags) && CanGoOnline(c.hasStarted, c.runMode, c.config)
    modifies c
    ensures c.Valid() && c.online && c.user.key == newUser.key
    ensures c.awaiting == old(c.awaiting) + [completion] && c.called == old(c.called)
  {
    c.InternalIdentify(newUser, Some(completion));
    assert c.throttler == Some(PendingOnline(Some(completion)));
    c.RunThrottled();
  }

  /** A flag record with only a value, a variation and a version. */
  function BareFlag(key: string, value: Json, variation: int, version: int): (f: FeatureFlag)
    requires value != JNull
    ensures f.Valid() && f.flagKey == key && f.value == Some(value)
  {
    FeatureFlag(key, Some(value), Some(variation), Some(version), None, None, None, None)
  }

  /** The streamed `put` body of the scenario below: `beta` at value false, variation 1, version 2, without its key. */
  function PutSnapshot(): Object {
    map["beta" := JObject(map["value" := JBool(false), "variation" := JInt(1), "version" := JInt(2)])]
  }

  /** The snapshot parses, the collection key filling in the missing `"key"`. */
  lemma PutSnapshotParses()
    ensures ReplaceStore(PutSnapshot()) == map["beta" := BareFlag("beta", JBool(false), 1, 2)]
  {
    var snapshot := PutSnapshot();
    var element := ElementDictionary("beta", snapshot["beta"]).value;
    assert element == snapshot["beta"].fields["key" := JString("beta")];
    assert Parse(Some(element)) == Some(BareFlag("beta", JBool(false), 1, 2)) by {
      assert StringAt(element, KeyKey) == Some("beta");
      assert IntAt(element, VariationKey) == Some(1);
      assert IntAt(element, VersionKey) == Some(2);
      assert EntryAt(element, ValueKey) == Some(JBool(false));
    }
    assert AllElementsParse(snapshot);
  }

  /**
   * A client started online for a user whose cache holds `beta` as true
   * goes online when the throttler runs; a streamed `put` then turns `beta`
   * false, caches the new flags and calls the start completion.
   */
  method StartThenReceivePut(env: Environment) returns (c: LDClient)
    ensures c.Valid() && c.online
    ensures c.user.flags == map["beta" := BareFlag("beta", JBool(false), 1, 2)]
    ensures c.flagCache == map[("user", "mobile-key") := c.user.flags]
    ensures c.called == [1] && c.awaiting == []
  {
    var config := NewConfig("mobile-key", env);
    var cached := map["beta" := BareFlag("beta", JBool(true), 0, 1)];
    c := new LDClient(config, Some(User("user", map[])), User("anonymous", map[]), map[("user", "mobile-key") := cached], 1);
    assert c.user.flags == cached;
    c.RunThrottled();
    assert c.online && c.awaiting == [1];
    PutSnapshotParses();
    c.OnFlagSyncComplete(FlagSyncSuccess(PutSnapshot(), Some(Put)));
  }
}
