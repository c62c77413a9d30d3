/**
  The developer-mode handlers of controllers/device.go. Developer mode
  suspends AI correction for 14 days. Expiry is lazy: the first
  GetDeviceConfig after the window resets the stored state and turns AI back
  on; there is no timer.
 */
module Device {
  import opened Models
  import Store
  import AI
  import DevMode

  const DeveloperModeDuration: int := 14 * 24 * SecondsPerHour

  /** The plant AI is re-enabled with when developer mode ends. */
  const PlaceholderPlant: string := "Hebe andersonii"

  /** developer_mode as GetDeviceConfig reports it. */
  predicate DevModeActive(isEnabled: bool, startTime: int, now: int)
  {
    isEnabled && now - startTime < DeveloperModeDuration
  }

  /** Enabled, but the window has elapsed: the next read resets the state. */
  predicate ExpiryDue(isEnabled: bool, startTime: int, now: int)
  {
    isEnabled && now - startTime >= DeveloperModeDuration
  }

  /** JSON bodies of the handlers; every failure answers 500. */
  datatype ConfigReply = ConfigOk(developerMode: bool, startTimestamp: int, aiEnabled: bool) | ConfigFailed
  datatype TriggerReply = Activated(startTimestamp: int, aiEnabled: bool) | ActivateFailed
  datatype StopReply = Stopped(aiEnabled: bool) | StopFailed

  /** GET /device-config: reports the mode, resetting it first when it has expired. */
  method GetDeviceConfig(cache: DevMode.DevModeCache, flag: AI.AIFlag, db: Store.Database, now: int, saveFails: bool)
    returns (reply: ConfigReply)
    modifies cache, flag, db`devSettings
    // not enabled, or still inside the window: no state changes
    ensures !ExpiryDue(old(cache.isEnabled), old(cache.startTime), now) ==>
              unchanged(cache, flag) && db.devSettings == old(db.devSettings) &&
              reply == ConfigOk(DevModeActive(old(cache.isEnabled), old(cache.startTime), now),
                                old(cache.startTime), flag.aiEnabled)
    // expired and the reset cannot be saved: 500, AI flag untouched
    ensures ExpiryDue(old(cache.isEnabled), old(cache.startTime), now) && saveFails ==>
              reply == ConfigFailed && unchanged(cache, flag) && db.devSettings == old(db.devSettings)
    // expired and saved: state (false, zero), AI on with the placeholder plant
    ensures ExpiryDue(old(cache.isEnabled), old(cache.startTime), now) && !saveFails ==>
              !cache.isEnabled && cache.startTime == ZeroTime &&
              flag.aiEnabled && flag.plantAI == PlaceholderPlant &&
              db.devSettings == old(db.devSettings)[DevMode.DeveloperModeSettingID := DevMode.DefaultSetting] &&
              reply == ConfigOk(false, ZeroTime, true)
    ensures old(cache.Consistent()) ==> cache.Consistent()
  {
    var enabled, start := cache.GetDeveloperModeState();
    var active := false;
    var responseStart := start;
    if enabled {
      if now - start < DeveloperModeDuration {
        active := true;
      } else {
        var err := cache.SetDeveloperModeState(db, false, ZeroTime, saveFails);
        if err.Some? {
          return ConfigFailed;
        }
        flag.SetGlobalAIEnabled(true, PlaceholderPlant);
        responseStart := ZeroTime;
      }
    }
    var aiEnabled, _ := flag.IsGlobalAIEnabled();
    reply := ConfigOk(active, responseStart, aiEnabled);
  }

  /** POST trigger-dev: enable with start `now`, then disable AI with an empty plant. */
  method TriggerDeveloperMode(cache: DevMode.DevModeCache, flag: AI.AIFlag, db: Store.Database, now: int, saveFails: bool)
    returns (reply: TriggerReply)
    modifies cache, flag, db`devSettings
    ensures saveFails ==>
              reply == ActivateFailed && unchanged(cache, flag) && db.devSettings == old(db.devSettings)
    ensures !saveFails ==>
              cache.isEnabled && cache.startTime == now &&
              !flag.aiEnabled && flag.plantAI == "" &&
              db.devSettings == old(db.devSettings)[DevMode.DeveloperModeSettingID :=
                                 DeveloperModeSetting(DevMode.DeveloperModeSettingID, true, now)] &&
              reply == Activated(now, false)
    ensures old(cache.Consistent()) ==> cache.Consistent()
  {
    var err := cache.SetDeveloperModeState(db, true, now, saveFails);
    if err.Some? {
      return ActivateFailed;
    }
    flag.SetGlobalAIEnabled(false, "");
    reply := Activated(now, false);
  }

  /** POST stop-dev: disable with the zero start time, then re-enable AI. */
  method StopDeveloperMode(cache: DevMode.DevModeCache, flag: AI.AIFlag, db: Store.Database, saveFails: bool)
    returns (reply: StopReply)
    modifies cache, flag, db`devSettings
    ensures saveFails ==>
              reply == StopFailed && unchanged(cache, flag) && db.devSettings == old(db.devSettings)
    ensures !saveFails ==>
              !cache.isEnabled && cache.startTime == ZeroTime &&
              flag.aiEnabled && flag.plantAI == PlaceholderPlant &&
              db.devSettings == old(db.devSettings)[DevMode.DeveloperModeSettingID := DevMode.DefaultSetting] &&
              reply == Stopped(true)
    ensures cache.Consistent() || (saveFails && old(!cache.Consistent()))
  {
    var err := cache.SetDeveloperModeState(db, false, ZeroTime, saveFails);
    if err.Some? {
      return StopFailed;
    }
    flag.SetGlobalAIEnabled(true, PlaceholderPlant);
    reply := Stopped(true);
  }

  /** Developer mode reads as active for the whole window and not after it. */
  lemma WindowBoundary(t0: int)
    ensures DevModeActive(true, t0, t0)
    ensures DevModeActive(true, t0, t0 + DeveloperModeDuration - 1)
    ensures !DevModeActive(true, t0, t0 + DeveloperModeDuration)
    ensures ExpiryDue(true, t0, t0 + DeveloperModeDuration)
  {
  }

  /** Disabled developer mode never expires, so only an enabled state can be reset. */
  lemma DisabledNeverExpires(start: int, now: int)
    ensures !ExpiryDue(false, start, now) && !DevModeActive(false, start, now)
  {
  }

  /** Trigger at t0, then read at t1: active inside the window; the first read
      after it resets once, and a second read finds nothing left to reset. */
  method TriggerThenRead(cache: DevMode.DevModeCache, flag: AI.AIFlag, db: Store.Database, t0: int, t1: int, t2: int)
    returns (first: ConfigReply, second: ConfigReply)
    modifies cache, flag, db`devSettings
    ensures t1 - t0 < DeveloperModeDuration ==> first == ConfigOk(true, t0, false)
    ensures t1 - t0 >= DeveloperModeDuration ==>
              first == ConfigOk(false, ZeroTime, true) && second == ConfigOk(false, ZeroTime, true)
  {
    var trig := TriggerDeveloperMode(cache, flag, db, t0, false);
    first := GetDeviceConfig(cache, flag, db, t1, false);
    second := GetDeviceConfig(cache, flag, db, t2, true);
  }
}
