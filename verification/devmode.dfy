/**
  The developer-mode cache of config/db.go: an in-memory copy of the single
  settings row (id 1). Writes go to the store first; the cache follows only
  when the store write succeeded.
 */
module DevMode {
  import opened Models
  import Store

  const DeveloperModeSettingID: nat := 1

  /** The row Init creates when none is stored: disabled, zero start time. */
  const DefaultSetting: DeveloperModeSetting := DeveloperModeSetting(DeveloperModeSettingID, false, ZeroTime)

  class DevModeCache {
    var isEnabled: bool
    var startTime: int

    /** The zero value of the Go struct before Init runs. */
    constructor ()
      ensures !isEnabled && startTime == ZeroTime
    {
      isEnabled := false;
      startTime := ZeroTime;
    }

    /** Disabled developer mode carries the zero start time. */
    predicate Consistent()
      reads this
    {
      !isEnabled ==> startTime == ZeroTime
    }

    /** InitDeveloperModeState: load row 1, or create the default row when
        there is none. `firstFails` / `createFails` say whether the lookup or
        the insert hits a store error other than "record not found". */
    method InitDeveloperModeState(db: Store.Database, firstFails: bool, createFails: bool)
      returns (err: Option<Store.DbError>)
      modifies this, db`devSettings
      // a stored row is copied into the cache
      ensures !firstFails && DeveloperModeSettingID in old(db.devSettings) ==>
                err == None && db.devSettings == old(db.devSettings) &&
                isEnabled == old(db.devSettings)[DeveloperModeSettingID].isEnabled &&
                startTime == old(db.devSettings)[DeveloperModeSettingID].startTime
      // no row: the default row is created and cached
      ensures !firstFails && DeveloperModeSettingID !in old(db.devSettings) && !createFails ==>
                err == None && db.devSettings == old(db.devSettings)[DeveloperModeSettingID := DefaultSetting] &&
                !isEnabled && startTime == ZeroTime
      // no row and the insert fails: error, nothing changes
      ensures !firstFails && DeveloperModeSettingID !in old(db.devSettings) && createFails ==>
                err == Some(Store.ErrDatabase) && db.devSettings == old(db.devSettings) && unchanged(this)
      // any other lookup error is returned and nothing changes
      ensures firstFails ==>
                err == Some(Store.ErrDatabase) && db.devSettings == old(db.devSettings) && unchanged(this)
    {
      var setting: DeveloperModeSetting;
      var found := db.FirstSetting(DeveloperModeSettingID, firstFails);
      if found.Err? {
        if found.error == Store.ErrRecordNotFound {
          setting := DefaultSetting;
          var createErr := db.SaveSetting(setting, createFails);
          if createErr.Some? {
            return createErr;
          }
        } else {
          return Some(found.error);
        }
      } else {
        setting := found.value;
      }
      isEnabled := setting.isEnabled;
      startTime := setting.startTime;
      err := None;
    }

    /** GetDeveloperModeState: a read of the cache, no side effect. */
    method GetDeveloperModeState() returns (enabled: bool, start: int)
      ensures enabled == isEnabled && start == startTime
    {
      enabled := isEnabled;
      start := startTime;
    }

    /** SetDeveloperModeState: save row 1, then update the cache only if the
        save succeeded. */
    method SetDeveloperModeState(db: Store.Database, enabled: bool, start: int, saveFails: bool)
      returns (err: Option<Store.DbError>)
      modifies this, db`devSettings
      ensures saveFails ==>
                err == Some(Store.ErrDatabase) && db.devSettings == old(db.devSettings) && unchanged(this)
      ensures !saveFails ==>
                err == None && isEnabled == enabled && startTime == start &&
                db.devSettings == old(db.devSettings)[DeveloperModeSettingID :=
                                   DeveloperModeSetting(DeveloperModeSettingID, enabled, start)]
    {
      var setting := DeveloperModeSetting(DeveloperModeSettingID, enabled, start);
      err := db.SaveSetting(setting, saveFails);
      if err.Some? {
        return;
      }
      isEnabled := enabled;
      startTime := start;
    }
  }

  /** A successful set is what the next get returns. */
  method SetThenGet(cache: DevModeCache, db: Store.Database, enabled: bool, start: int)
    returns (e: bool, s: int)
    modifies cache, db`devSettings
    ensures e == enabled && s == start
  {
    var err := cache.SetDeveloperModeState(db, enabled, start, false);
    e, s := cache.GetDeveloperModeState();
  }
}
