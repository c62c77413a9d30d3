# Agriculture monitoring backend: a Dafny model of its core

This project models the core of a Go backend for agricultural telemetry.
Devices post readings (temperature, humidity, soil moisture).

The server handles each reading in order:
- It attributes the reading to the authenticated user and stamps it with the server time.
- While AI correction is on, it may replace the soil moisture with a prediction from an external service. The prediction is built from a 24-hour window of the user's readings, which the code places 8 hours late (see Findings).
- It flags the reading abnormal when a value leaves its band.
- It stores the reading.
- It pushes the reading to every open websocket viewer, then sends an abnormal-data notification when the reading is flagged. Each notification carries that viewer's own abnormal count.

A "developer mode" switches AI correction off for 14 days. It expires lazily, on the first device-config read after the window.

The modules follow the Go packages:

| file | module | models |
|---|---|---|
| models.dfy | `Models` | records, claim values, `uint(float64)` |
| strconv.dfy | `Strconv` | `strconv.ParseUint` and the digits `%v` prints |
| abnormal.dfy | `Abnormal` | utils/abnormal.go |
| store.dfy | `Store` | the queries the core runs against the database |
| ai.dfy | `AI` | utils/ai.go |
| devmode.dfy | `DevMode` | config/db.go |
| device.dfy | `Device` | controllers/device.go |
| websocket.dfy | `Hub` | controllers/websocket.go |
| sensor.dfy | `Sensor` | controllers/sensor.go: ingestion, abnormal history, delete permissions |
| auth.dfy | `Auth` | middlewares/auth.go |
| legacy.dfy | `Legacy` | the older single-file server in main.go |

Modelling conventions:
- Instants are whole Unix seconds. Go's zero `time.Time` is `ZeroTime`.
- Measurements are reals.
- The database is the class `Store.Database`. It holds the `sensor_data` rows in insertion order and the developer-mode settings rows by id.
- A store failure is a parameter of the operation (`fails`, `historyFails`, `newId == None`, ...).
- The prediction service is the class `AI.PredictionService`. Its reply function is fixed, and it logs every request it receives, so "the predictor is never called" can be stated.
- Websocket connections are ids. Every `WriteMessage` is appended to a send log with a flag saying whether the write succeeded.
- Go's unordered map iteration is an arbitrary choice (`:|`) in each loop. The contracts therefore hold for every iteration order.

Where the code and the intended design differ, the model follows the code:
- On an empty history the rolling averages are 0 (`calculateRollingAverage` returns 0). Only lag-1 falls back to the current reading.
- The error of the sensor insert is ignored. A reading whose insert fails is still broadcast.
- `SetDeveloperModeState` updates the in-memory state only after the store write succeeds. A failed write leaves both unchanged.
- A failed websocket write does not remove the client from the registry.
- A prediction reply without `predicted_soil_moisture` decodes to 0, Go's zero value, and is used as the prediction (`Sensor.MissingPredictionStoresZero`).
- The history for a prediction is queried with the reading's Kuala Lumpur wall-clock text read as UTC, 8 hours after the reading (see Findings).
- A failing abnormal-count query in `BroadcastNotification` is ignored, and that client's notification carries 0.
- In main.go, `handleWebSocket` adds the connection to `clients` and returns at once. Its deferred `Close` therefore closes every registered connection, and nothing removes it from the set. `Legacy.LegacyServer.ReceiveData` proves that no broadcast write of that server ever succeeds.

## Model

| member | source | states |
|---|---|---|
| Models.FloatToUint | controllers/websocket.go:43-44 | `uint(v)` of an in-range float64 is its integer part, below 2^64 |
| Strconv.ParseUint | controllers/websocket.go:49 | a string parses exactly when it is non-empty ASCII digits whose value is below the bit-size limit, and then to that value |
| Strconv.FormatUint | controllers/sensor.go:468 | the printed id is non-empty decimal digits with no leading zero |
| Strconv.ParseFormatRoundTrip | controllers/websocket.go:49 | parsing the printed text of an id below the limit gives the id back |
| Strconv.FormatUintInjective | controllers/sensor.go:518 | two ids print the same exactly when they are equal |
| Strconv.FormatWholeFloat | controllers/sensor.go:468 | `%v` of a whole float64 is digits exactly below 10^6, and those digits have the number's value |
| Strconv.OneMillionText | controllers/sensor.go:518 | one million prints as "1e+06" |
| Abnormal.CheckAbnormality | utils/abnormal.go:6-10 | abnormal exactly when some value lies outside its closed band [20,50], [30,90], [5,95] |
| Abnormal.GetAbnormalType | utils/abnormal.go:13-24 | the reason is Temperature, else Humidity, else Soil Moisture for the first out-of-band value; "Unknown" exactly when the reading is normal |
| Abnormal.BoundariesAreNormal | utils/abnormal.go:6-10 | every band bound counts as normal |
| Abnormal.AbnormalHasConcreteReason | utils/abnormal.go:13-24 | an abnormal reading never gets "Unknown" |
| Store.CountAbnormal | controllers/websocket.go:104-106 | the count of one user's abnormal rows is at most the number of rows |
| Store.CountAbnormalAppend | controllers/websocket.go:104-106 | storing a row raises its owner's count by one exactly when it is abnormal, and no other user's count changes |
| Store.HistoryWindow | utils/ai.go:63-75 | the history holds stored rows of the user from [now-24h, now), and every such row |
| Store.Persisted | controllers/sensor.go:64 | a row submitted with id 0 takes the id the store assigns; it is otherwise unchanged, and unchanged altogether when its id is set or the insert fails |
| Store.Database.Create | controllers/sensor.go:64 | a successful insert appends the persisted row; a failed one changes nothing |
| Store.Database.CountAbnormalOf | controllers/websocket.go:103-106 | returns the user's abnormal count, or 0 when the query fails (its error is ignored) |
| Store.Database.HistoricalData | utils/ai.go:63-75 | returns the 24-hour history, or an error |
| Store.Database.FirstSetting | config/db.go:36-39 | returns the settings row, ErrRecordNotFound, or another error |
| Store.Database.SaveSetting | config/db.go:78-80 | inserts or overwrites the row by id, or fails leaving the table unchanged |
| AI.Window | utils/ai.go:43-47 | the window is the last min(n, len) values, or empty for n <= 0 |
| AI.CalculateRollingAverage | utils/ai.go:38-60 | the loop's result equals the mean of the window, and 0 for empty input |
| AI.RollingAverageOfEmpty | utils/ai.go:39-41 | an empty series averages to 0 |
| AI.RollingAverageIsMeanOfLast | utils/ai.go:44-59 | for n >= 1 the result is the sum of the last min(n, len) values over min(n, len) |
| AI.RollingAverageWithinWindow | utils/ai.go:49-59 | a non-empty window's average lies between its minimum and maximum |
| AI.MeanWithin | utils/ai.go:56-59 | the mean of values that all lie within [lo, hi] lies within [lo, hi] |
| AI.SumBounds | utils/ai.go:51-54 | the sum of k values within [lo, hi] lies within [k*lo, k*hi] |
| AI.SeqMin | utils/ai.go:49-59 | the minimum is an element and bounds every element from below |
| AI.SeqMax | utils/ai.go:49-59 | the maximum is an element and bounds every element from above |
| AI.Temperatures | utils/ai.go:82-85 | the extracted temperatures match the history point by point |
| AI.Humidities | utils/ai.go:82-85 | the extracted humidities match the history point by point |
| AI.CalculateFeatures | utils/ai.go:78-119 | the loop and the four averages yield exactly the features of the history |
| AI.LagIsLatestReading | utils/ai.go:98-100 | with history, lag-1 is the latest history reading and the current values pass through |
| AI.EmptyHistoryFeatures | utils/ai.go:39-41 | without history, the rolling averages are 0 and lag-1 is the current reading |
| AI.FiveReadingHistory | utils/ai.go:89-94 | with five points, the 3-point average uses only the last three and the 24-point average uses all five |
| AI.RollingFeaturesWithinHistory | utils/ai.go:89-94 | each of the four rolling features (temperature and humidity, 3 and 24 points) lies between the extremes of its window |
| AI.EmptyHistoryVersusFallback | utils/ai.go:189-200 | the fallback request and the empty-history features agree except on the rolling averages, and differ unless both current values are 0 |
| AI.PredictionService.Post | utils/ai.go:158-161 | one request is logged and the fixed reply is returned |
| AI.GetPredictedSoilMoisture | utils/ai.go:122-182 | the history is queried at the instant parsed back from the timestamp text; no request when that query fails, otherwise exactly one request with the history's features; the result is the decoded reply or a failure |
| AI.GetPredictedSoilMoistureSimple | utils/ai.go:185-230 | exactly one request with every feature equal to the current reading |
| AI.NoPredictionWithoutHistory | utils/ai.go:132-135 | a failed history query gives no prediction |
| AI.WallClockIn | controllers/sensor.go:51 | the formatted time of day is a valid clock reading |
| AI.WallClockRoundTrip | utils/ai.go:126 | wall-clock text read back in the zone it was written in gives the instant back |
| AI.WallClockInjective | controllers/sensor.go:51 | distinct instants have distinct wall clocks in one zone |
| AI.QueriedInstantIsShifted | utils/ai.go:126 | the Kuala Lumpur wall-clock text read as UTC names the instant 8 hours after the reading |
| AI.IntendedQueriedInstant | utils/ai.go:126 | the same text read in Kuala Lumpur time names the reading's own instant |
| AI.ShiftedRequestMissesEarlierReading | utils/ai.go:126-141 | with one row 20 hours old, the request as written sends the current temperature as lag-1 and zero averages, the intended request that row's temperature |
| AI.ShiftedHistoryDropsOlderReadings | utils/ai.go:126-132 | a row 20 hours old is in the intended history and missing from the history as written |
| AI.ShiftedWindowBounds | utils/ai.go:126-132 | as written, the history covers [now-16h, now+8h) |
| AI.HistoryIsLastDay | utils/ai.go:66-72 | queried at the intended instant, the history is exactly the owner's stored rows of the 24 hours before the reading |
| AI.AIFlag.SetGlobalAIEnabled | utils/ai.go:232-237 | sets both the flag and the plant |
| AI.AIFlag.IsGlobalAIEnabled | utils/ai.go:239-243 | reads both without changing them |
| AI.SetThenRead | utils/ai.go:232-243 | a read after a set returns what was set |
| DevMode.DevModeCache.InitDeveloperModeState | config/db.go:31-57 | loads row 1, or creates and caches the disabled default; any store error returns with the cache and table unchanged |
| DevMode.DevModeCache.GetDeveloperModeState | config/db.go:60-64 | returns the cached pair |
| DevMode.DevModeCache.SetDeveloperModeState | config/db.go:67-85 | saves row 1, then updates the cache; a failed save changes nothing |
| DevMode.SetThenGet | config/db.go:60-85 | a successful set is what the next get returns |
| Device.GetDeviceConfig | controllers/device.go:16-43 | inside the window nothing changes; after it the state resets to (off, zero) and AI turns on with the placeholder plant, or 500 when the reset cannot be saved; consistency is kept |
| Device.TriggerDeveloperMode | controllers/device.go:46-60 | a saved trigger enables the mode from now and turns AI off with no plant; a failed one changes nothing |
| Device.StopDeveloperMode | controllers/device.go:63-75 | a saved stop disables the mode with zero start and turns AI on with the placeholder plant |
| Device.WindowBoundary | controllers/device.go:12 | the mode is active for 14 days from the trigger, inclusive of the last second before, and due for expiry at 14 days |
| Device.DisabledNeverExpires | controllers/device.go:22 | a disabled mode is neither active nor due for expiry |
| Device.TriggerThenRead | controllers/device.go:16-60 | after a trigger, a read inside the window reports active with AI off; the first read after it resets, and the next read finds nothing left to reset |
| Hub.ConnsOfAppend | controllers/websocket.go:96 | one more write adds exactly its connection to the written set |
| Hub.ConvertUserId | controllers/websocket.go:41-58 | a uint claim registers under its value, a float64 claim under its truncation, a string exactly when it is a 32-bit decimal and then under its value; other types are refused |
| Hub.StringIdRoundTrip | controllers/websocket.go:47-50 | a 32-bit id sent as its decimal text registers under that id |
| Hub.WholeFloatIdRoundTrip | controllers/websocket.go:43-44 | a float64 claim holding a whole id registers under that id |
| Hub.Hub.HandleWebSocket | controllers/websocket.go:29-63 | a connection without a usable user id is not registered; otherwise it is registered under the converted id |
| Hub.Hub.Unregister | controllers/websocket.go:80-83 | removes the connection, a no-op when absent |
| Hub.Hub.BroadcastUpdate | controllers/websocket.go:94-99 | exactly one write of the same update to every registered client; a failed write does not stop the rest |
| Hub.Hub.BroadcastNotification | controllers/websocket.go:100-117 | exactly one write per client, carrying that client's own abnormal count, or 0 when its count query fails; a failed write does not stop the rest |
| Sensor.ClaimUserId | controllers/sensor.go:38-46 | float64 and uint claims give an id, with the float truncated; anything else is refused |
| Sensor.PredictionFor | controllers/sensor.go:48-52 | no prediction when AI is off or the history fails |
| Sensor.IngestedReading | controllers/sensor.go:34-63 | the stored reading has the caller's id and the server time; its soil moisture is the prediction when there is one and the submitted value otherwise; it is flagged exactly when the corrected values leave their bands |
| Sensor.CorrectAndClassify | controllers/sensor.go:48-63 | the corrected and classified reading, with one predictor request, built from the history queried at the shifted instant, exactly when AI is on and the history loads |
| Sensor.Publish | controllers/sensor.go:66-70 | the update round, then the notification round only for an abnormal reading |
| Sensor.ReceiveData | controllers/sensor.go:21-73 | 401 without a user id, 400 for a bad body, 500 for an unusable id type, each with no side effect; otherwise the reading is corrected (the history queried at the shifted instant), stored when the insert succeeds, and broadcast whatever the insert did; store classification is preserved |
| Sensor.IngestedReadingIgnoresAttribution | controllers/sensor.go:34-42 | stamping the owner and time before correcting does not change the outcome |
| Sensor.RegistrationMatchesIngestion | controllers/websocket.go:41-58 | a float64 or uint claim gives the same id at websocket registration as at ingestion; only registration also accepts a string |
| Sensor.MissingPredictionStoresZero | utils/ai.go:170-181 | a reply without the prediction field stores soil moisture 0 and flags the reading abnormal, for its soil moisture when the rest is in band |
| Sensor.AIDisabledKeepsSubmittedValue | controllers/sensor.go:48-50 | with AI off the submitted soil moisture is stored and classified |
| Sensor.CorrectedReadingIsNormal | controllers/sensor.go:54-63 | {25, 40, 2} corrected to 45 is stored as 45 and is not abnormal |
| Sensor.FailedPredictionKeepsRawValue | controllers/sensor.go:57-63 | {25, 40, 2} with a failed prediction keeps 2 and is abnormal for Soil Moisture |
| Sensor.IngestDuringDeveloperMode | controllers/sensor.go:48-50 | right after developer mode is triggered, a reading is accepted without any predictor request and keeps its soil moisture |
| Sensor.AbnormalQuery | controllers/sensor.go:177-182 | exactly the abnormal rows, restricted to the caller's rows unless admin |
| Sensor.Entries | controllers/sensor.go:187-193 | one entry per row, with its timestamp and reason |
| Sensor.GetAbnormalHistory | controllers/sensor.go:167-196 | 401 without a user id, 500 when the query fails, otherwise the entries of the visible abnormal rows |
| Sensor.OwnHistoryMatchesCount | controllers/sensor.go:177-182 | a non-admin gets as many entries as their abnormal count |
| Sensor.HistoryHasConcreteReasons | controllers/sensor.go:187-193 | over classified rows no entry reads "Unknown" |
| Sensor.CallerText | controllers/sensor.go:468 | the caller's printed id is its canonical digits below 10^6 and not a digit string from 10^6 up |
| Sensor.TargetId | controllers/sensor.go:475 | a target resolves exactly when it is digits with a value below 2^64, and then to that value |
| Sensor.DeleteUserRecordsDecision | controllers/sensor.go:454-471 | 401 without a user id; otherwise it proceeds exactly for an admin or when the caller's printed id equals the target, and answers 403 otherwise |
| Sensor.NonAdminDeletesOnlyOwnRecords | controllers/sensor.go:468-481 | a non-admin who gets past the check targets their own id below 10^6, and a target naming no user from 10^6 up |
| Sensor.LargeIdLockedOutOfOwnRecords | controllers/sensor.go:468 | as written, a non-admin with an id of 10^6 or more is refused (403) on the canonical text of their own id |
| Sensor.DeleteUserRecordsDecisionById | controllers/sensor.go:468 | the check on resolved ids: it proceeds exactly for an admin or when the target resolves to the caller |
| Sensor.CorrectedRecordsGuardAdmitsOwner | controllers/sensor.go:468 | the corrected check admits every user to their own canonical id, and a non-admin only to it |
| Sensor.RecordsGuardsAgreeBelowExponentForm | controllers/sensor.go:468 | below 10^6 both checks decide alike on canonical text |
| Sensor.DeleteUserAccountDecision | controllers/sensor.go:495-521 | 401, then 500 when the caller lookup fails, then 403 for a non-admin; it proceeds exactly for an admin whose printed id differs from the target text |
| Sensor.SelfDeletionGuardBypass | controllers/sensor.go:518-525 | admin 7 with target "07" and admin 1000000 with target "1000000" pass the guard, yet each target resolves to the caller |
| Sensor.DeleteUserAccountDecisionById | controllers/sensor.go:509-521 | the guard on resolved ids: it proceeds exactly for an admin whose target does not resolve to themselves |
| Sensor.CorrectedGuardBlocksSelf | controllers/sensor.go:517-521 | a target resolving to the admin's own id is refused with 400 |
| Sensor.GuardsAgreeOnCanonicalIds | controllers/sensor.go:517-521 | on canonical id text both guards decide alike, except exactly for an admin of id 10^6 or more naming their own id |
| Auth.TokenOf | middlewares/auth.go:16-27 | the header's text after "Bearer " when it is non-empty, else the query token |
| Auth.ExtractToken | middlewares/auth.go:16-27 | the step-by-step extraction yields the token above |
| Auth.HeaderTokenWins | middlewares/auth.go:20-27 | a non-empty bearer token takes precedence over the query parameter |
| Auth.NoTokenIffBothEmpty | middlewares/auth.go:25-34 | no token exactly when the header carries none and the query is empty |
| Auth.AuthMiddleware | middlewares/auth.go:14-59 | no token, a token that fails verification, or a missing user_id claim each give 401 and abort, with user_id never set; otherwise user_id is the claim and the chain continues |
| Auth.GuardedReceiveData | middlewares/auth.go:30-57 | a rejected request reaches no handler and changes nothing; an admitted one is never answered 401 |
| Legacy.CheckAbnormality | main.go:224-228 | false exactly when all three values are inside their bands |
| Legacy.GetAbnormalType | main.go:137-148 | Temperature, then Humidity, then Soil Moisture, else "Unknown" exactly for a normal reading |
| Legacy.ClassifiersAgree | main.go:137-148 | the old and the new classifier agree on every reading |
| Legacy.LegacyServer.HandleWebSocket | main.go:197-204 | an upgraded connection joins the set and is closed at once |
| Legacy.LegacyServer.Broadcast | main.go:206-222 | exactly one identical write to each connection in the set, succeeding only on an open connection |
| Legacy.LegacyServer.ReceiveData | main.go:72-95 | 400 for a bad body with no side effect; otherwise classify, insert, one update write to each connection, then one notification write to each only when abnormal; none of those writes succeeds |
| Legacy.NoWriteSucceeds | main.go:197-204 | when every registered connection is closed, no write of a reading's rounds succeeds |

## Left out

- Floating point: readings are `float32` and the service reply is `float64`; the model uses reals. The conversions between them and the `%.1f` text of the request features are not modelled.
- Time: instants are whole seconds, and sub-second precision is not modelled. The "2006-01-02 15:04:05" text is modelled by its fields (`AI.WallClock`), with the date as a day count: the conversion between a day count and year-month-day is not modelled. The Kuala Lumpur zone is a fixed UTC+8 offset. A failing zone-database load is not modelled.
- Store order: `ORDER BY timestamp` (ascending for the history, descending for the abnormal history) is not modelled. Rows come in insertion order, which is also timestamp order for readings stamped by the server.
- The abnormal-history response is an empty sequence when there are no rows; the source marshals a nil slice as `null`.
- Concurrency: the locks around the AI flag and the developer-mode cache, and requests running in parallel, are not modelled. Each operation runs alone. The websocket registry of controllers/websocket.go is a plain map with no lock, written by the websocket handler and iterated by the broadcasts from concurrent requests; that race is not modelled.
- Websocket connection upkeep (read limit, read deadline, pong handler, the 30-second ping goroutine, the read loop itself) is not modelled. Registration, removal and the sends are.
- JSON encoding of messages, request binding and the JWT (signature, expiry, secret) are oracles. A parse or binding failure is the `None` of a parameter.
- Models.FloatToUint: a float64 outside [0, 2^64) converts to 0 here. Go leaves that result implementation-dependent.
- Sensor.CallerText: the `user_id` claim is taken to be the float64 of a whole user id. Its `%v` text is exact below 2^53; the rounding of larger ids to float64, and claims with fractions, are not modelled.
- Sensor.TargetId: the database's resolution of the URL text is digits only. Signs and surrounding spaces, which the database also accepts, are not modelled.
- DeleteUserRecords and DeleteUserAccount are modelled up to their permission checks. The target lookup, the deletions and the transaction are not.
- The other handlers of controllers/sensor.go (history, CSV, single-record delete and update, locations) and their main.go counterparts are not part of the core. `UpdateRecord` changes values without re-classifying, so `Sensor.AllClassified` holds only for rows written by `ReceiveData`.
- controllers/train.go, controllers/auth.go (login and registration) and the Python prediction service are not part of this model.

## Findings

| source | as written | input that shows it | evidently intended | confidence | as-written member | corrected member |
|---|---|---|---|---|---|---|
| controllers/sensor.go:518 | the self-deletion guard compares the caller's printed id with the URL text | admin with id 7 and target "07", or admin with id 1000000 (printed "1e+06") and target "1000000": the guard passes, and the lookup and deletion resolve the target to the caller | refuse any target that names the caller's own account | not executed; medium (depends on the database accepting "07" as id 7) | Sensor.SelfDeletionGuardBypass | Sensor.DeleteUserAccountDecisionById |
| utils/ai.go:126 | the history is queried at the reading's Kuala Lumpur wall-clock time re-read as UTC, 8 hours after the reading | a reading taken 20 hours before a new one is left out of the new one's history | the 24 hours before the reading | not executed; high | AI.ShiftedRequestMissesEarlierReading | AI.IntendedQueriedInstant |
| controllers/sensor.go:468 | the ownership check compares the caller's `%v` text with the URL text | non-admin with id 1000000 deleting "1000000": `%v` prints "1e+06", so the owner is refused with 403 | let every user delete their own records | not executed; high | Sensor.LargeIdLockedOutOfOwnRecords | Sensor.DeleteUserRecordsDecisionById |
