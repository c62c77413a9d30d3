/**
  Plain records shared by the telemetry backend: the sensor reading
  (models/sensordata.go), the developer-mode row (models/developer_mode.go),
  the dynamic value stored under the request key "user_id", and the HTTP
  outcomes the handlers answer with.
 */
module Models {

  datatype Option<+T> = None | Some(value: T)

  /** Instants are whole seconds since the Unix epoch. */
  const SecondsPerHour: int := 60 * 60

  /** Unix seconds of Go's zero time.Time (0001-01-01 00:00:00 UTC), the
      value the backend stores for "developer mode has no start time". */
  const ZeroTime: int := -62135596800

  /** Go's `uint` on the 64-bit targets the backend is built for. */
  const UintLimit: int := 0x1_0000_0000_0000_0000

  type Uint = n: int | 0 <= n < UintLimit

  /** One telemetry reading. Measurements are reals: float32 rounding is not modelled. */
  datatype SensorData = SensorData(
    id: nat,
    userId: nat,
    timestamp: int,
    temperature: real,
    humidity: real,
    soilMoisture: real,
    isAbnormal: bool)

  /** The single developer-mode row of the settings table. */
  datatype DeveloperModeSetting = DeveloperModeSetting(id: nat, isEnabled: bool, startTime: int)

  /** Dynamic type of the value kept under the request key "user_id".
      A JWT claim decoded from JSON is a float64; other code paths may store
      a uint or a string; anything else is OtherClaim. */
  datatype ClaimValue =
    | FloatClaim(f: real)
    | UintClaim(u: Uint)
    | StringClaim(s: string)
    | OtherClaim

  /** Go's `uint(v)` for a float64 `v`: truncation toward zero when the
      result is representable. Go leaves the result implementation-dependent
      otherwise; this model picks 0 there. */
  function FloatToUint(f: real): (u: Uint)
    ensures 0.0 <= f < UintLimit as real ==> u as real <= f < u as real + 1.0
  {
    if 0.0 <= f < UintLimit as real then f.Floor else 0
  }

  datatype HttpStatus = StatusOK | BadRequest | Unauthorized | Forbidden | NotFound | InternalServerError
}
