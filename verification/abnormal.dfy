/**
  The abnormality classifier of utils/abnormal.go: a reading is normal when
  temperature, humidity and soil moisture all lie in their closed bands
  [20, 50], [30, 90] and [5, 95]; the reason reported for an abnormal
  reading follows the fixed priority Temperature, Humidity, Soil Moisture.
 */
module Abnormal {
  import opened Models

  const TemperatureMin: real := 20.0
  const TemperatureMax: real := 50.0
  const HumidityMin: real := 30.0
  const HumidityMax: real := 90.0
  const SoilMoistureMin: real := 5.0
  const SoilMoistureMax: real := 95.0

  const TemperatureReason: string := "Temperature"
  const HumidityReason: string := "Humidity"
  const SoilMoistureReason: string := "Soil Moisture"
  const UnknownReason: string := "Unknown"

  predicate InBand(x: real, lo: real, hi: real) { lo <= x <= hi }

  predicate TemperatureNormal(t: real) { InBand(t, TemperatureMin, TemperatureMax) }
  predicate HumidityNormal(h: real) { InBand(h, HumidityMin, HumidityMax) }
  predicate SoilMoistureNormal(s: real) { InBand(s, SoilMoistureMin, SoilMoistureMax) }

  /** All three measurements inside their bands. */
  predicate AllNormal(t: real, h: real, s: real)
  {
    TemperatureNormal(t) && HumidityNormal(h) && SoilMoistureNormal(s)
  }

  /** CheckAbnormality: the strict comparisons of the source put every band
      bound on the normal side. */
  function CheckAbnormality(d: SensorData): (abnormal: bool)
    ensures abnormal <==> !AllNormal(d.temperature, d.humidity, d.soilMoisture)
  {
    d.temperature < 20.0 || d.temperature > 50.0 ||
    d.humidity < 30.0 || d.humidity > 90.0 ||
    d.soilMoisture < 5.0 || d.soilMoisture > 95.0
  }

  /** GetAbnormalType: the first measurement out of band, in priority order. */
  function GetAbnormalType(r: SensorData): (reason: string)
    ensures reason == TemperatureReason <==> !TemperatureNormal(r.temperature)
    ensures reason == HumidityReason <==> TemperatureNormal(r.temperature) && !HumidityNormal(r.humidity)
    ensures reason == SoilMoistureReason <==>
              TemperatureNormal(r.temperature) && HumidityNormal(r.humidity) && !SoilMoistureNormal(r.soilMoisture)
    ensures reason == UnknownReason <==> !CheckAbnormality(r)
    ensures reason in {TemperatureReason, HumidityReason, SoilMoistureReason, UnknownReason}
  {
    if r.temperature < 20.0 || r.temperature > 50.0 then "Temperature"
    else if r.humidity < 30.0 || r.humidity > 90.0 then "Humidity"
    else if r.soilMoisture < 5.0 || r.soilMoisture > 95.0 then "Soil Moisture"
    else "Unknown"
  }

  /** Every combination of band bounds is a normal reading. */
  lemma BoundariesAreNormal(d: SensorData)
    requires d.temperature == TemperatureMin || d.temperature == TemperatureMax
    requires d.humidity == HumidityMin || d.humidity == HumidityMax
    requires d.soilMoisture == SoilMoistureMin || d.soilMoisture == SoilMoistureMax
    ensures !CheckAbnormality(d)
    ensures GetAbnormalType(d) == UnknownReason
  {
  }

  /** An abnormal reading always gets one of the three concrete reasons. */
  lemma AbnormalHasConcreteReason(d: SensorData)
    requires CheckAbnormality(d)
    ensures GetAbnormalType(d) in {TemperatureReason, HumidityReason, SoilMoistureReason}
  {
  }
}
