/** The simulated farm sensor: a temperature and a humidity reading that take
    a clamped random walk, and a colour that says whether both readings lie in
    their ideal ranges. The random noise of each tick is an input here. */
module SensorSimulation {

  /** The inspector settings of one simulated sensor. */
  datatype Settings = Settings(
    minTemperature: real, maxTemperature: real,
    minHumidity: real, maxHumidity: real,
    noiseAmount: real,
    idealTempMin: real, idealTempMax: real,
    idealHumidityMin: real, idealHumidityMax: real)
  {
    /** Both simulated ranges are non-empty. */
    predicate Ordered() {
      minTemperature <= maxTemperature && minHumidity <= maxHumidity
    }
  }

  /** The values the component ships with. */
  const DefaultSettings: Settings :=
    Settings(15.0, 35.0, 30.0, 80.0, 0.5, 20.0, 25.0, 40.0, 60.0)

  /** The two colours the sensor object is painted with. */
  datatype Color = Green | Red

  const GoodColor: Color := Green
  const BadColor: Color := Red

  function Abs(x: real): real { if x < 0.0 then -x else x }

  /** Unity's `Mathf.Clamp`: below `min` gives `min`, otherwise above `max`
      gives `max`, otherwise the value itself. When `min <= max` this is the
      nearest point of the interval, so it never moves a value further from
      any point of the interval. */
  function Clamp(value: real, min: real, max: real): (r: real)
    ensures min <= max ==> min <= r <= max
    ensures min <= value <= max ==> r == value
    ensures min <= max ==> Abs(r - value) <= Abs(value - min) && Abs(r - value) <= Abs(value - max)
    ensures min <= max ==> (r == value <==> min <= value <= max)
  {
    if value < min then min else if value > max then max else value
  }

  /** Clamping twice is clamping once. */
  lemma ClampIdempotent(value: real, min: real, max: real)
    requires min <= max
    ensures Clamp(Clamp(value, min, max), min, max) == Clamp(value, min, max)
  {
  }

  /** A clamp into a non-empty interval is non-expansive towards every point
      of that interval: it never takes a value further from such a point. */
  lemma ClampNonExpansive(value: real, min: real, max: real, y: real)
    requires min <= y <= max
    ensures Abs(Clamp(value, min, max) - y) <= Abs(value - y)
  {
  }

  /** One tick of the random walk of one reading. */
  function WalkStep(current: real, noise: real, min: real, max: real): (next: real)
    ensures min <= max ==> min <= next <= max
  {
    Clamp(current + noise, min, max)
  }

  /** A reading already in range moves by at most the size of the noise. */
  lemma WalkStepBounded(current: real, noise: real, noiseAmount: real, min: real, max: real)
    requires min <= current <= max
    requires -noiseAmount <= noise <= noiseAmount
    ensures Abs(WalkStep(current, noise, min, max) - current) <= noiseAmount
  {

  }

  /** With zero noise a reading in range stays where it is. */
  lemma WalkStepZeroNoise(current: real, min: real, max: real)
    requires min <= current <= max
    ensures WalkStep(current, 0.0, min, max) == current
  {
  }

  /** Both readings lie within their ideal ranges, bounds included. A reading
      is ideal exactly when clamping it into its ideal range leaves it
      unchanged, and no reading is ideal against an empty ideal range. */
  predicate IsInIdealRange(s: Settings, temp: real, humidity: real): (inRange: bool)
    ensures inRange <==> Clamp(temp, s.idealTempMin, s.idealTempMax) == temp
                         && Clamp(humidity, s.idealHumidityMin, s.idealHumidityMax) == humidity
    ensures inRange ==> s.idealTempMin <= s.idealTempMax && s.idealHumidityMin <= s.idealHumidityMax
  {
    var tempInRange := temp >= s.idealTempMin && temp <= s.idealTempMax;
    var humidityInRange := humidity >= s.idealHumidityMin && humidity <= s.idealHumidityMax;
    tempInRange && humidityInRange
  }

  /** The colour shown for a pair of readings. */
  function ColorFor(s: Settings, temp: real, humidity: real): (c: Color)
    ensures c == GoodColor <==> IsInIdealRange(s, temp, humidity)
    ensures c == BadColor <==> !IsInIdealRange(s, temp, humidity)
  {
    if IsInIdealRange(s, temp, humidity) then GoodColor else BadColor
  }

  /** Both ends of each ideal range count as ideal, and a reading just outside
      either end does not: a reading on a corner of the ideal rectangle is
      painted good. */
  lemma IdealRangeInclusive(s: Settings, t: real, h: real)
    requires s.idealTempMin <= s.idealTempMax && s.idealHumidityMin <= s.idealHumidityMax
    requires t == s.idealTempMin || t == s.idealTempMax
    requires h == s.idealHumidityMin || h == s.idealHumidityMax
    ensures IsInIdealRange(s, t, h)
    ensures !IsInIdealRange(s, s.idealTempMax + 1.0, h) && !IsInIdealRange(s, t, s.idealHumidityMin - 1.0)
  {
  }

  /** With the shipped settings the ideal ranges lie inside the simulated
      ranges, so every tick can land in either colour. */
  lemma DefaultIdealInsideSimulated()
    ensures DefaultSettings.Ordered()
    ensures IsInIdealRange(DefaultSettings, 22.5, 50.0)
    ensures !IsInIdealRange(DefaultSettings, DefaultSettings.minTemperature, 50.0)
    ensures DefaultSettings.minTemperature <= DefaultSettings.idealTempMin <= DefaultSettings.idealTempMax <= DefaultSettings.maxTemperature
    ensures DefaultSettings.minHumidity <= DefaultSettings.idealHumidityMin <= DefaultSettings.idealHumidityMax <= DefaultSettings.maxHumidity
  {
  }

  /** One simulated sensor and its two current readings. */
  class SensorDataSimulator {
    const settings: Settings
    var currentTemperature: real
    var currentHumidity: real

    /** When both simulated ranges are non-empty, both readings lie in them. */
    ghost predicate Valid()
      reads this
    {
      settings.Ordered() ==>
        && settings.minTemperature <= currentTemperature <= settings.maxTemperature
        && settings.minHumidity <= currentHumidity <= settings.maxHumidity
    }

    /** `Start`: the initial readings are drawn inside the simulated ranges;
        the draws are parameters here. */
    constructor Start(s: Settings, initialTemperature: real, initialHumidity: real)
      requires s.Ordered() ==> s.minTemperature <= initialTemperature <= s.maxTemperature
      requires s.Ordered() ==> s.minHumidity <= initialHumidity <= s.maxHumidity
      ensures Valid()
      ensures settings == s
      ensures currentTemperature == initialTemperature && currentHumidity == initialHumidity
    {
      settings := s;
      currentTemperature := initialTemperature;
      currentHumidity := initialHumidity;
    }

    /** One pass of the body of `SimulateSensorData`: add the noise to each
        reading, clamp it into its simulated range, and choose the colour. */
    method SimulateStep(temperatureNoise: real, humidityNoise: real) returns (currentColor: Color)
      requires Valid()
      modifies this
      ensures Valid()
      ensures currentTemperature == WalkStep(old(currentTemperature), temperatureNoise,
                                             settings.minTemperature, settings.maxTemperature)
      ensures currentHumidity == WalkStep(old(currentHumidity), humidityNoise,
                                          settings.minHumidity, settings.maxHumidity)
      ensures currentColor == GoodColor <==> IsInIdealRange(settings, currentTemperature, currentHumidity)
      ensures settings.Ordered() && Abs(temperatureNoise) <= settings.noiseAmount ==>
                Abs(currentTemperature - old(currentTemperature)) <= settings.noiseAmount
      ensures settings.Ordered() && Abs(humidityNoise) <= settings.noiseAmount ==>
                Abs(currentHumidity - old(currentHumidity)) <= settings.noiseAmount
    {
      ghost var t0, h0 := currentTemperature, currentHumidity;
      currentTemperature := Clamp(currentTemperature + temperatureNoise,
                                  settings.minTemperature, settings.maxTemperature);
      currentHumidity := Clamp(currentHumidity + humidityNoise,
                               settings.minHumidity, settings.maxHumidity);
      currentColor := ColorFor(settings, currentTemperature, currentHumidity);
      if settings.Ordered() && Abs(temperatureNoise) <= settings.noiseAmount {
        WalkStepBounded(t0, temperatureNoise, settings.noiseAmount,
                        settings.minTemperature, settings.maxTemperature);
      }
      if settings.Ordered() && Abs(humidityNoise) <= settings.noiseAmount {
        WalkStepBounded(h0, humidityNoise, settings.noiseAmount,
                        settings.minHumidity, settings.maxHumidity);
      }
    }
  }
}
