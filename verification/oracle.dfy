/** Trigger evaluation (src/lib/oracle.js, and the evaluators of the older
    app): a reading of the three indices is compared, strictly, with the
    thresholds; the policy triggers when all three exceed theirs. Readings
    are exact reals. */
module Oracle {
  import opened Domain

  /** An oracle reading: the three trigger indices and three reference values. */
  datatype Reading = Reading(rainfall: real, ndvi: real, river: real,
                             temp: real, humidity: real, wind: real)

  /** One index's verdict: the reading, whether it is over the threshold,
      and the bar percentage. */
  datatype IndexVerdict = IndexVerdict(value: real, met: bool, pct: real)

  datatype Verdict = Verdict(rainfall: IndexVerdict, ndvi: IndexVerdict, river: IndexVerdict, allMet: bool)

  /** The weather used when none is supplied. */
  const DEFAULT_WEATHER: Weather := Weather(47.2, 29.3, 84.0, 18.5)

  /** `parseFloat(x.toFixed(1))` on a non-negative value: round half up to
      one decimal, giving a whole number of tenths. */
  function RoundTenth(x: real): (r: real)
    requires x >= 0.0
    ensures x - 0.05 <= r <= x + 0.05
    ensures (r * 10.0).Floor as real == r * 10.0
  {
    var k := (x * 10.0 + 0.5).Floor;
    assert k as real / 10.0 * 10.0 == k as real;
    k as real / 10.0
  }

  /** `parseFloat(x.toFixed(2))` on a non-negative value: a whole number of
      hundredths. */
  function RoundHundredth(x: real): (r: real)
    requires x >= 0.0
    ensures x - 0.005 <= r <= x + 0.005
    ensures (r * 100.0).Floor as real == r * 100.0
  {
    var k := (x * 100.0 + 0.5).Floor;
    assert k as real / 100.0 * 100.0 == k as real;
    k as real / 100.0
  }

  /** `simulate(flood, weatherData)`; `u` and `v` are the two `Math.random()`
      draws used outside a flood. */
  function Simulate(flood: bool, weather: Option<Weather>, u: real, v: real): (d: Reading)
    requires 0.0 <= u < 1.0 && 0.0 <= v < 1.0
    ensures flood ==> d.rainfall == 237.5 && d.ndvi == 62.4 && d.river == 9.8
    ensures !flood ==> d.rainfall == weather.GetOr(DEFAULT_WEATHER).rainfall72h
    ensures !flood ==> 7.95 <= d.ndvi <= 16.05 && 5.495 <= d.river <= 7.005
    ensures d.temp == weather.GetOr(DEFAULT_WEATHER).temp
    ensures d.humidity == weather.GetOr(DEFAULT_WEATHER).humidity
    ensures d.wind == weather.GetOr(DEFAULT_WEATHER).wind
  {
    var w := weather.GetOr(DEFAULT_WEATHER);
    Reading(
      if flood then 237.5 else w.rainfall72h,
      if flood then 62.4 else RoundTenth(8.0 + u * 8.0),
      if flood then 9.8 else RoundHundredth(5.5 + v * 1.5),
      w.temp, w.humidity, w.wind)
  }

  /** The per-index check `r(val, th)`: the reading, whether it is strictly
      over the threshold, and its percentage of the threshold capped at 130. */
  function Check(val: real, th: Level): (r: IndexVerdict)
    ensures r.value == val
    ensures r.met <==> val > th
    ensures r.pct <= 130.0
    ensures val <= 1.3 * th ==> r.pct == val / th * 100.0
    ensures val > 1.3 * th ==> r.pct == 130.0
    ensures r.pct >= 100.0 <==> val >= th
  {
    var q := val / th * 100.0;
    PercentOfThreshold(val, th);
    IndexVerdict(val, val > th, if q <= 130.0 then q else 130.0)
  }

  /** `val / th * 100` reaches 100 exactly at the threshold and stays
      within 130 exactly up to 1.3 times it. */
  lemma PercentOfThreshold(val: real, th: real)
    requires th > 0.0
    ensures val / th * 100.0 >= 100.0 <==> val >= th
    ensures val / th * 100.0 <= 130.0 <==> val <= 1.3 * th
    ensures val >= 0.0 ==> val / th * 100.0 >= 0.0
  {
    var q := val / th;
    assert q * th == val;
    assert val >= th <==> q >= 1.0 by {
      ScaleBy(q, th, 1.0);
    }
    assert val <= 1.3 * th <==> q <= 1.3 by {
      ScaleBy(q, th, 1.3);
    }
    assert val >= 0.0 <==> q >= 0.0 by {
      ScaleBy(q, th, 0.0);
    }
  }

  /** Multiplying by a positive number keeps the order. */
  lemma ScaleBy(q: real, th: real, c: real)
    requires th > 0.0
    ensures q * th >= c * th <==> q >= c
    ensures q * th <= c * th <==> q <= c
  {
    if q >= c {
      assert (q - c) * th >= 0.0;
    } else {
      assert (c - q) * th > 0.0;
    }
    if q <= c {
      assert (c - q) * th >= 0.0;
    } else {
      assert (q - c) * th > 0.0;
    }
  }

  /** `evaluate(data, thresholds)`. */
  function Evaluate(d: Reading, t: Thresholds): (r: Verdict)
    ensures r.rainfall == Check(d.rainfall, t.rainfall)
    ensures r.ndvi == Check(d.ndvi, t.ndvi)
    ensures r.river == Check(d.river, t.river)
    ensures r.allMet <==> d.rainfall > t.rainfall && d.ndvi > t.ndvi && d.river > t.river
  {
    var rf := Check(d.rainfall, t.rainfall);
    var nd := Check(d.ndvi, t.ndvi);
    var rv := Check(d.river, t.river);
    Verdict(rf, nd, rv, rf.met && nd.met && rv.met)
  }

  /** A reading equal to its threshold does not trigger. */
  lemma EqualReadingIsNotMet(t: Thresholds, d: Reading)
    requires d.rainfall == t.rainfall || d.ndvi == t.ndvi || d.river == t.river
    ensures !Evaluate(d, t).allMet
  {
  }

  /** A simulated flood exceeds the default thresholds on all three indices. */
  lemma FloodTriggersAtDefaults(w: Option<Weather>, u: real, v: real)
    requires 0.0 <= u < 1.0 && 0.0 <= v < 1.0
    ensures var r := Evaluate(Simulate(true, w, u, v), DEFAULT_THRESHOLDS);
            r.rainfall.met && r.ndvi.met && r.river.met && r.allMet
  {
  }

  /** Without a flood and without weather data the rainfall is the default
      47.2 mm, which does not meet the default 200 mm. */
  lemma DefaultWeatherDoesNotTrigger(u: real, v: real)
    requires 0.0 <= u < 1.0 && 0.0 <= v < 1.0
    ensures Simulate(false, None, u, v).rainfall == 47.2
    ensures var r := Evaluate(Simulate(false, None, u, v), DEFAULT_THRESHOLDS);
            !r.rainfall.met && !r.allMet
  {
  }

  /** Outside a flood the simulated vegetation index stays at most 16.05, so
      no weather at all can trigger against an NDVI threshold of 16.05 or
      more (the default is 40). */
  lemma CalmNeverTriggers(w: Option<Weather>, u: real, v: real, t: Thresholds)
    requires 0.0 <= u < 1.0 && 0.0 <= v < 1.0
    requires t.ndvi >= 16.05
    ensures !Evaluate(Simulate(false, w, u, v), t).allMet
  {
  }

  // ---------------------------------------------------------------------
  // The oracle readings of the older app

  /** `OracleEngine.simulate(flood)` of the older shared layer: the weather
      is the service's cache, and the random NDVI and river level are not
      rounded. */
  function LegacySimulate(flood: bool, cache: Option<Weather>, u: real, v: real): (d: Reading)
    requires 0.0 <= u < 1.0 && 0.0 <= v < 1.0
    ensures flood ==> d.rainfall == 237.5 && d.ndvi == 62.4 && d.river == 9.8
    ensures !flood ==> 8.0 <= d.ndvi < 16.0 && 5.5 <= d.river < 7.0
  {
    var w := if cache.Some? then cache.value else Weather(47.2, 29.3, 84.0, 18.5);
    Reading(
      if flood then 237.5 else w.rainfall72h,
      if flood then 62.4 else 8.0 + u * 8.0,
      if flood then 9.8 else 5.5 + v * 1.5,
      w.temp, w.humidity, w.wind)
  }

  /** The current library's reading is the older one with the NDVI rounded
      to tenths and the river level to hundredths; everything else agrees. */
  lemma LegacySimulateRounded(flood: bool, w: Option<Weather>, u: real, v: real)
    requires 0.0 <= u < 1.0 && 0.0 <= v < 1.0
    ensures var prev := LegacySimulate(flood, w, u, v);
            var cur := Simulate(flood, w, u, v);
            && cur.rainfall == prev.rainfall && cur.temp == prev.temp
            && cur.humidity == prev.humidity && cur.wind == prev.wind
            && (flood ==> cur == prev)
            && (!flood ==> cur.ndvi == RoundTenth(prev.ndvi) && cur.river == RoundHundredth(prev.river))
            && prev.ndvi - 0.05 <= cur.ndvi <= prev.ndvi + 0.05
            && prev.river - 0.005 <= cur.river <= prev.river + 0.005
  {
  }

  /** The weather the older app's oracle falls back to when no weather was
      fetched: no rain, 28 degrees, 70% humidity, 12 km/h wind. */
  const APP_FALLBACK_WEATHER: Weather := Weather(0.0, 28.0, 70.0, 12.0)

  /** `OracleEngine.getData()` of the older app: `flood` is the app's
      `floodSimulated` flag, `weather` its `weatherData`, `u` and `v` the
      draws of `computeNDVI` and `computeRiverLevel`, both rounded after the
      flood choice. It is the current library's reading with the app's own
      fallback weather. */
  function AppOracleData(flood: bool, weather: Option<Weather>, u: real, v: real): (d: Reading)
    requires 0.0 <= u < 1.0 && 0.0 <= v < 1.0
    ensures d == Simulate(flood, Some(weather.GetOr(APP_FALLBACK_WEATHER)), u, v)
  {
    var w := if weather.Some? then weather.value else APP_FALLBACK_WEATHER;
    Reading(
      if flood then 237.5 else w.rainfall72h,
      RoundTenth(if flood then 62.4 else 8.0 + u * 8.0),
      RoundHundredth(if flood then 9.8 else 5.5 + v * 1.5),
      w.temp, w.humidity, w.wind)
  }

  /** Without fetched weather the older app reads no rain outside a flood,
      so its oracle can never trigger then, whatever the thresholds. */
  lemma AppFallbackNeverTriggers(u: real, v: real, t: Thresholds)
    requires 0.0 <= u < 1.0 && 0.0 <= v < 1.0
    ensures AppOracleData(false, None, u, v).rainfall == 0.0
    ensures !Evaluate(AppOracleData(false, None, u, v), t).allMet
  {
  }

  /** `PayoutEngine.simulate` sets the flood flag before it reads the
      oracle, so the reading it logs is always the flood reading, which
      meets the default thresholds. */
  lemma PayoutReadingIsFlood(w: Option<Weather>, u: real, v: real)
    requires 0.0 <= u < 1.0 && 0.0 <= v < 1.0
    ensures var d := AppOracleData(true, w, u, v);
            d.rainfall == 237.5 && d.ndvi == 62.4 && d.river == 9.8
            && Evaluate(d, DEFAULT_THRESHOLDS).allMet
  {
    FloodTriggersAtDefaults(Some(w.GetOr(APP_FALLBACK_WEATHER)), u, v);
  }

  // ---------------------------------------------------------------------
  // The evaluators of the older app

  /** `OracleEngine.evaluate(data)` (prototype.old/shared.js), which
      computes `allMet` from the readings directly. */
  function LegacyEvaluate(d: Reading, t: Thresholds): (r: Verdict)
    ensures r == Evaluate(d, t)
  {
    Verdict(Check(d.rainfall, t.rainfall), Check(d.ndvi, t.ndvi), Check(d.river, t.river),
            d.rainfall > t.rainfall && d.ndvi > t.ndvi && d.river > t.river)
  }

  /** One index in `TriggerEvaluator.evaluate` (prototype.old/app.js): no percentage. */
  datatype IndexMet = IndexMet(value: real, met: bool)

  datatype TriggerVerdict = TriggerVerdict(rainfall: IndexMet, ndvi: IndexMet, river: IndexMet, allMet: bool)

  /** `TriggerEvaluator.evaluate(data)`. */
  function TriggerEvaluate(d: Reading, t: Thresholds): (r: TriggerVerdict)
    ensures r.allMet <==> r.rainfall.met && r.ndvi.met && r.river.met
    ensures var e := Evaluate(d, t);
      && r.rainfall == IndexMet(e.rainfall.value, e.rainfall.met)
      && r.ndvi == IndexMet(e.ndvi.value, e.ndvi.met)
      && r.river == IndexMet(e.river.value, e.river.met)
      && r.allMet == e.allMet
  {
    TriggerVerdict(
      IndexMet(d.rainfall, d.rainfall > t.rainfall),
      IndexMet(d.ndvi, d.ndvi > t.ndvi),
      IndexMet(d.river, d.river > t.river),
      d.rainfall > t.rainfall && d.ndvi > t.ndvi && d.river > t.river)
  }
}
