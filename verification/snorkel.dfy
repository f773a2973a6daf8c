/** The hourly snorkel assessment of `conditions/snorkel.py`: the threshold
    policy, the conjunctive score, the high-tide detector, the slack-window
    mask and the per-hour record built by `fetch_forecast`.

    Times are UTC instants in whole seconds; a calendar day is `t / 86400`.
    The two HTTP calls are not modelled: `FetchForecast` receives the parsed
    hourly and daily arrays of both responses. */
module Snorkel {
  import opened Wrappers

  // ---------------------------------------------------------------------------
  // Threshold policy (`THRESHOLDS`)
  // ---------------------------------------------------------------------------

  const WaveHeightMax: real := 0.3        // m
  const WindSpeedMax: real := 4.5         // m/s
  const SstMin: real := 22.0              // degrees C
  const SstMax: real := 29.0              // degrees C
  const CurrentVelocityMax: real := 0.3   // m/s
  const SlackWindowMinutes: int := 60
  /** The sea-surface temperature at which the score reaches 0, in degrees beyond the ideal range. */
  const SstFalloff: real := 5.0
  const SecondsPerDay: int := 86400

  function SlackWindowSeconds(): int { SlackWindowMinutes * 60 }

  function Abs(x: int): nat { if x < 0 then -x else x }

  /** `max(0.0, x)`. */
  function Max0(x: real): real { if x < 0.0 then 0.0 else x }

  // ---------------------------------------------------------------------------
  // Score (`_calculate_score`)
  // ---------------------------------------------------------------------------

  function WaveScore(wave: real): real {
    Max0(1.0 - wave / (WaveHeightMax * 2.0))
  }

  function WindScore(wind: real): real {
    Max0(1.0 - wind / (WindSpeedMax * 2.0))
  }

  function SstScore(sst: real): real {
    if SstMin <= sst <= SstMax then 1.0
    else if sst < SstMin then Max0(1.0 - (SstMin - sst) / SstFalloff)
    else Max0(1.0 - (sst - SstMax) / SstFalloff)
  }

  /** The suitability score of one hour: 0 without daylight or with a metric
      missing, otherwise the product of the three sub-scores. */
  function CalculateScore(wave: Option<real>, wind: Option<real>, sst: Option<real>, lightOk: bool): (score: real)
    ensures !lightOk || wave.None? || wind.None? || sst.None? ==> score == 0.0
    ensures wave.Some? && wave.value >= 0.0 && wind.Some? && wind.value >= 0.0 ==> 0.0 <= score <= 1.0
  {
    if !lightOk || wave.None? || wind.None? || sst.None? then 0.0
    else
      SubScoresInUnit(wave.value, wind.value, sst.value);
      WaveScore(wave.value) * WindScore(wind.value) * SstScore(sst.value)
  }

  lemma SubScoresInUnit(wave: real, wind: real, sst: real)
    ensures 0.0 <= SstScore(sst) <= 1.0
    ensures 0.0 <= WaveScore(wave) && 0.0 <= WindScore(wind)
    ensures wave >= 0.0 && wind >= 0.0 ==> WaveScore(wave) <= 1.0 && WindScore(wind) <= 1.0
    ensures wave >= 0.0 && wind >= 0.0 ==>
      0.0 <= WaveScore(wave) * WindScore(wind) * SstScore(sst) <= 1.0
  {
    var a, b, c := WaveScore(wave), WindScore(wind), SstScore(sst);
    assert 0.0 <= a * b;
    assert 0.0 <= a * b * c;
    if wave >= 0.0 && wind >= 0.0 {
      assert a * b <= 1.0 by { assert a * b <= 1.0 * b; }
      assert a * b * c <= 1.0 by { assert a * b * c <= 1.0 * c; }
    }
  }

  /** The distance in degrees from `sst` to the ideal range [SstMin, SstMax]. */
  function DistanceToIdeal(sst: real): real {
    if sst < SstMin then SstMin - sst else if sst > SstMax then sst - SstMax else 0.0
  }

  /** The sea-surface-temperature sub-score falls off linearly with the
      distance to the ideal range, by 1/5 per degree, and never below 0. */
  lemma SstScoreByDistance(sst: real)
    ensures SstScore(sst) == Max0(1.0 - DistanceToIdeal(sst) / SstFalloff)
  {
  }

  /** The temperature sub-score is 1 exactly on the inclusive ideal range, and
      0 exactly at 5 degrees or more beyond the nearer bound. */
  lemma SstScoreExtremes(sst: real)
    ensures SstScore(sst) == 1.0 <==> SstMin <= sst <= SstMax
    ensures SstScore(sst) == 0.0 <==> sst <= SstMin - SstFalloff || sst >= SstMax + SstFalloff
  {
    if sst < SstMin {
      assert (SstMin - sst) / SstFalloff > 0.0;
      assert (SstMin - sst) / SstFalloff >= 1.0 <==> sst <= SstMin - SstFalloff;
    } else if sst > SstMax {
      assert (sst - SstMax) / SstFalloff > 0.0;
      assert (sst - SstMax) / SstFalloff >= 1.0 <==> sst >= SstMax + SstFalloff;
    }
  }

  /** A wave height of twice the threshold (0.6 m) or more, or a wind speed of
      twice the threshold (9 m/s) or more, forces the score to 0. */
  lemma RoughSeaOrWindZeroesScore(wave: real, wind: real, sst: Option<real>, lightOk: bool)
    requires wave >= 2.0 * WaveHeightMax || wind >= 2.0 * WindSpeedMax
    ensures CalculateScore(Some(wave), Some(wind), sst, lightOk) == 0.0
  {
    if lightOk && sst.Some? {
      if wave >= 2.0 * WaveHeightMax {
        assert WaveScore(wave) == 0.0;
      } else {
        assert WindScore(wind) == 0.0;
      }
    }
  }

  /** The score is positive exactly when there is daylight, every metric is
      present and each one is short of the value that zeroes its sub-score. */
  lemma PositiveScoreIff(wave: Option<real>, wind: Option<real>, sst: Option<real>, lightOk: bool)
    ensures CalculateScore(wave, wind, sst, lightOk) > 0.0 <==>
      lightOk && wave.Some? && wind.Some? && sst.Some? &&
      wave.value < 2.0 * WaveHeightMax && wind.value < 2.0 * WindSpeedMax &&
      SstMin - SstFalloff < sst.value < SstMax + SstFalloff
  {
    if lightOk && wave.Some? && wind.Some? && sst.Some? {
      var a, b, c := WaveScore(wave.value), WindScore(wind.value), SstScore(sst.value);
      SubScoresInUnit(wave.value, wind.value, sst.value);
      assert a > 0.0 <==> wave.value < 2.0 * WaveHeightMax by {
        assert wave.value / (WaveHeightMax * 2.0) < 1.0 <==> wave.value < 2.0 * WaveHeightMax;
      }
      assert b > 0.0 <==> wind.value < 2.0 * WindSpeedMax by {
        assert wind.value / (WindSpeedMax * 2.0) < 1.0 <==> wind.value < 2.0 * WindSpeedMax;
      }
      assert c > 0.0 <==> SstMin - SstFalloff < sst.value < SstMax + SstFalloff by {
        SstScoreExtremes(sst.value);
      }
      if a > 0.0 && b > 0.0 && c > 0.0 {
        assert a * b > 0.0;
        assert a * b * c > 0.0;
      } else {
        assert a == 0.0 || b == 0.0 || c == 0.0;
        assert a * b * c == 0.0;
      }
    }
  }

  /** More wave never raises the score, other things equal. */
  lemma ScoreAntitoneInWave(w1: real, w2: real, wind: Option<real>, sst: Option<real>, lightOk: bool)
    requires w1 <= w2
    ensures CalculateScore(Some(w2), wind, sst, lightOk) <= CalculateScore(Some(w1), wind, sst, lightOk)
  {
    if lightOk && wind.Some? && sst.Some? {
      var b, c := WindScore(wind.value), SstScore(sst.value);
      SubScoresInUnit(w1, wind.value, sst.value);
      SubScoresAntitone(w1, w2);
      ScoreIsProduct(w1, wind.value, sst.value);
      ScoreIsProduct(w2, wind.value, sst.value);
      ProductMonotone(WaveScore(w2), WaveScore(w1), b, c,
        CalculateScore(Some(w2), wind, sst, lightOk), CalculateScore(Some(w1), wind, sst, lightOk));
    }
  }

  /** More wind never raises the score, other things equal. */
  lemma ScoreAntitoneInWind(wave: Option<real>, v1: real, v2: real, sst: Option<real>, lightOk: bool)
    requires v1 <= v2
    ensures CalculateScore(wave, Some(v2), sst, lightOk) <= CalculateScore(wave, Some(v1), sst, lightOk)
  {
    if lightOk && wave.Some? && sst.Some? {
      var a, c := WaveScore(wave.value), SstScore(sst.value);
      SubScoresInUnit(wave.value, v1, sst.value);
      SubScoresAntitone(v1, v2);
      ScoreIsProduct(wave.value, v1, sst.value);
      ScoreIsProduct(wave.value, v2, sst.value);
      ProductMonotoneMiddle(a, WindScore(v2), WindScore(v1), c,
        CalculateScore(wave, Some(v2), sst, lightOk), CalculateScore(wave, Some(v1), sst, lightOk));
    }
  }

  /** The wave and wind sub-scores fall as their metric rises. */
  lemma SubScoresAntitone(v1: real, v2: real)
    requires v1 <= v2
    ensures WaveScore(v2) <= WaveScore(v1) && WindScore(v2) <= WindScore(v1)
  {
    DivMonotone(v1, v2, WaveHeightMax * 2.0);
    DivMonotone(v1, v2, WindSpeedMax * 2.0);
  }

  lemma ScoreIsProduct(wave: real, wind: real, sst: real)
    ensures CalculateScore(Some(wave), Some(wind), Some(sst), true) == WaveScore(wave) * WindScore(wind) * SstScore(sst)
  {
  }

  lemma DivMonotone(x: real, y: real, k: real)
    requires x <= y && 0.0 < k
    ensures x / k <= y / k
  {
  }

  lemma MulMonotone(x: real, y: real, k: real)
    requires x <= y && 0.0 <= k
    ensures x * k <= y * k && k * x <= k * y
  {
  }

  /** Lowering the first factor of a product of non-negative factors never
      raises it. */
  lemma ProductMonotone(x: real, y: real, b: real, c: real, lo: real, hi: real)
    requires x <= y && 0.0 <= b && 0.0 <= c
    requires lo == x * b * c && hi == y * b * c
    ensures lo <= hi
  {
    MulMonotone(x, y, b);
    MulMonotone(x * b, y * b, c);
  }

  /** Lowering the middle factor of a product of non-negative factors never
      raises it. */
  lemma ProductMonotoneMiddle(a: real, x: real, y: real, c: real, lo: real, hi: real)
    requires x <= y && 0.0 <= a && 0.0 <= c
    requires lo == a * x * c && hi == a * y * c
    ensures lo <= hi
  {
    MulMonotone(x, y, a);
    MulMonotone(a * x, a * y, c);
  }

  /** Calm sea (0.2 m), light wind (3 m/s) and ideal water (24 C) in daylight
      score 4/9: each of the wave and wind sub-scores is 2/3. */
  lemma CalmDayScore()
    ensures CalculateScore(Some(0.2), Some(3.0), Some(24.0), true) == 4.0 / 9.0
  {
    assert WaveScore(0.2) == 2.0 / 3.0;
    assert WindScore(3.0) == 2.0 / 3.0;
  }

  // ---------------------------------------------------------------------------
  // Per-hour threshold flags
  // ---------------------------------------------------------------------------

  predicate WaveOk(wave: Option<real>) { wave.Some? && wave.value <= WaveHeightMax }

  predicate WindOk(wind: Option<real>) { wind.Some? && wind.value <= WindSpeedMax }

  predicate SstOk(sst: Option<real>) { sst.Some? && SstMin <= sst.value <= SstMax }

  predicate CurrentOk(current: Option<real>) { current.Some? && current.value <= CurrentVelocityMax }

  /** Within the thresholds, every sub-score is at least 1/2 (a negative
      metric only raises its sub-score), so an hour whose wave, wind and
      temperature flags all hold in daylight scores at least 1/4. */
  lemma FlagsBoundScore(wave: Option<real>, wind: Option<real>, sst: Option<real>)
    requires WaveOk(wave) && WindOk(wind) && SstOk(sst)
    ensures CalculateScore(wave, wind, sst, true) >= 0.25
  {
    var a, b := WaveScore(wave.value), WindScore(wind.value);
    assert a >= 0.5 by { assert wave.value / (WaveHeightMax * 2.0) <= 0.5; }
    assert b >= 0.5 by { assert wind.value / (WindSpeedMax * 2.0) <= 0.5; }
    MulMonotone(0.5, a, b);
    MulMonotone(0.5, b, 0.5);
    assert a * b >= 0.25;
    assert SstScore(sst.value) == 1.0;
    assert CalculateScore(wave, wind, sst, true) == a * b * 1.0;
  }

  // ---------------------------------------------------------------------------
  // High tides and the slack window
  // ---------------------------------------------------------------------------

  /** Index `i` of the sea-level series is a high tide: an interior point whose
      two neighbours and itself are present and which is strictly higher than both. */
  predicate IsHighTide(h: seq<Option<real>>, i: int) {
    1 <= i <= |h| - 2 &&
    h[i - 1].Some? && h[i].Some? && h[i + 1].Some? &&
    h[i].value > h[i - 1].value && h[i].value > h[i + 1].value
  }

  /** Two neighbouring indices are never both high tides. */
  lemma HighTidesNotAdjacent(h: seq<Option<real>>, i: int)
    requires IsHighTide(h, i)
    ensures !IsHighTide(h, i + 1) && !IsHighTide(h, i - 1)
  {
  }

  /** The high-tide detection loop of `fetch_forecast`. */
  method DetectHighTides(seaLevels: seq<Option<real>>) returns (indices: seq<nat>)
    ensures forall i :: i in indices <==> IsHighTide(seaLevels, i)
    ensures forall k :: 0 <= k < |indices| ==> 1 <= indices[k] <= |seaLevels| - 2
    ensures forall k :: 0 <= k < |indices| - 1 ==> indices[k] + 1 < indices[k + 1]
  {
    indices := [];
    var i := 1;
    while i < |seaLevels| - 1
      invariant 1 <= i
      invariant forall j :: j in indices <==> 1 <= j < i && IsHighTide(seaLevels, j)
      invariant forall k :: 0 <= k < |indices| ==> 1 <= indices[k] < i && indices[k] <= |seaLevels| - 2
      invariant forall k :: 0 <= k < |indices| - 1 ==> indices[k] + 1 < indices[k + 1]
    {
      var prev, curr, next := seaLevels[i - 1], seaLevels[i], seaLevels[i + 1];
      if prev.Some? && curr.Some? && next.Some? && curr.value > prev.value && curr.value > next.value {
        if |indices| > 0 {
          var last := indices[|indices| - 1];
          assert IsHighTide(seaLevels, last);
          assert last != i - 1 by {
            if last == i - 1 { HighTidesNotAdjacent(seaLevels, last); }
          }
        }
        indices := indices + [i];
      }
      i := i + 1;
    }
  }

  /** `any(abs(t - ht) <= slack_window for ht in high_tide_times)`. */
  predicate NearHighTide(t: int, highTideTimes: seq<int>) {
    exists j :: 0 <= j < |highTideTimes| && Abs(t - highTideTimes[j]) <= SlackWindowSeconds()
  }

  /** The slack-flag loop of `fetch_forecast`; the inner loop is the
      short-circuiting `any`. */
  method ComputeSlackFlags(times: seq<int>, highTideTimes: seq<int>) returns (flags: seq<bool>)
    ensures |flags| == |times|
    ensures forall k :: 0 <= k < |times| ==> (flags[k] <==> NearHighTide(times[k], highTideTimes))
  {
    flags := [];
    for k := 0 to |times|
      invariant |flags| == k
      invariant forall m :: 0 <= m < k ==> (flags[m] <==> NearHighTide(times[m], highTideTimes))
    {
      var near := false;
      var j := 0;
      while j < |highTideTimes| && !near
        invariant 0 <= j <= |highTideTimes|
        invariant near ==> NearHighTide(times[k], highTideTimes)
        invariant !near ==> forall m :: 0 <= m < j ==> Abs(times[k] - highTideTimes[m]) > SlackWindowSeconds()
      {
        near := Abs(times[k] - highTideTimes[j]) <= SlackWindowSeconds();
        j := j + 1;
      }
      flags := flags + [near];
    }
  }

  // ---------------------------------------------------------------------------
  // Daylight
  // ---------------------------------------------------------------------------

  datatype SolarTimes = SolarTimes(sunrise: int, sunset: int)

  /** `{day: {...} for i, day in enumerate(days)}`: a later entry for the same
      day replaces an earlier one. */
  function SolarMap(days: seq<int>, sunrises: seq<int>, sunsets: seq<int>): (m: map<int, SolarTimes>)
    requires |sunrises| >= |days| && |sunsets| >= |days|
    ensures m.Keys == set d | d in days
    decreases |days|
  {
    if days == [] then map[]
    else
      var n := |days| - 1;
      SolarMap(days[..n], sunrises, sunsets)[days[n] := SolarTimes(sunrises[n], sunsets[n])]
  }

  /** The entry of each day is the one of its last occurrence in the daily arrays. */
  lemma {:induction false} SolarMapLastWins(days: seq<int>, sunrises: seq<int>, sunsets: seq<int>, i: nat)
    requires |sunrises| >= |days| && |sunsets| >= |days|
    requires i < |days| && forall j :: i < j < |days| ==> days[j] != days[i]
    ensures SolarMap(days, sunrises, sunsets)[days[i]] == SolarTimes(sunrises[i], sunsets[i])
    decreases |days|
  {
    var n := |days| - 1;
    if i < n {
      SolarMapLastWins(days[..n], sunrises, sunsets, i);
    }
  }

  function DayOf(t: int): int { t / SecondsPerDay }

  datatype Light = Light(ok: bool, sunrise: Option<int>, sunset: Option<int>)

  /** The light check of one hour. */
  function LightAt(t: int, solar: map<int, SolarTimes>): (l: Light)
    ensures l.ok <==> DayOf(t) in solar && solar[DayOf(t)].sunrise <= t <= solar[DayOf(t)].sunset
    ensures l.sunrise.None? <==> DayOf(t) !in solar
    ensures l.sunset.None? <==> DayOf(t) !in solar
  {
    var day := DayOf(t);
    if day in solar then
      var s := solar[day];
      Light(s.sunrise <= t <= s.sunset, Some(s.sunrise), Some(s.sunset))
    else Light(false, None, None)
  }

  // ---------------------------------------------------------------------------
  // The hourly record and `fetch_forecast`
  // ---------------------------------------------------------------------------

  datatype Hour = Hour(
    time: int,
    ok: bool,
    score: real,
    waveHeight: Option<real>,
    windSpeed: Option<real>,
    seaSurfaceTemperature: Option<real>,
    seaLevelHeight: Option<real>,
    currentVelocity: Option<real>,
    waveOk: bool,
    windOk: bool,
    sstOk: bool,
    currentOk: bool,
    slackOk: bool,
    lightOk: bool,
    sunrise: Option<int>,
    sunset: Option<int>)

  /** The parsed marine response: the `time` array and the hourly series. A
      series the response omits is the empty sequence. */
  datatype MarineSeries = MarineSeries(
    times: seq<int>,
    waveHeight: seq<Option<real>>,
    seaSurfaceTemperature: seq<Option<real>>,
    seaLevel: seq<Option<real>>,
    currentVelocity: seq<Option<real>>)

  /** The parsed weather response: the hourly wind series and the daily arrays. */
  datatype WeatherSeries = WeatherSeries(
    windSpeed: seq<Option<real>>,
    days: seq<int>,
    sunrises: seq<int>,
    sunsets: seq<int>)

  /** Every high tide of the sea-level series has a time: the comprehension
      over the high-tide indices indexes the time array with each of them. */
  predicate TidesInRange(m: MarineSeries) {
    forall i :: 0 <= i < |m.seaLevel| && IsHighTide(m.seaLevel, i) ==> i < |m.times|
  }

  /** The index alignment `fetch_forecast` relies on: every series it indexes
      by hour is at least as long as the time array, every daily array is as
      long as the day list, and every high tide has a time. */
  predicate Aligned(m: MarineSeries, w: WeatherSeries) {
    |m.waveHeight| >= |m.times| && |m.seaSurfaceTemperature| >= |m.times| &&
    |w.windSpeed| >= |m.times| && TidesInRange(m) &&
    |w.sunrises| >= |w.days| && |w.sunsets| >= |w.days|
  }

  function Solar(w: WeatherSeries): map<int, SolarTimes>
    requires |w.sunrises| >= |w.days| && |w.sunsets| >= |w.days|
  {
    SolarMap(w.days, w.sunrises, w.sunsets)
  }

  /** `seq[i] if i < len(seq) else None`. */
  function At(s: seq<Option<real>>, i: nat): Option<real> {
    if i < |s| then s[i] else None
  }

  /** Hour `i` is in a slack window: some high tide lies within 3600 s of it. */
  ghost predicate SlackAt(m: MarineSeries, i: nat)
    requires TidesInRange(m) && i < |m.times|
  {
    exists j :: 0 <= j < |m.times| && IsHighTide(m.seaLevel, j) &&
      Abs(m.times[i] - m.times[j]) <= SlackWindowSeconds()
  }

  /** The record `fetch_forecast` appends for hour `i`, given its slack flag. */
  function HourAt(m: MarineSeries, w: WeatherSeries, i: nat, slackOk: bool): Hour
    requires Aligned(m, w) && i < |m.times|
  {
    var t := m.times[i];
    var wave, sst, wind := m.waveHeight[i], m.seaSurfaceTemperature[i], w.windSpeed[i];
    var current := At(m.currentVelocity, i);
    var light := LightAt(t, Solar(w));
    var score := CalculateScore(wave, wind, sst, light.ok);
    Hour(t, score > 0.5 && CurrentOk(current) && slackOk, score,
         wave, wind, sst, At(m.seaLevel, i), current,
         WaveOk(wave), WindOk(wind), SstOk(sst), CurrentOk(current), slackOk,
         light.ok, light.sunrise, light.sunset)
  }

  /** The times of the high tides found in the sea-level series. */
  predicate AreHighTideTimes(m: MarineSeries, highTides: seq<int>)
    requires TidesInRange(m)
  {
    (forall j :: 0 <= j < |m.times| && IsHighTide(m.seaLevel, j) ==> m.times[j] in highTides) &&
    (forall t :: t in highTides ==> exists j :: 0 <= j < |m.times| && IsHighTide(m.seaLevel, j) && t == m.times[j])
  }

  /** The list of high-tide times, one entry per high tide, in the order of
      the tides' indices: some strictly increasing list of exactly the
      high-tide indices gives the times entry by entry. */
  ghost predicate ListsHighTides(m: MarineSeries, highTides: seq<int>) {
    exists idx: seq<nat> ::
      && |idx| == |highTides|
      && (forall k :: 0 <= k < |idx| - 1 ==> idx[k] < idx[k + 1])
      && (forall i :: i in idx <==> IsHighTide(m.seaLevel, i))
      && (forall q :: 0 <= q < |idx| ==> idx[q] < |m.times| && highTides[q] == m.times[idx[q]])
  }

  /** `[times_utc[i] for i in high_tide_indices]`, after the detection loop. */
  method FindHighTideTimes(m: MarineSeries) returns (highTides: seq<int>)
    requires TidesInRange(m)
    ensures ListsHighTides(m, highTides)
    ensures AreHighTideTimes(m, highTides)
  {
    var indices := DetectHighTides(m.seaLevel);
    highTides := [];
    for k := 0 to |indices|
      invariant |highTides| == k
      invariant forall q :: 0 <= q < k ==> indices[q] < |m.times| && highTides[q] == m.times[indices[q]]
    {
      assert indices[k] in indices;
      highTides := highTides + [m.times[indices[k]]];
    }
    assert forall k :: 0 <= k < |indices| - 1 ==> indices[k] < indices[k + 1];
    forall j | 0 <= j < |m.times| && IsHighTide(m.seaLevel, j)
      ensures m.times[j] in highTides
    {
      var q :| 0 <= q < |indices| && indices[q] == j;
      assert highTides[q] == m.times[j];
    }
    forall t | t in highTides
      ensures exists j :: 0 <= j < |m.times| && IsHighTide(m.seaLevel, j) && t == m.times[j]
    {
      var q :| 0 <= q < |highTides| && highTides[q] == t;
      assert indices[q] in indices;
    }
  }

  /** The slack mask computed from the high-tide times marks exactly the hours
      in a slack window. */
  lemma SlackFlagIsSlackAt(m: MarineSeries, highTides: seq<int>, i: nat)
    requires TidesInRange(m) && i < |m.times|
    requires AreHighTideTimes(m, highTides)
    ensures NearHighTide(m.times[i], highTides) <==> SlackAt(m, i)
  {
    var t := m.times[i];
    if NearHighTide(t, highTides) {
      var q :| 0 <= q < |highTides| && Abs(t - highTides[q]) <= SlackWindowSeconds();
      assert highTides[q] in highTides;
    }
    if SlackAt(m, i) {
      var j :| 0 <= j < |m.times| && IsHighTide(m.seaLevel, j) && Abs(t - m.times[j]) <= SlackWindowSeconds();
      assert m.times[j] in highTides;
      var q :| 0 <= q < |highTides| && highTides[q] == m.times[j];
    }
  }

  /** `fetch_forecast` after both responses have been parsed: one record per
      marine timestamp, in order, and the times of the high tides. */
  method FetchForecast(m: MarineSeries, w: WeatherSeries) returns (hours: seq<Hour>, highTides: seq<int>)
    requires Aligned(m, w)
    ensures |hours| == |m.times|
    ensures forall i :: 0 <= i < |hours| ==> hours[i] == HourAt(m, w, i, SlackAt(m, i))
    ensures ListsHighTides(m, highTides)
    ensures AreHighTideTimes(m, highTides)
  {
    highTides := FindHighTideTimes(m);
    hours := BuildHours(m, w, highTides);
  }

  /** The slack mask and the per-hour loop of `fetch_forecast`, given the
      high-tide times. */
  method BuildHours(m: MarineSeries, w: WeatherSeries, highTides: seq<int>) returns (hours: seq<Hour>)
    requires Aligned(m, w) && AreHighTideTimes(m, highTides)
    ensures |hours| == |m.times|
    ensures forall i :: 0 <= i < |hours| ==> hours[i] == HourAt(m, w, i, SlackAt(m, i))
  {
    var slack := ComputeSlackFlags(m.times, highTides);
    var solar := Solar(w);
    hours := [];
    for i := 0 to |m.times|
      invariant |hours| == i
      invariant forall k :: 0 <= k < i ==> hours[k] == HourAt(m, w, k, SlackAt(m, k))
    {
      SlackFlagIsSlackAt(m, highTides, i);
      var hour := BuildHour(m, w, solar, i, slack[i]);
      hours := hours + [hour];
    }
  }

  /** The body of the per-hour loop of `fetch_forecast`: read the hour's
      metrics, set the threshold flags, look up daylight, score the hour and
      decide `ok`. */
  method BuildHour(m: MarineSeries, w: WeatherSeries, solar: map<int, SolarTimes>, i: nat, slackOk: bool)
    returns (hour: Hour)
    requires Aligned(m, w) && i < |m.times| && solar == Solar(w)
    ensures hour == HourAt(m, w, i, slackOk)
  {
    var t := m.times[i];
    var wave := m.waveHeight[i];
    var sst := m.seaSurfaceTemperature[i];
    var wind := w.windSpeed[i];
    var seaLevel := if i < |m.seaLevel| then m.seaLevel[i] else None;
    var current := if i < |m.currentVelocity| then m.currentVelocity[i] else None;

    var waveOk := wave.Some? && wave.value <= WaveHeightMax;
    var windOk := wind.Some? && wind.value <= WindSpeedMax;
    var sstOk := sst.Some? && SstMin <= sst.value <= SstMax;
    var currentOk := current.Some? && current.value <= CurrentVelocityMax;

    var day := DayOf(t);
    var lightOk := false;
    var sunrise, sunset := None, None;
    if day in solar {
      sunrise, sunset := Some(solar[day].sunrise), Some(solar[day].sunset);
      lightOk := solar[day].sunrise <= t <= solar[day].sunset;
    }

    var score := CalculateScore(wave, wind, sst, lightOk);
    var ok := score > 0.5 && currentOk && slackOk;
    hour := Hour(t, ok, score, wave, wind, sst, seaLevel, current,
                 waveOk, windOk, sstOk, currentOk, slackOk, lightOk, sunrise, sunset);
  }

  // ---------------------------------------------------------------------------
  // Properties of the hourly record
  // ---------------------------------------------------------------------------

  /** An ok hour has daylight, all three metrics present and short of the
      values that zero the score, a current within its threshold and a high
      tide within the slack window. */
  lemma OkHourIsSafe(m: MarineSeries, w: WeatherSeries, i: nat)
    requires Aligned(m, w) && i < |m.times|
    ensures var h := HourAt(m, w, i, SlackAt(m, i));
      h.ok ==>
        h.lightOk && h.currentOk && h.currentVelocity.Some? && h.currentVelocity.value <= CurrentVelocityMax &&
        h.waveHeight.Some? && h.waveHeight.value < 2.0 * WaveHeightMax &&
        h.windSpeed.Some? && h.windSpeed.value < 2.0 * WindSpeedMax &&
        SlackAt(m, i)
  {
    var h := HourAt(m, w, i, SlackAt(m, i));
    PositiveScoreIff(h.waveHeight, h.windSpeed, h.seaSurfaceTemperature, h.lightOk);
  }

  /** The ok rule of one hour, stated on the inputs: a score above 1/2, a
      current present and within its threshold, and a slack window. */
  lemma OkIff(m: MarineSeries, w: WeatherSeries, i: nat)
    requires Aligned(m, w) && i < |m.times|
    ensures HourAt(m, w, i, SlackAt(m, i)).ok <==>
      CalculateScore(m.waveHeight[i], w.windSpeed[i], m.seaSurfaceTemperature[i], LightAt(m.times[i], Solar(w)).ok) > 0.5 &&
      i < |m.currentVelocity| && m.currentVelocity[i].Some? && m.currentVelocity[i].value <= CurrentVelocityMax &&
      SlackAt(m, i)
  {
  }

  /** Every high-tide hour lies in its own slack window. */
  lemma HighTideHourIsSlack(m: MarineSeries, i: nat)
    requires TidesInRange(m) && i < |m.times|
    requires IsHighTide(m.seaLevel, i)
    ensures SlackAt(m, i)
  {
    assert Abs(m.times[i] - m.times[i]) == 0;
  }

  /** Without any high tide no hour is slack, and so no hour is ok. */
  lemma NoHighTideNoSlack(m: MarineSeries, w: WeatherSeries, i: nat)
    requires Aligned(m, w) && i < |m.times|
    requires forall j :: !IsHighTide(m.seaLevel, j)
    ensures !SlackAt(m, i) && !HourAt(m, w, i, SlackAt(m, i)).ok
  {
  }

  /** A series of fewer than three sea levels has no high tide, so no hour is slack. */
  lemma ShortSeriesNoSlack(m: MarineSeries, i: nat)
    requires |m.seaLevel| < 3 && i < |m.times|
    ensures !SlackAt(m, i)
  {
  }

  /** Sea level and current are None past the end of their arrays. */
  lemma MissingTailIsNone(m: MarineSeries, w: WeatherSeries, i: nat)
    requires Aligned(m, w) && i < |m.times|
    ensures i >= |m.seaLevel| ==> HourAt(m, w, i, SlackAt(m, i)).seaLevelHeight.None?
    ensures i >= |m.currentVelocity| ==> HourAt(m, w, i, SlackAt(m, i)).currentVelocity.None? &&
                                         !HourAt(m, w, i, SlackAt(m, i)).ok
  {
  }

  /** A peak at an interior point of an otherwise rising-then-falling series
      is the one and only high tide. */
  lemma {:induction false} SinglePeak(h: seq<Option<real>>, p: int)
    requires 1 <= p <= |h| - 2
    requires forall i :: 0 <= i < |h| ==> h[i].Some?
    requires forall i :: 0 <= i < p ==> h[i].value < h[i + 1].value
    requires forall i :: p <= i < |h| - 1 ==> h[i].value > h[i + 1].value
    ensures forall i :: IsHighTide(h, i) <==> i == p
  {
  }

  /** A missing value next to a candidate peak keeps it from being a high tide. */
  lemma AbsentNeighbourNoPeak(h: seq<Option<real>>, i: int)
    requires 0 <= i - 1 && i + 1 < |h|
    requires h[i - 1].None? || h[i + 1].None? || h[i].None?
    ensures !IsHighTide(h, i)
  {
  }
}
