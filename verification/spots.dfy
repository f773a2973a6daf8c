/** The OSM-derived spot and the import-queue tile of
    `conditions/models_spots.py`: the tag-based confidence score and the
    retry state of a tile. Database saves are not modelled; a method's new
    field values are what `save` would persist. */
module Spots {
  import opened Wrappers
  import opened Tags
  import opened Text

  // ---------------------------------------------------------------------------
  // Spot confidence (`OSMSpot.update_confidence`)
  // ---------------------------------------------------------------------------

  /** `"marine" in str(tags).lower()`: some key or some value mentions
      "marine" in any letter case. */
  predicate MentionsMarine(t: TagMap) {
    exists k :: k in t && (ContainsIgnoringCase(k, "marine") || ContainsIgnoringCase(t[k], "marine"))
  }

  predicate IsDiveSpot(t: TagMap) {
    Is(t, "sport", "scuba_diving") && Is(t, "scuba_diving:divespot", "yes")
  }

  predicate IsMarineArea(t: TagMap) {
    (Is(t, "boundary", "national_park") || Is(t, "boundary", "protected_area")) && MentionsMarine(t)
  }

  predicate IsWaterLeisure(t: TagMap) {
    Is(t, "leisure", "beach_resort") || Is(t, "leisure", "marina")
  }

  predicate IsBuiltUp(t: TagMap) {
    Truthy(t, "highway") || Truthy(t, "building")
  }

  /** The tag score before clamping: the sum of the bonuses that apply, less
      0.5 for a highway or a building. */
  function TagScore(t: TagMap): real {
    (if IsDiveSpot(t) then 0.6 else 0.0)
    + (if Is(t, "natural", "reef") then 0.4 else 0.0)
    + (if Is(t, "natural", "beach") then 0.2 else 0.0)
    + (if Is(t, "amenity", "dive_centre") then 0.3 else 0.0)
    + (if Is(t, "shop", "scuba_diving") then 0.2 else 0.0)
    + (if IsMarineArea(t) then 0.3 else 0.0)
    + (if IsWaterLeisure(t) then 0.3 else 0.0)
    - (if IsBuiltUp(t) then 0.5 else 0.0)
  }

  /** `max(0.0, min(1.0, x))`. */
  function Clamp01(x: real): (r: real)
    ensures 0.0 <= r <= 1.0
    ensures 0.0 <= x <= 1.0 ==> r == x
  {
    if x > 1.0 then 1.0 else if x < 0.0 then 0.0 else x
  }

  /** The confidence `update_confidence` stores for a tag set. */
  function Confidence(t: TagMap): (c: real)
    ensures 0.0 <= c <= 1.0
    ensures t == map[] ==> c == 0.0
  {
    Clamp01(TagScore(t))
  }

  /** A highway or building tag never raises the confidence: it costs 0.5,
      more than the marine bonus its own text could add. */
  lemma BuiltUpNeverRaises(t: TagMap, k: string, v: string)
    requires k == "highway" || k == "building"
    requires !IsBuiltUp(t) && v != ""
    ensures Confidence(t[k := v]) <= Confidence(t)
  {
    var t' := t[k := v];
    assert forall key, val :: key != k ==> (Is(t', key, val) <==> Is(t, key, val));
    assert IsBuiltUp(t');
    assert TagScore(t') <= TagScore(t) - 0.2;
  }

  /** The dive-spot bonus needs both tags: either one alone scores nothing. */
  lemma DiveSpotNeedsBothTags()
    ensures Confidence(map["sport" := "scuba_diving"]) == 0.0
    ensures Confidence(map["scuba_diving:divespot" := "yes"]) == 0.0
    ensures Confidence(map["sport" := "scuba_diving", "scuba_diving:divespot" := "yes"]) == 0.6
  {
  }

  /** A reef scores 0.4 and a beach 0.2; one `natural` tag cannot be both, so
      the two bonuses never add up. */
  lemma NaturalBonuses(t: TagMap)
    ensures Confidence(map["natural" := "reef"]) == 0.4
    ensures Confidence(map["natural" := "beach"]) == 0.2
    ensures !(Is(t, "natural", "reef") && Is(t, "natural", "beach"))
  {
  }

  /** A protected area earns the marine bonus when "marine" appears in a tag
      value or in a tag key alike. */
  lemma MarineBonusFromValue()
    ensures Confidence(map["boundary" := "protected_area", "name" := "Marine Reserve"]) == 0.3
  {
    var t := map["boundary" := "protected_area", "name" := "Marine Reserve"];
    MarineInText("Marine Reserve");
    assert "name" in t && ContainsIgnoringCase(t["name"], "marine");
    assert TagScore(t) == 0.3;
  }

  lemma MarineBonusFromKey()
    ensures Confidence(map["boundary" := "national_park", "marine" := "yes"]) == 0.3
  {
    var t := map["boundary" := "national_park", "marine" := "yes"];
    MarineInText("marine");
    assert "marine" in t && ContainsIgnoringCase("marine", "marine");
    assert TagScore(t) == 0.3;
  }

  lemma MarineInText(s: string)
    requires |s| >= 6 && Lower(s[..6]) == "marine"
    ensures ContainsIgnoringCase(s, "marine")
  {
    assert Lower(s)[0..6] == Lower(s[..6]);
    ContainsAt(Lower(s), "marine", 0);
  }

  /** A text without the letter m never mentions "marine". */
  lemma NoMarineIn(s: string)
    requires 'm' !in s && 'M' !in s
    ensures !ContainsIgnoringCase(s, "marine")
  {
    assert 'm' !in Lower(s);
    NotContainsWithoutFirst(Lower(s), "marine");
  }

  /** On a tag set that is already built up, a highway tag can raise the
      confidence: its text can earn the marine bonus while the built-up
      penalty is already counted. A reef in a national park with a building
      and no mention of "marine" (such as `boundary=national_park`,
      `natural=reef`, `building=yes`) has confidence 0, and adding
      `highway="marine parade"` raises it to 0.2. */
  lemma BuiltUpCanRaise(t: TagMap)
    requires Is(t, "boundary", "national_park") && Is(t, "natural", "reef") && Truthy(t, "building")
    requires "highway" !in t && !MentionsMarine(t)
    requires "sport" !in t && "leisure" !in t && "amenity" !in t && "shop" !in t
    ensures IsBuiltUp(t) && Confidence(t) == 0.0
    ensures Confidence(t["highway" := "marine parade"]) == 0.2
  {
    BuiltUpReefScore(t);
    MarineParadeScore(t["highway" := "marine parade"]);
  }

  /** A built-up reef without any other bonus scores 0.4 - 0.5. */
  lemma BuiltUpReefScore(t: TagMap)
    requires Is(t, "natural", "reef") && Truthy(t, "building") && !MentionsMarine(t)
    requires "sport" !in t && "leisure" !in t && "amenity" !in t && "shop" !in t
    ensures IsBuiltUp(t) && TagScore(t) == 0.4 - 0.5
  {
    assert !IsMarineArea(t);
  }

  /** A reef in a national park on a highway named "marine parade" scores
      0.4 + 0.3 - 0.5. */
  lemma MarineParadeScore(t: TagMap)
    requires Is(t, "boundary", "national_park") && Is(t, "natural", "reef") && Is(t, "highway", "marine parade")
    requires "sport" !in t && "leisure" !in t && "amenity" !in t && "shop" !in t
    ensures IsBuiltUp(t) && TagScore(t) == 0.4 + 0.3 - 0.5
  {
    MarineInText("marine parade");
    assert ContainsIgnoringCase(t["highway"], "marine");
    assert IsMarineArea(t);
  }

  /** Without a national-park or protected-area boundary the mention of
      "marine" earns nothing. */
  lemma MarineBonusNeedsBoundary(t: TagMap)
    requires !Is(t, "boundary", "national_park") && !Is(t, "boundary", "protected_area")
    ensures !IsMarineArea(t)
  {
  }

  /** The spot record; only the fields `update_confidence` reads and writes
      and the identifying ones are kept. */
  class OSMSpot {
    var osmType: string
    var osmId: int
    var name: string
    var tags: TagMap
    var latitude: real
    var longitude: real
    var confidence: real
    var source: string

    constructor (osmType: string, osmId: int, name: string, tags: TagMap, latitude: real, longitude: real)
      ensures this.osmType == osmType && this.osmId == osmId && this.name == name && this.tags == tags
      ensures this.latitude == latitude && this.longitude == longitude
      ensures confidence == 0.5 && source == "osm"
    {
      this.osmType := osmType;
      this.osmId := osmId;
      this.name := name;
      this.tags := tags;
      this.latitude := latitude;
      this.longitude := longitude;
      confidence := 0.5;
      source := "osm";
    }

    /** `update_confidence`: accumulate the tag score and store it clamped to [0, 1]. */
    method UpdateConfidence()
      modifies this`confidence
      ensures confidence == Confidence(tags)
      ensures 0.0 <= confidence <= 1.0
    {
      var score := 0.0;
      var t := tags;
      // After each rule, `score` is the sum of the bonuses so far, as in `TagScore`.
      if Is(t, "sport", "scuba_diving") && Is(t, "scuba_diving:divespot", "yes") {
        score := score + 0.6;
      }
      assert score == (if IsDiveSpot(t) then 0.6 else 0.0);
      if Is(t, "natural", "reef") {
        score := score + 0.4;
      }
      assert score == (if IsDiveSpot(t) then 0.6 else 0.0)
        + (if Is(t, "natural", "reef") then 0.4 else 0.0);
      if Is(t, "natural", "beach") {
        score := score + 0.2;
      }
      assert score == (if IsDiveSpot(t) then 0.6 else 0.0)
        + (if Is(t, "natural", "reef") then 0.4 else 0.0)
        + (if Is(t, "natural", "beach") then 0.2 else 0.0);
      if Is(t, "amenity", "dive_centre") {
        score := score + 0.3;
      }
      assert score == (if IsDiveSpot(t) then 0.6 else 0.0)
        + (if Is(t, "natural", "reef") then 0.4 else 0.0)
        + (if Is(t, "natural", "beach") then 0.2 else 0.0)
        + (if Is(t, "amenity", "dive_centre") then 0.3 else 0.0);
      if Is(t, "shop", "scuba_diving") {
        score := score + 0.2;
      }
      assert score == (if IsDiveSpot(t) then 0.6 else 0.0)
        + (if Is(t, "natural", "reef") then 0.4 else 0.0)
        + (if Is(t, "natural", "beach") then 0.2 else 0.0)
        + (if Is(t, "amenity", "dive_centre") then 0.3 else 0.0)
        + (if Is(t, "shop", "scuba_diving") then 0.2 else 0.0);
      if Is(t, "boundary", "national_park") || Is(t, "boundary", "protected_area") {
        if MentionsMarine(t) {
          score := score + 0.3;
        }
      }
      assert score == (if IsDiveSpot(t) then 0.6 else 0.0)
        + (if Is(t, "natural", "reef") then 0.4 else 0.0)
        + (if Is(t, "natural", "beach") then 0.2 else 0.0)
        + (if Is(t, "amenity", "dive_centre") then 0.3 else 0.0)
        + (if Is(t, "shop", "scuba_diving") then 0.2 else 0.0)
        + (if IsMarineArea(t) then 0.3 else 0.0);
      if Is(t, "leisure", "beach_resort") || Is(t, "leisure", "marina") {
        score := score + 0.3;
      }
      assert score == (if IsDiveSpot(t) then 0.6 else 0.0)
        + (if Is(t, "natural", "reef") then 0.4 else 0.0)
        + (if Is(t, "natural", "beach") then 0.2 else 0.0)
        + (if Is(t, "amenity", "dive_centre") then 0.3 else 0.0)
        + (if Is(t, "shop", "scuba_diving") then 0.2 else 0.0)
        + (if IsMarineArea(t) then 0.3 else 0.0)
        + (if IsWaterLeisure(t) then 0.3 else 0.0);
      if Truthy(t, "highway") || Truthy(t, "building") {
        score := score - 0.5;
      }
      assert score == TagScore(t);
      confidence := Clamp01(score);
    }
  }

  // ---------------------------------------------------------------------------
  // Import tiles (`ImportTile.can_retry`, `ImportTile.schedule_retry`)
  // ---------------------------------------------------------------------------

  datatype TileStatus = Pending | Running | Done | Failed | Skipped

  const MaxBackoffSeconds: int := 3600
  const MaxJitterSeconds: int := 60

  function Pow2(n: nat): (p: nat)
    ensures p >= 1
  {
    if n == 0 then 1 else 2 * Pow2(n - 1)
  }

  function Min(a: int, b: int): int { if a <= b then a else b }

  /** `min(3600, 2**retries + jitter)`, the default backoff. */
  function BackoffDelay(retries: nat, jitter: int): (d: int)
    requires 0 <= jitter <= MaxJitterSeconds
    ensures Min(MaxBackoffSeconds, Pow2(retries)) <= d <= MaxBackoffSeconds
    ensures d >= 1
  {
    Min(MaxBackoffSeconds, Pow2(retries) + jitter)
  }

  /** Once 2^retries reaches the cap the backoff no longer grows: it is 3600
      whatever the jitter. */
  lemma {:induction false} BackoffSaturates(retries: nat, jitter: int)
    requires 0 <= jitter <= MaxJitterSeconds && retries >= 12
    ensures BackoffDelay(retries, jitter) == MaxBackoffSeconds
  {
    Pow2Grows(12, retries);
  }

  lemma {:induction false} Pow2Grows(m: nat, n: nat)
    requires m <= n
    ensures Pow2(m) <= Pow2(n)
    decreases n
  {
    if m < n {
      Pow2Grows(m, n - 1);
    }
  }

  /** The delay `schedule_retry` waits: the given one, or the default backoff. */
  function RetryDelay(retries: nat, delaySeconds: Option<int>, jitter: int): int
    requires delaySeconds.None? ==> 0 <= jitter <= MaxJitterSeconds
  {
    if delaySeconds.Some? then delaySeconds.value else BackoffDelay(retries, jitter)
  }

  /** An import tile. The random jitter of the backoff and the clock are
      parameters of `ScheduleRetry`. */
  class ImportTile {
    var z: int
    var x: int
    var y: int
    var status: TileStatus
    var retries: nat
    var maxRetries: int
    var nextTryAt: Option<int>
    var spotsImported: nat
    var createdAt: int

    constructor (z: int, x: int, y: int, createdAt: int)
      ensures this.z == z && this.x == x && this.y == y && this.createdAt == createdAt
      ensures status == Pending && retries == 0 && maxRetries == 5
      ensures nextTryAt == None && spotsImported == 0
    {
      this.z, this.x, this.y := z, x, y;
      this.createdAt := createdAt;
      status := Pending;
      retries := 0;
      maxRetries := 5;
      nextTryAt := None;
      spotsImported := 0;
    }

    /** `can_retry`. */
    function CanRetry(): (r: bool)
      reads this
      ensures r <==> retries < maxRetries && (status == Pending || status == Failed)
    {
      retries < maxRetries && status in {Pending, Failed}
    }

    /** `schedule_retry`: the next attempt is `delay` seconds from `now`, and
        the retry counter grows by one. A retry never makes a tile
        retryable: afterwards it can retry exactly when it could before and
        had at least two attempts left, so a pending or failed tile with `r`
        retries stays retryable for `max_retries - r - 1` further calls. */
    method ScheduleRetry(now: int, delaySeconds: Option<int>, jitter: int)
      requires delaySeconds.None? ==> 0 <= jitter <= MaxJitterSeconds
      modifies this`nextTryAt, this`retries
      ensures retries == old(retries) + 1
      ensures nextTryAt == Some(now + RetryDelay(old(retries), delaySeconds, jitter))
      ensures delaySeconds.None? ==> now + 1 <= nextTryAt.value <= now + MaxBackoffSeconds
      ensures CanRetry() <==> old(CanRetry()) && old(retries) + 1 < maxRetries
    {
      var delay: int;
      if delaySeconds.None? {
        delay := Min(3600, Pow2(retries) + jitter);
      } else {
        delay := delaySeconds.value;
      }
      nextTryAt := Some(now + delay);
      retries := retries + 1;
    }
  }
}
