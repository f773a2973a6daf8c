# Snorkel forecast: a Dafny model of the scoring and import core

This project models the core of the snorkel-forecast web application in
Dafny and proves properties of the model. The modelled parts are:

- the hourly **snorkel assessment** (`conditions/snorkel.py`): the threshold
  policy, the conjunctive 0–1 score, high-tide detection on the sea-level
  series, the ±60-minute slack window, daylight from the daily sunrise and
  sunset, and the per-hour record with its `ok` flag;
- the **rating tiers** that the scoring tests pin down
  (`conditions/tests/test_scoring.py`), including the cap to "fair" when the
  slack flag is false;
- the **OSM spot** and the **import tile** (`conditions/models_spots.py`):
  the tag-based confidence, a tile's retry eligibility and its exponential
  backoff with jitter;
- the **tile importer** (`conditions/management/commands/import_osm_tiles.py`):
  - creating the tile queue with its bounding-box filter;
  - picking the next tile (pending before retryable-failed);
  - processing a tile over three rotating Overpass endpoints;
  - counting spots, the relevance filter and coordinate extraction;
  - the batch loop that marks each tile done or failed, specified by a
    pure run of the batch (`RunBatch`) over the tiles' fields;
- the **Overpass search helpers** (`conditions/osm.py`): the tag table and the
  query clauses built from it, turning an element into a location dictionary
  (coordinates, type, name and address fallbacks), processing a whole
  response, and create-or-update of a stored location;
- the **forecast history** (`conditions/history.py`): one row per forecast
  hour, stored with insert-ignoring-conflicts under the unique key
  (country slug, city slug, time) that `conditions/models.py` declares;
- the **home page summary** (`conditions/views.py`): the hours from now on,
  the ok count, the rounded percentage and the earliest and latest ok hour.

Files and modules:

| file | module | content |
|---|---|---|
| `wrappers.dfy` | `Wrappers` | `Option` and `Result` |
| `text.dfy` | `Text` | lower-casing, title-casing and substring search on ASCII text |
| `tags.dfy` | `Tags` | looking up OSM tag maps, and Python's `a or b or c` fallback over tag keys |
| `snorkel.dfy` | `Snorkel` | score, tides, slack, daylight, `FetchForecast` |
| `rating.dfy` | `Rating` | rating tiers |
| `spots.dfy` | `Spots` | `OSMSpot` confidence, `ImportTile` retry state |
| `osm.dfy` | `Osm` | Overpass elements, location dictionaries, stored locations, query clauses |
| `tiles.dfy` | `TileImport` | the tile import command |
| `history.dfy` | `History` | forecast history rows and the keyed table |
| `summary.dfy` | `Views` | the `home` summary |

Time is modelled as whole seconds since the epoch (UTC). A calendar day is
`t / 86400`. Floating-point numbers are exact reals.

Behaviours of the code worth knowing, each stated by a member of the model:

- **`ok` does not come from the rating.** The rating tiers that
  `conditions/tests/test_scoring.py` pins down (excellent, good, fair,
  poor) are never computed by `fetch_forecast`: it sets `ok` to
  `score > 0.5 and current_ok and slack_ok` (`conditions/snorkel.py:142`).
  The model states that rule (`Snorkel.OkIff`) and models
  `Rating.RatingFromScore` separately, as the tests define it.
- **A calm day scores only 4/9.** Wave 0.2 m, wind 3 m/s and 24 °C in
  daylight are inside every threshold, yet the score divides each metric by
  twice its threshold, so that hour scores (2/3)·(2/3)·1 = 4/9, below the
  0.5 that `ok` needs (`Snorkel.CalmDayScore`).
- **History rows from the forecast are always "unknown".** Forecast hours
  have no `rating` key, so every history row saved from them is rated
  "unknown" (`History.ForecastRowsAreUnrated`).
- **Tile selection ignores `max_retries`.** `get_next_tile` hard-codes
  `retries < 5`. It ignores each tile's `max_retries` and the command's
  `--max-retries` option (`TileImport.SelectionIgnoresMaxRetries`).
- **Relevance and confidence can disagree.** The relevance filter looks for
  "marine" only in tag values. The confidence score looks for it in the
  whole tag text, keys included. A lone `scuba_diving:divespot=yes` is
  relevant but scores 0 (`TileImport.RelevanceAndConfidenceDiffer`).
- **The two importers read element types differently.** The tile importer
  tests only the first letter of the element type, `'n'` for a node
  (`TileImport.TypeLetterOnly`). The search helpers compare the whole type
  with `"node"`.

## Model

| member | source | states |
|---|---|---|
| Snorkel.CalculateScore | conditions/snorkel.py:37-56 | the score is 0 without daylight or when any of wave, wind or temperature is missing; for non-negative wave and wind it lies in [0, 1] |
| Snorkel.SubScoresInUnit | conditions/snorkel.py:43-53 | every sub-score is non-negative, the temperature one is at most 1, and for non-negative wave and wind the product lies in [0, 1] |
| Snorkel.SstScoreByDistance | conditions/snorkel.py:46-53 | the temperature sub-score falls off linearly by 1/5 per degree of distance from the ideal range, on both sides |
| Snorkel.SstScoreExtremes | conditions/snorkel.py:48-53 | the temperature sub-score is 1 exactly inside [22, 29] and 0 exactly at 5 or more degrees outside it |
| Snorkel.RoughSeaOrWindZeroesScore | conditions/snorkel.py:43-44 | waves of at least 0.6 m or wind of at least 9 m/s give score 0 |
| Snorkel.PositiveScoreIff | conditions/snorkel.py:39-56 | the score is positive exactly when there is daylight, all three metrics are present, wave and wind are below twice their thresholds and the temperature is within 5 degrees of the range |
| Snorkel.ScoreAntitoneInWave | conditions/snorkel.py:43 | higher waves never raise the score |
| Snorkel.ScoreAntitoneInWind | conditions/snorkel.py:44 | stronger wind never raises the score |
| Snorkel.SubScoresAntitone | conditions/snorkel.py:43-44 | the wave and wind sub-scores never rise as their metric rises |
| Snorkel.CalmDayScore | conditions/snorkel.py:43-56 | 0.2 m waves, 3 m/s wind and 24 °C in daylight score exactly 4/9 |
| Snorkel.FlagsBoundScore | conditions/snorkel.py:127-129 | an hour whose wave, wind and temperature flags all hold scores at least 1/4 in daylight, for every value of the metrics (a negative one only raises its sub-score) |
| Snorkel.HighTidesNotAdjacent | conditions/snorkel.py:107-110 | the neighbours of a high tide are not high tides |
| Snorkel.DetectHighTides | conditions/snorkel.py:106-110 | the returned indices are exactly the interior points that are strictly higher than both present neighbours; they are strictly increasing and never adjacent |
| Snorkel.ComputeSlackFlags | conditions/snorkel.py:113-117 | one flag per hour, set exactly when some high tide lies within 3600 s either way |
| Snorkel.SolarMap | conditions/snorkel.py:98 | the daylight map has exactly the listed days as keys |
| Snorkel.SolarMapLastWins | conditions/snorkel.py:98 | a day listed twice keeps the sunrise and sunset of its last occurrence |
| Snorkel.LightAt | conditions/snorkel.py:133-139 | daylight holds exactly when the hour's day has an entry and sunrise ≤ t ≤ sunset; sunrise and sunset are absent exactly when the day has no entry |
| Snorkel.FindHighTideTimes | conditions/snorkel.py:106-111 | the result lists one time per high tide, in increasing index order: a strictly increasing list of exactly the high-tide indices gives the times entry by entry; so it holds the time of every high tide and nothing else |
| Snorkel.SlackFlagIsSlackAt | conditions/snorkel.py:111-117 | an hour's slack flag holds exactly when a high-tide index lies within the window of it |
| Snorkel.FetchForecast | conditions/snorkel.py:100-163 | one record per hourly time, each the record built from that hour's metrics, daylight and slack flag; the returned high-tide times are one per detected tide, in index order |
| Snorkel.BuildHours | conditions/snorkel.py:113-161 | one record per hourly time, each built from that hour's metrics, daylight and slack flag, given the list of high-tide times |
| Snorkel.BuildHour | conditions/snorkel.py:120-161 | the record of one hour: its metrics, the three threshold flags, daylight, the slack flag, `ok` and the score, as the record specification defines them |
| Snorkel.OkHourIsSafe | conditions/snorkel.py:141-142 | an ok hour has daylight, a current within its threshold, a slack window, and wave and wind below twice their thresholds |
| Snorkel.OkIff | conditions/snorkel.py:120-142 | an hour is ok exactly when its score exceeds 1/2, its current is present and within the threshold, and it lies in a slack window |
| Snorkel.HighTideHourIsSlack | conditions/snorkel.py:114-117 | the hour of a high tide is itself in a slack window |
| Snorkel.NoHighTideNoSlack | conditions/snorkel.py:114-142 | without any high tide no hour is in a slack window, so no hour is ok |
| Snorkel.ShortSeriesNoSlack | conditions/snorkel.py:107 | a sea-level series shorter than three values has no high tide, so no hour is slack |
| Snorkel.MissingTailIsNone | conditions/snorkel.py:124-125 | hours beyond the end of the sea-level or current series get no value there, and an hour without a current value is never ok |
| Snorkel.SinglePeak | conditions/snorkel.py:107-110 | a series that rises to one interior point and then falls has that point as its only high tide |
| Snorkel.AbsentNeighbourNoPeak | conditions/snorkel.py:109 | a missing value at or next to a point keeps it from being a high tide |
| Rating.RatingFromScore | conditions/tests/test_scoring.py:4-20 | with slack: excellent iff ≥ 0.8, good iff in [0.6, 0.8), fair iff in [0.4, 0.6); poor iff < 0.4 either way; without slack: never excellent or good, and fair iff ≥ 0.4 |
| Rating.CapNeverRaises | conditions/tests/test_scoring.py:14-20 | the slack cap never raises a tier and leaves fair and poor unchanged |
| Rating.RatingMonotone | conditions/tests/test_scoring.py:4-11 | a higher score never gives a lower tier |
| Rating.TestVectors | conditions/tests/test_scoring.py:4-20 | the test cases, boundary values included |
| Tags.FirstTruthy | conditions/osm.py:238-247 | the result is the value of the first key with a non-empty value, or the fallback when there is none |
| Spots.Confidence | conditions/models_spots.py:81-117 | the confidence lies in [0, 1], and no tags give 0 |
| Spots.OSMSpot.UpdateConfidence | conditions/models_spots.py:81-117 | the stored confidence is the clamped tag score, within [0, 1]; no other field changes |
| Spots.BuiltUpNeverRaises | conditions/models_spots.py:111-116 | adding a highway or building tag to a tag set without one never raises the confidence |
| Spots.BuiltUpCanRaise | conditions/models_spots.py:90-117 | on a tag set that already has a building, a highway tag can raise the confidence: a national-park reef with a building and no "marine" scores 0, and adding `highway="marine parade"` makes it 0.2 |
| Spots.DiveSpotNeedsBothTags | conditions/models_spots.py:87-88 | the dive-spot bonus of 0.6 needs both tags; either one alone scores 0 |
| Spots.NaturalBonuses | conditions/models_spots.py:90-94 | a reef scores 0.4 and a beach 0.2, and one tag set cannot have both |
| Spots.MarineBonusFromValue | conditions/models_spots.py:102-105 | a protected area whose name mentions "Marine" earns the 0.3 marine bonus |
| Spots.MarineBonusFromKey | conditions/models_spots.py:102-105 | a national park with a `marine` key earns the 0.3 marine bonus |
| Spots.MarineBonusNeedsBoundary | conditions/models_spots.py:103 | without a national-park or protected-area boundary there is no marine bonus |
| Spots.BackoffDelay | conditions/models_spots.py:188-190 | the default delay is at least min(3600, 2^retries) and at least 1, and at most 3600 |
| Spots.BackoffSaturates | conditions/models_spots.py:190 | from 12 retries on, the default delay is 3600 whatever the jitter |
| Spots.ImportTile.constructor | conditions/models_spots.py:137-151 | a new tile is pending, with no retries, five allowed retries, no next try and no spots |
| Spots.ImportTile.ScheduleRetry | conditions/models_spots.py:180-194 | retries grows by one; the next try is now plus the given delay or the default backoff, so between now + 1 and now + 3600 by default; afterwards `can_retry` holds exactly when it held before and at least two attempts were left, so a retry never makes a tile retryable |
| Osm.Lookup | conditions/osm.py:233-234 | a value is found exactly when the table lists it, and the type returned is the one listed with it |
| Osm.LocationTypeFirstMatch | conditions/osm.py:229-235 | the location type comes from the first table key whose tag value is listed, or is "other" when none matches |
| Osm.BeachWinsOverIsland | conditions/osm.py:31-65 | a beach on an island is typed "beach", because `natural` comes before `place` in the table |
| Osm.GeneratedName | conditions/osm.py:242 | the generated name is never empty |
| Osm.ProcessElement | conditions/osm.py:215-271 | a location exists exactly when the element is a node or has a center; it carries the element's id, type, coordinates and tags, source "osm", the table's location type, and a non-empty name and country; the country slug and the city slug are the slugs of the lower-cased country and name |
| Osm.NoNodeNoCenterNoLocation | conditions/osm.py:219-226 | a way or relation without a center gives no location |
| Osm.NameFallback | conditions/osm.py:238-243 | the name is `name`, else `name:en`, else `alt_name`, else the generated "Type at lat, lon" |
| Osm.AddressFallbacks | conditions/osm.py:245-264 | country falls back from `addr:country` to `country` to "Unknown"; region from `addr:state` to `addr:region` to `region` to ""; description from `description` to `note` to "" |
| Osm.ProcessResponse | conditions/osm.py:204-213 | the locations are the processed elements that gave a location, in order; a missing element list gives none |
| Osm.KeptProperties | conditions/osm.py:204-213 | processing splits over concatenation, keeps at most one location per element, keeps one per element when all have coordinates, and keeps exactly the locations some element produces |
| Osm.SnorkelLocation.FromOsm | conditions/osm.py:283-300 | a new location copies every field of the dictionary and gets timezone "UTC" |
| Osm.SnorkelLocation.Refresh | conditions/osm.py:302-307 | an existing location takes the new name, country, region, description and tags; nothing else changes |
| Osm.LocationStore.CreateOrUpdate | conditions/osm.py:273-309 | afterwards the (osm id, osm type) key holds the returned location; an existing one keeps its coordinates, slugs, type, source and timezone and takes the five refreshed fields; a new one is fresh and carries every field of the dictionary (id, type, name, country, region, slugs, coordinates, location type, description, tags and source) with timezone "UTC"; no other stored location changes |
| Osm.AreaContainsSamePoints | conditions/osm.py:121-122 | the reordered area of a bbox `[min_lon, min_lat, max_lon, max_lat]` contains exactly the points of the bbox, and a well-formed bbox gives south ≤ north and west ≤ east |
| Osm.ClausesForShape | conditions/osm.py:117-129 | two clauses per tag pair, a node clause then a way clause, both for that pair and the same area |
| Osm.TagPairCount | conditions/osm.py:31-65 | the tag table lists 12 key–value pairs |
| Osm.BuildTagClauses | conditions/osm.py:116-129 | the clauses are those of every (key, value) pair of the table, in table order |
| Osm.AddKeyClauses | conditions/osm.py:119-129 | appending the clauses of one key's values gives the clauses of the pairs so far followed by that key's pairs |
| Osm.SnorkelingClauses | conditions/osm.py:116-129 | the search query has 24 clauses, all on the same area, starting with the beach node and beach way |
| Osm.PairsPrefix | conditions/osm.py:118-119 | the pairs of a prefix of the table are a prefix of the table's pairs |
| TileImport.RelevantIff | conditions/management/commands/import_osm_tiles.py:373-403 | relevant exactly when one of the eight indicator tags is present, or a protected boundary has a tag value mentioning "marine"; the order of the checks does not matter |
| TileImport.ConfidentSpotsAreRelevant | conditions/management/commands/import_osm_tiles.py:373-403 | a tag set with positive confidence is relevant, unless its only marine mention is in a key |
| TileImport.RelevanceAndConfidenceDiffer | conditions/management/commands/import_osm_tiles.py:376-391 | a lone divespot tag is relevant with confidence 0; a national park with a `marine` key is irrelevant with confidence 0.3 |
| TileImport.MarineKeyNotRelevant | conditions/management/commands/import_osm_tiles.py:388-391 | a `marine` key alone does not make a national park relevant |
| TileImport.OverlapBasics | conditions/management/commands/import_osm_tiles.py:417-424 | overlap is symmetric, a well-formed box overlaps itself, and boxes that share an edge overlap |
| TileImport.OverlapIffCommonPoint | conditions/management/commands/import_osm_tiles.py:417-424 | two well-formed boxes overlap exactly when they share a point |
| TileImport.ElementToCoords | conditions/management/commands/import_osm_tiles.py:349-371 | fails with an index error exactly when the type is empty; otherwise returns the type's first letter and the id, with latitude and longitude both present or both absent |
| TileImport.CoordsAgreeWithNormaliser | conditions/management/commands/import_osm_tiles.py:353-371 | for node, way and relation elements the coordinates are those the search helpers use |
| TileImport.TypeLetterOnly | conditions/management/commands/import_osm_tiles.py:356 | a type such as "nd" is read as a node here, though it is not "node" |
| TileImport.SpotsOf | conditions/management/commands/import_osm_tiles.py:294-302 | one element counts 0 or 1 spot, and fails exactly when its type is empty |
| TileImport.CountSpots | conditions/management/commands/import_osm_tiles.py:290-302 | counting fails exactly when some element has an empty type; otherwise the count is at most the number of elements |
| TileImport.DryRunCountsMore | conditions/management/commands/import_osm_tiles.py:292-302 | the dry run fails exactly when the real run does, and counts at least as many spots |
| TileImport.EndpointAt | conditions/management/commands/import_osm_tiles.py:258 | the endpoint index is one of the three endpoints |
| TileImport.RotationVisitsEachOnce | conditions/management/commands/import_osm_tiles.py:257-259 | the three attempts of a tile use each endpoint once, starting from retries mod 3 |
| TileImport.FirstAnswerSpec | conditions/management/commands/import_osm_tiles.py:257-272 | no data exactly when all three endpoints raise; if the first endpoint in rotation answers, its data is used |
| TileImport.EmptyAnswerFails | conditions/management/commands/import_osm_tiles.py:274-275 | an empty response counts as a failure of all endpoints |
| TileImport.FetchTileData | conditions/management/commands/import_osm_tiles.py:257-272 | the data is the first answer in rotation order, or none |
| TileImport.CountTileSpots | conditions/management/commands/import_osm_tiles.py:290-302 | the loop's count or error is that of the spot-count specification |
| TileImport.ProcessTile | conditions/management/commands/import_osm_tiles.py:244-307 | fails when no endpoint gives non-empty data, otherwise returns the spot count or its error |
| TileImport.FirstLeast | conditions/management/commands/import_osm_tiles.py:227-236 | picks the earliest position with the least key, and none exactly when no position has a key |
| TileImport.SelectNext | conditions/management/commands/import_osm_tiles.py:223-236 | picks a pending tile with the earliest creation time when there is one; otherwise a failed tile with retries < 5 and next try ≤ now with the earliest next try; none exactly when no tile qualifies |
| TileImport.SelectionIgnoresMaxRetries | conditions/management/commands/import_osm_tiles.py:233 | a failed tile past its own max_retries is still selected, and one with 5 retries is not even when it allows 10 |
| TileImport.GetNextTile | conditions/management/commands/import_osm_tiles.py:223-242 | the chosen tile is the selection's pick and becomes running; no other tile changes |
| TileImport.RunTile | conditions/management/commands/import_osm_tiles.py:134-157 | a successful tile is done with its spot count; a failed one is failed, with one more retry and the next try at now plus the default backoff |
| TileImport.AfterRun | conditions/management/commands/import_osm_tiles.py:134-157 | a tile that ran is done with its spot count, retries and next try kept, or failed with one more retry and the next try after now and at most an hour later; its coordinates, limit and creation time stay |
| TileImport.StepViewsSpec | conditions/management/commands/import_osm_tiles.py:126-163 | a pass changes nothing exactly when no tile is selectable; otherwise only the selection's pick changes, to its fields after it ran, so it ends done or failed, and the outcome is whether processing succeeded |
| TileImport.BatchStep | conditions/management/commands/import_osm_tiles.py:126-163 | the picked tile is the selection's pick, and the tiles' fields afterwards are one pass of `StepViews` from the old ones; no tile changes exactly when none is selectable; otherwise only the picked tile changes: the outcome is whether processing succeeded, its fields become those after it ran (done with its spot count and its retries and next try kept, or failed with one more retry and the next try at the default backoff; limit and creation time kept), and its coordinates stay |
| TileImport.RunBatch | conditions/management/commands/import_osm_tiles.py:126-163 | a batch keeps the number of tiles and processes at most batch-size tiles |
| TileImport.RunBatchSettles | conditions/management/commands/import_osm_tiles.py:126-163 | after a batch every tile keeps its coordinates and is as it was, done or failed |
| TileImport.RunBatchLeavesNoneRunning | conditions/management/commands/import_osm_tiles.py:126-163 | a batch leaves no tile running that was not running before it |
| TileImport.HandleBatch | conditions/management/commands/import_osm_tiles.py:106-163 | the tiles end as the batch run `RunBatch` from their old fields (coordinates included) leaves them, and each keeps its z, x and y and is as it was, done or failed; processed is the number of that run's outcomes, successful its successes and failed its failures, so they add up to processed; at most the batch size (none for a size of 0 or less), and a short batch ends only when no tile is selectable |
| TileImport.CreateTileQueue | conditions/management/commands/import_osm_tiles.py:175-221 | an unparseable box changes nothing; otherwise each of the 4^zoom tiles counts once as created or skipped (outside the filter or already present); afterwards the keys are the old ones plus exactly the zoom-level tiles the filter wants, and the created count is the number of new keys |
| History.BuildRows | conditions/history.py:15-30 | one row per hour, in order, each built from that hour |
| History.ForecastRowsAreUnrated | conditions/history.py:15-30 | a row saved from a forecast hour has the location's key, the hour's ok, score and metrics, and the rating "unknown" |
| History.MissingFieldsDefault | conditions/history.py:21-23 | a missing ok, score or rating gives false, 0.0 and "unknown" |
| History.InsertAllKeeps | conditions/models.py:32-37 | inserting never changes an existing row, adds exactly the new rows' keys, and keeps every row under its own key |
| History.FirstRowWins | conditions/history.py:31 | a new key holds the first row of the batch that has it |
| History.InsertAllTaken | conditions/history.py:31 | rows whose keys are all taken change nothing |
| History.InsertAllIdempotent | conditions/history.py:31 | saving the same rows twice gives the same table as saving them once |
| History.HistoryTable.SaveForecastHistory | conditions/history.py:6-31 | the table becomes the old table with the built rows inserted, ignoring conflicts; no hours leave it unchanged; rows stay under their own keys |
| Views.Filter | conditions/views.py:16 | a filtered list is no longer than its input, and holds only input elements that pass |
| Views.UpcomingHours | conditions/views.py:16 | the shown hours are exactly the hours from now on, in their order |
| Views.Counts | conditions/views.py:18-20 | the ok count is at most the total, and the ok hours are exactly the ok hours from now on |
| Views.RoundPercent | conditions/views.py:21 | the percentage is 100·ok/total rounded to the nearest integer, halves to even |
| Views.PercentBounds | conditions/views.py:21 | the percentage is 0 without hours, lies in [0, 100], is 100 when every hour is ok, and is 0 exactly when at most one hour in 200 is ok |
| Views.EarliestAndLatest | conditions/views.py:23-27 | the earliest and latest ok times are absent exactly when no hour from now on is ok; otherwise they are the times of the first and of the last hour of the input, in its order, that is from now on and ok |

## Left out

- HTTP requests to Open-Meteo and Overpass, timeouts, `sleep` between tiles, caching, logging and console output. They are I/O. Responses are inputs: the parsed arrays for `FetchForecast`, and `answer`/`net` functions for the tile importer.
- Snorkel.FetchForecast: converting times to the location's timezone is not modelled. Times stay UTC instants, and a day is the UTC day `t / 86400`.
- Snorkel.FetchForecast: the empty forecast returned on an HTTP error is left out, because the requests are not modelled.
- Snorkel.FetchForecast: requires `Aligned`: the wave, temperature and wind arrays are at least as long as the time array, the sunrise and sunset arrays at least as long as the day list, and every detected high tide has an index inside the time array (`TidesInRange`). The code raises an index error in each of these cases, and the model does not model that error.
- Floating-point rounding is not modelled. Scores, thresholds and the percentage are exact reals, so a comparison at a float boundary (e.g. `0.79999`) is exact here.
- Python's `round` is modelled on the exact quotient. Float error in `ok / total * 100` before rounding is left out.
- Osm.ProcessElement: `slugify` and the `.4f` coordinate formatting are parameters (`TextOps`), because they are library text routines.
- Osm.ProcessElement: a missing `lat`, `lon` or `center` key raises a `KeyError` that the code catches, giving `None`; the model gives `None` as well. A present but null coordinate is not told apart from a missing one: the code then returns a location with a null latitude when the element has a name tag (the null is never formatted), or `None` through a caught `TypeError` otherwise; the model gives `None` in both cases. An element always has a type and an id in the model.
- TileImport.ElementToCoords: a null `lat` or `center` is read as missing coordinates and counts no spot. In the code `float(None)` raises a `TypeError`, which `element_to_coords` does not catch, so the whole tile fails and is retried.
- Osm.AreaOf: requires a bbox of 0 or at least 4 numbers. A bbox of 1 to 3 numbers is truthy and makes the code raise an `IndexError` when formatting the clause, which the model does not model.
- `Text.Lower` and `Text.Title` handle ASCII letters only. Unicode case mapping is not modelled.
- `"marine" in str(tags).lower()` is modelled as "some key or value contains `marine`, ignoring case". The text of the dict's own punctuation is left out; it cannot contain the word.
- `search_locations` builds name and country filters (`query_parts`) that it never uses. Only the tag clauses are modelled. Caching, the result limit and `get_location_details` are left out.
- Osm.LocationStore.CreateOrUpdate: `_detect_timezone` always returns "UTC" and is modelled as that constant. Database saves are field assignments on the stored objects.
- TileImport.HandleBatch: the `--create-tiles` branch calls `CreateTileQueue`, which is modelled on its own. The dry-run banner and the final report are output only.
- TileImport.HandleBatch: the clock is a function of the step number. The same instant serves tile selection and retry scheduling within a step.
- TileImport.HandleBatch: `transaction.atomic` rollback is left out. A tile's failure is modelled only by its status, retries and next try.
- TileImport.RunTile: `last_error` and `import_duration` are not recorded.
- TileImport.SpotsOf: `create_or_update_spot` writes an `OSMSpot` row. Only its success, which decides the count, is modelled. The row's field writes are left out, and `Spots.OSMSpot.UpdateConfidence` models the confidence it computes.
- TileImport.CreateTileQueue: `tile_to_bbox` (Web Mercator tile bounds, trigonometry) is a parameter `tileBox`. Parsing the `--country-bbox` text is an input, `BboxOption`: absent, unparseable or a box.
- TileImport.CreateTileQueue: a negative zoom is excluded by the `nat` type.
- History.HistoryTable.SaveForecastHistory: an hour without `time` raises in the code. In the model `time` is a required field.
- `conditions/models.py` is modelled only through the unique key of forecast rows. Its other fields are plain storage.
