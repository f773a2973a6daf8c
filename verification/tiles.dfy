/** The tile-based importer of `conditions/management/commands/import_osm_tiles.py`:
    the relevance filter, bounding-box overlap, coordinate extraction, the
    round-robin over Overpass endpoints, tile selection, the batch loop and
    the creation of the tile queue.

    The HTTP requests become a parameter `net` that gives the outcome of
    asking endpoint `e` at batch step `k`; the clock, the random jitter and
    `tile_to_bbox` are parameters too. */
module TileImport {
  import opened Wrappers
  import opened Tags
  import opened Text
  import opened Spots
  import Osm

  // ---------------------------------------------------------------------------
  // Relevance (`is_snorkeling_relevant`)
  // ---------------------------------------------------------------------------

  /** The single tags that make an element relevant on their own. */
  const Indicators: seq<(string, string)> := [
    ("sport", "scuba_diving"), ("scuba_diving:divespot", "yes"),
    ("natural", "reef"), ("natural", "beach"),
    ("amenity", "dive_centre"), ("shop", "scuba_diving"),
    ("leisure", "beach_resort"), ("leisure", "marina")
  ]

  /** `any("marine" in str(v).lower() for v in tags.values())`: unlike the
      confidence score, only the values are searched. */
  predicate ValuesMentionMarine(t: TagMap) {
    exists k :: k in t && ContainsIgnoringCase(t[k], "marine")
  }

  predicate IsProtectedBoundary(t: TagMap) {
    Is(t, "boundary", "national_park") || Is(t, "boundary", "protected_area")
  }

  /** `is_snorkeling_relevant`: the checks in the order
      `import_osm_tiles.py` makes them. */
  predicate IsSnorkelingRelevant(t: TagMap) {
    if Is(t, "sport", "scuba_diving") then true
    else if Is(t, "scuba_diving:divespot", "yes") then true
    else if Is(t, "natural", "reef") then true
    else if Is(t, "natural", "beach") then true
    else if IsProtectedBoundary(t) && ValuesMentionMarine(t) then true
    else if Is(t, "amenity", "dive_centre") then true
    else if Is(t, "shop", "scuba_diving") then true
    else if Is(t, "leisure", "beach_resort") || Is(t, "leisure", "marina") then true
    else false
  }

  /** An element is relevant exactly when it carries one of the indicator
      tags, or it is a protected boundary with "marine" in some value: the
      order of the checks does not matter. */
  lemma RelevantIff(t: TagMap)
    ensures IsSnorkelingRelevant(t) <==>
      (exists p :: p in Indicators && Is(t, p.0, p.1)) || (IsProtectedBoundary(t) && ValuesMentionMarine(t))
  {
  }

  /** A spot the confidence score rewards is relevant, except a protected
      area whose only mention of "marine" is in a key. */
  lemma ConfidentSpotsAreRelevant(t: TagMap)
    requires Confidence(t) > 0.0
    ensures IsSnorkelingRelevant(t) || (IsMarineArea(t) && !ValuesMentionMarine(t))
  {
    if IsMarineArea(t) && ValuesMentionMarine(t) {
      assert IsProtectedBoundary(t);
    }
  }

  /** The two filters disagree both ways: a dive-spot tag alone is relevant
      but scores nothing, and a national park with a `marine` key scores the
      marine bonus but is not relevant. */
  lemma RelevanceAndConfidenceDiffer()
    ensures IsSnorkelingRelevant(map["scuba_diving:divespot" := "yes"])
    ensures Confidence(map["scuba_diving:divespot" := "yes"]) == 0.0
    ensures !IsSnorkelingRelevant(map["boundary" := "national_park", "marine" := "yes"])
    ensures Confidence(map["boundary" := "national_park", "marine" := "yes"]) == 0.3
  {
    MarineBonusFromKey();
    MarineKeyNotRelevant();
  }

  lemma MarineKeyNotRelevant()
    ensures !IsSnorkelingRelevant(map["boundary" := "national_park", "marine" := "yes"])
  {
    var t := map["boundary" := "national_park", "marine" := "yes"];
    ParkValuesLackMarine(t);
    assert "sport" !in t && "scuba_diving:divespot" !in t && "natural" !in t;
    assert "amenity" !in t && "shop" !in t && "leisure" !in t;
  }

  lemma ParkValuesLackMarine(t: TagMap)
    requires t == map["boundary" := "national_park", "marine" := "yes"]
    ensures !ValuesMentionMarine(t)
  {
    NoMarineIn("national_park");
    NoMarineIn("yes");
    assert t.Keys == {"boundary", "marine"};
  }

  // ---------------------------------------------------------------------------
  // Bounding boxes (`bboxes_overlap`)
  // ---------------------------------------------------------------------------

  /** (south, west, north, east) in degrees. */
  datatype BBox = BBox(south: real, west: real, north: real, east: real)

  predicate WellFormed(b: BBox) {
    b.south <= b.north && b.west <= b.east
  }

  predicate Inside(b: BBox, lat: real, lon: real) {
    b.south <= lat <= b.north && b.west <= lon <= b.east
  }

  /** `bboxes_overlap`. */
  predicate BboxesOverlap(b1: BBox, b2: BBox) {
    !(b1.east < b2.west || b1.west > b2.east || b1.north < b2.south || b1.south > b2.north)
  }

  /** Overlap is symmetric, a well-formed box overlaps itself, and boxes
      that only share an edge overlap. */
  lemma OverlapBasics(b1: BBox, b2: BBox)
    ensures BboxesOverlap(b1, b2) <==> BboxesOverlap(b2, b1)
    ensures WellFormed(b1) ==> BboxesOverlap(b1, b1)
    ensures b1.east == b2.west && b1.south <= b2.north && b2.south <= b1.north ==>
      (b1.west <= b2.east ==> BboxesOverlap(b1, b2))
  {
  }

  /** For well-formed boxes, overlap means exactly that some point lies in
      both (edges included). */
  lemma OverlapIffCommonPoint(b1: BBox, b2: BBox)
    requires WellFormed(b1) && WellFormed(b2)
    ensures BboxesOverlap(b1, b2) <==> exists lat, lon :: Inside(b1, lat, lon) && Inside(b2, lat, lon)
  {
    if BboxesOverlap(b1, b2) {
      var lat := if b1.south >= b2.south then b1.south else b2.south;
      var lon := if b1.west >= b2.west then b1.west else b2.west;
      assert Inside(b1, lat, lon) && Inside(b2, lat, lon);
    }
  }

  // ---------------------------------------------------------------------------
  // Coordinates (`element_to_coords`)
  // ---------------------------------------------------------------------------

  /** `(lat, lon, type letter, id)`. */
  datatype Coords = Coords(lat: Option<real>, lon: Option<real>, typeLetter: char, id: int)

  const IndexError: string := "IndexError: string index out of range"

  /** `element_to_coords`: an empty element type raises (`IndexError`). */
  function ElementToCoords(e: Osm.Element): (r: Result<Coords>)
    ensures r.Err? <==> e.etype == []
    ensures r.Err? ==> r.message == IndexError
    ensures r.Ok? ==> r.value.typeLetter == e.etype[0] && r.value.id == e.id
    ensures r.Ok? ==> (r.value.lat.Some? <==> r.value.lon.Some?)
  {
    if e.etype == [] then Err(IndexError)
    else
      var letter := e.etype[0];
      if letter == 'n' then
        if e.lat.Some? && e.lon.Some? then Ok(Coords(e.lat, e.lon, letter, e.id))
        else Ok(Coords(None, None, letter, e.id))
      else if e.center.Some? && e.center.value.lat.Some? && e.center.value.lon.Some? then
        Ok(Coords(e.center.value.lat, e.center.value.lon, letter, e.id))
      else Ok(Coords(None, None, letter, e.id))
  }

  /** Both importers read the same coordinates from a node, a way or a
      relation; they differ only on element types of other spellings. */
  lemma CoordsAgreeWithNormaliser(e: Osm.Element)
    requires e.etype in {"node", "way", "relation"}
    ensures ElementToCoords(e).Ok?
    ensures var c := ElementToCoords(e).value;
      (c.lat.Some? <==> Osm.Coordinates(e).Some?) &&
      (c.lat.Some? ==> (c.lat.value, c.lon.value) == Osm.Coordinates(e).value)
  {
  }

  /** An element of type "nd" is read as a node by one importer and as a
      way by the other. */
  lemma TypeLetterOnly()
    ensures var e := Osm.Element("nd", 1, Some(1.0), Some(2.0), None, map[]);
      ElementToCoords(e).value.lat == Some(1.0) && Osm.Coordinates(e).None?
  {
  }

  /** The element yields a spot: coordinates, and relevance unless it is a dry run. */
  function SpotsOf(e: Osm.Element, dryRun: bool): (r: Result<nat>)
    ensures r.Err? <==> e.etype == []
    ensures r.Err? ==> r.message == IndexError
    ensures r.Ok? ==> r.value <= 1
  {
    match ElementToCoords(e)
    case Err(m) => Err(m)
    case Ok(c) =>
      if c.lat.Some? && c.lon.Some? && (dryRun || IsSnorkelingRelevant(e.tags)) then Ok(1) else Ok(0)
  }

  /** The number of spots of a list of elements; the first element without
      a type raises. */
  function CountSpots(es: seq<Osm.Element>, dryRun: bool): (r: Result<nat>)
    ensures r.Err? <==> exists i :: 0 <= i < |es| && es[i].etype == []
    ensures r.Err? ==> r.message == IndexError
    ensures r.Ok? ==> r.value <= |es|
    decreases |es|
  {
    if es == [] then Ok(0)
    else
      var n := |es| - 1;
      var before := CountSpots(es[..n], dryRun);
      assert forall i :: 0 <= i < n ==> es[..n][i] == es[i];
      match before
      case Err(m) => Err(m)
      case Ok(c) =>
        match SpotsOf(es[n], dryRun)
        case Err(m) => Err(m)
        case Ok(b) => Ok(c + b)
  }

  /** A dry run counts at least as many spots as an import would. */
  lemma {:induction false} DryRunCountsMore(es: seq<Osm.Element>)
    ensures CountSpots(es, true).Ok? <==> CountSpots(es, false).Ok?
    ensures CountSpots(es, false).Ok? ==> CountSpots(es, false).value <= CountSpots(es, true).value
    decreases |es|
  {
    if es != [] {
      DryRunCountsMore(es[..|es| - 1]);
    }
  }

  // ---------------------------------------------------------------------------
  // Endpoint rotation and one tile (`process_tile`)
  // ---------------------------------------------------------------------------

  const EndpointCount: nat := 3

  /** The outcome of one POST: an exception (connection error, HTTP error
      status, undecodable body), or the decoded JSON. */
  datatype Attempt = Raised | Answered(data: Osm.OverpassData)

  /** The endpoint asked on the `i`-th try for a tile with `retries` retries. */
  function EndpointAt(retries: nat, i: nat): (e: nat)
    ensures e < EndpointCount
  {
    (retries + i) % EndpointCount
  }

  /** The three tries visit every endpoint exactly once. */
  lemma RotationVisitsEachOnce(retries: nat)
    ensures EndpointAt(retries, 0) != EndpointAt(retries, 1)
    ensures EndpointAt(retries, 1) != EndpointAt(retries, 2)
    ensures EndpointAt(retries, 0) != EndpointAt(retries, 2)
    ensures {EndpointAt(retries, 0), EndpointAt(retries, 1), EndpointAt(retries, 2)} == {0, 1, 2}
  {
    var r := retries % 3;
    assert EndpointAt(retries, 0) == r;
    assert EndpointAt(retries, 1) == (r + 1) % 3;
    assert EndpointAt(retries, 2) == (r + 2) % 3;
  }

  /** The data of the first endpoint, from try `i` on, that does not raise. */
  function FirstAnswer(retries: nat, answer: nat -> Attempt, i: nat): Option<Osm.OverpassData>
    decreases EndpointCount - i
  {
    if i >= EndpointCount then None
    else match answer(EndpointAt(retries, i))
      case Answered(d) => Some(d)
      case Raised => FirstAnswer(retries, answer, i + 1)
  }

  /** No data comes back exactly when every endpoint raises; the first
      endpoint asked is `retries % 3`, and its answer is used when it gives one. */
  lemma FirstAnswerSpec(retries: nat, answer: nat -> Attempt)
    ensures FirstAnswer(retries, answer, 0).None? <==> forall e :: 0 <= e < EndpointCount ==> answer(e).Raised?
    ensures answer(retries % 3).Answered? ==> FirstAnswer(retries, answer, 0) == Some(answer(retries % 3).data)
  {
    RotationVisitsEachOnce(retries);
  }

  /** What `process_tile` returns, or the exception it raises: no data or an
      empty JSON object fails the tile. */
  function TileResult(retries: nat, answer: nat -> Attempt, dryRun: bool): Result<nat> {
    match FirstAnswer(retries, answer, 0)
    case None => Err("All Overpass endpoints failed")
    case Some(d) =>
      if !d.NonEmpty() then Err("All Overpass endpoints failed")
      else CountSpots(d.ElementList(), dryRun)
  }

  /** An empty JSON object from the first endpoint fails the tile without
      trying the others. */
  lemma EmptyAnswerFails(retries: nat, answer: nat -> Attempt, dryRun: bool)
    requires answer(retries % 3) == Answered(Osm.OverpassData(None, false))
    ensures TileResult(retries, answer, dryRun).Err?
  {
    FirstAnswerSpec(retries, answer);
  }

  /** The endpoint loop of `process_tile`: ask the endpoints in turn and
      stop at the first that answers. */
  method FetchTileData(retries: nat, answer: nat -> Attempt) returns (data: Option<Osm.OverpassData>)
    ensures data == FirstAnswer(retries, answer, 0)
  {
    data := None;
    var i := 0;
    while i < EndpointCount
      invariant 0 <= i <= EndpointCount
      invariant data.None? ==> FirstAnswer(retries, answer, 0) == FirstAnswer(retries, answer, i)
      invariant data.Some? ==> FirstAnswer(retries, answer, 0) == data
      decreases EndpointCount - i
    {
      var attempt := answer(EndpointAt(retries, i));
      if attempt.Answered? {
        data := Some(attempt.data);
        break;
      }
      i := i + 1;
    }
  }

  /** The counting loop of `process_tile`. */
  method CountTileSpots(elements: seq<Osm.Element>, dryRun: bool) returns (r: Result<nat>)
    ensures r == CountSpots(elements, dryRun)
  {
    var spots: nat := 0;
    for j := 0 to |elements|
      invariant CountSpots(elements[..j], dryRun) == Ok(spots)
    {
      assert elements[..j + 1][..j] == elements[..j];
      var c := ElementToCoords(elements[j]);
      if c.Err? {
        assert elements[j].etype == [];
        return Err(c.message);
      }
      if c.value.lat.Some? && c.value.lon.Some? && (dryRun || IsSnorkelingRelevant(elements[j].tags)) {
        spots := spots + 1;
      }
    }
    assert elements[..|elements|] == elements;
    r := Ok(spots);
  }

  /** `process_tile`: fetch the tile's data and count its spots. */
  method ProcessTile(retries: nat, answer: nat -> Attempt, dryRun: bool) returns (r: Result<nat>)
    ensures r == TileResult(retries, answer, dryRun)
  {
    var data := FetchTileData(retries, answer);
    if data.None? || !data.value.NonEmpty() {
      return Err("All Overpass endpoints failed");
    }
    r := CountTileSpots(data.value.ElementList(), dryRun);
  }

  // ---------------------------------------------------------------------------
  // Tile selection (`get_next_tile`)
  // ---------------------------------------------------------------------------

  /** The fields of a tile: its coordinates, which nothing here writes,
      and the fields that selection reads and the batch loop writes. */
  datatype TileView = TileView(
    z: int,
    x: int,
    y: int,
    status: TileStatus,
    retries: nat,
    maxRetries: int,
    nextTryAt: Option<int>,
    createdAt: int,
    spotsImported: nat)

  function View(t: ImportTile): TileView
    reads t
  {
    TileView(t.z, t.x, t.y, t.status, t.retries, t.maxRetries, t.nextTryAt, t.createdAt, t.spotsImported)
  }

  function Views(tiles: seq<ImportTile>): (vs: seq<TileView>)
    reads tiles
    ensures |vs| == |tiles| && forall i :: 0 <= i < |tiles| ==> vs[i] == View(tiles[i])
  {
    seq(|tiles|, i reads tiles requires 0 <= i < |tiles| => View(tiles[i]))
  }

  /** The retry limit the selection query hard-codes (`retries__lt=5`). */
  const SelectionRetryLimit: int := 5

  /** A failed tile the second query returns: fewer than five retries and a
      next attempt that is due (a tile without one is not due). */
  predicate Retryable(v: TileView, now: int) {
    v.status == Failed && v.retries < SelectionRetryLimit && v.nextTryAt.Some? && v.nextTryAt.value <= now
  }

  /** The first position of a least key, among the positions that have one. */
  function FirstLeast(keys: seq<Option<int>>): (r: Option<nat>)
    ensures r.None? <==> forall j :: 0 <= j < |keys| ==> keys[j].None?
    ensures r.Some? ==> r.value < |keys| && keys[r.value].Some?
    ensures r.Some? ==> forall j :: 0 <= j < |keys| && keys[j].Some? ==> keys[r.value].value <= keys[j].value
    ensures r.Some? ==> forall j :: 0 <= j < r.value && keys[j].Some? ==> keys[r.value].value < keys[j].value
    decreases |keys|
  {
    if keys == [] then None
    else
      var n := |keys| - 1;
      var r := FirstLeast(keys[..n]);
      assert forall j :: 0 <= j < n ==> keys[..n][j] == keys[j];
      if keys[n].Some? && (r.None? || keys[n].value < keys[r.value].value) then Some(n) else r
  }

  function PendingKeys(vs: seq<TileView>): seq<Option<int>> {
    seq(|vs|, i requires 0 <= i < |vs| => if vs[i].status == Pending then Some(vs[i].createdAt) else None)
  }

  function RetryKeys(vs: seq<TileView>, now: int): seq<Option<int>> {
    seq(|vs|, i requires 0 <= i < |vs| => if Retryable(vs[i], now) then Some(vs[i].nextTryAt.value) else None)
  }

  /** The tile `get_next_tile` picks: the pending tile created first, else
      the retryable failed tile due first. `order_by(...).first()` leaves
      ties to the database; the model picks the earliest position. */
  function SelectNext(vs: seq<TileView>, now: int): (r: Option<nat>)
    ensures r.Some? ==> r.value < |vs| && (vs[r.value].status == Pending || Retryable(vs[r.value], now))
    ensures r.None? <==> forall j :: 0 <= j < |vs| ==> vs[j].status != Pending && !Retryable(vs[j], now)
    ensures (exists j :: 0 <= j < |vs| && vs[j].status == Pending) ==>
      r.Some? && vs[r.value].status == Pending &&
      forall j :: 0 <= j < |vs| && vs[j].status == Pending ==> vs[r.value].createdAt <= vs[j].createdAt
    ensures (forall j :: 0 <= j < |vs| ==> vs[j].status != Pending) && r.Some? ==>
      forall j :: 0 <= j < |vs| && Retryable(vs[j], now) ==> vs[r.value].nextTryAt.value <= vs[j].nextTryAt.value
  {
    var pending := PendingKeys(vs);
    var retry := RetryKeys(vs, now);
    assert forall j :: 0 <= j < |vs| ==>
      (pending[j].Some? <==> vs[j].status == Pending) && (pending[j].Some? ==> pending[j].value == vs[j].createdAt);
    assert forall j :: 0 <= j < |vs| ==>
      (retry[j].Some? <==> Retryable(vs[j], now)) && (retry[j].Some? ==> retry[j].value == vs[j].nextTryAt.value);
    match FirstLeast(pending)
    case Some(i) => Some(i)
    case None => FirstLeast(retry)
  }

  /** Selection does not consult `max_retries`: a failed tile past its own
      limit is still picked, and one under its limit but with five retries
      never is. */
  lemma SelectionIgnoresMaxRetries(now: int)
    ensures var v := TileView(0, 0, 0, Failed, 4, 3, Some(now), 0, 0);
      SelectNext([v], now) == Some(0) && !(v.retries < v.maxRetries)
    ensures var v := TileView(0, 0, 0, Failed, 5, 10, Some(now), 0, 0);
      SelectNext([v], now).None? && v.retries < v.maxRetries
  {
    var v := TileView(0, 0, 0, Failed, 4, 3, Some(now), 0, 0);
    assert RetryKeys([v], now) == [Some(now)];
    assert PendingKeys([v]) == [None];
  }

  /** `get_next_tile`: pick a tile and mark it running. The tiles are the
      rows of the tile table, so no two are the same object. */
  method GetNextTile(tiles: seq<ImportTile>, now: int) returns (chosen: Option<nat>)
    requires forall i, j :: 0 <= i < j < |tiles| ==> tiles[i] != tiles[j]
    modifies tiles
    ensures chosen == SelectNext(old(Views(tiles)), now)
    ensures chosen.Some? ==>
      && tiles[chosen.value].status == Running
      && View(tiles[chosen.value]) == old(View(tiles[chosen.value])).(status := Running)
    ensures chosen.Some? ==>
      var t := tiles[chosen.value];
      && t.retries == old(t.retries) && t.maxRetries == old(t.maxRetries)
      && t.nextTryAt == old(t.nextTryAt) && t.createdAt == old(t.createdAt)
      && t.spotsImported == old(t.spotsImported)
      && t.z == old(t.z) && t.x == old(t.x) && t.y == old(t.y)
    ensures forall i :: 0 <= i < |tiles| && chosen != Some(i) ==> unchanged(tiles[i])
    ensures chosen.None? ==> Views(tiles) == old(Views(tiles))
  {
    chosen := SelectNext(Views(tiles), now);
    if chosen.Some? {
      tiles[chosen.value].status := Running;
    }
  }

  // ---------------------------------------------------------------------------
  // The batch loop (`handle`)
  // ---------------------------------------------------------------------------

  /** One tile of the batch: process it, then mark it done with its spot
      count, or failed with a retry scheduled at the default backoff. */
  method RunTile(tile: ImportTile, now: int, dryRun: bool, answer: nat -> Attempt, jitter: int) returns (success: bool)
    requires 0 <= jitter <= MaxJitterSeconds
    modifies tile`status, tile`spotsImported, tile`retries, tile`nextTryAt
    ensures success <==> TileResult(old(tile.retries), answer, dryRun).Ok?
    ensures success ==>
      && tile.status == Done && tile.spotsImported == TileResult(old(tile.retries), answer, dryRun).value
      && tile.retries == old(tile.retries) && tile.nextTryAt == old(tile.nextTryAt)
    ensures !success ==>
      && tile.status == Failed && tile.spotsImported == old(tile.spotsImported)
      && tile.retries == old(tile.retries) + 1
      && tile.nextTryAt == Some(now + BackoffDelay(old(tile.retries), jitter))
  {
    var r := ProcessTile(tile.retries, answer, dryRun);
    if r.Ok? {
      success := true;
      tile.status := Done;
      tile.spotsImported := r.value;
    } else {
      success := false;
      tile.status := Failed;
      tile.ScheduleRetry(now, None, jitter);
    }
  }

  /** Run the picked tile `c` of the batch; every other tile is untouched. */
  method RunChosen(tiles: seq<ImportTile>, c: nat, now: int, dryRun: bool, answer: nat -> Attempt, jitter: int)
    returns (ok: bool)
    requires forall i, j :: 0 <= i < j < |tiles| ==> tiles[i] != tiles[j]
    requires c < |tiles| && 0 <= jitter <= MaxJitterSeconds
    modifies tiles[c]
    ensures forall j :: 0 <= j < |tiles| && j != c ==> unchanged(tiles[j])
    ensures var r := TileResult(old(tiles[c].retries), answer, dryRun);
      && (ok <==> r.Ok?)
      && View(tiles[c]) == AfterRun(old(View(tiles[c])), r, now, jitter)
    ensures tiles[c].z == old(tiles[c].z) && tiles[c].x == old(tiles[c].x) && tiles[c].y == old(tiles[c].y)
  {
    ok := RunTile(tiles[c], now, dryRun, answer, jitter);
  }

  /** The tile's fields after it ran: done with its spot count, or failed
      with one more retry and the next try at the default backoff. */
  function AfterRun(v: TileView, r: Result<nat>, now: int, jitter: int): (w: TileView)
    requires 0 <= jitter <= MaxJitterSeconds
    ensures w.status == (if r.Ok? then Done else Failed)
    ensures w.z == v.z && w.x == v.x && w.y == v.y
    ensures w.maxRetries == v.maxRetries && w.createdAt == v.createdAt
    ensures r.Ok? ==> w.spotsImported == r.value && w.retries == v.retries && w.nextTryAt == v.nextTryAt
    ensures r.Err? ==> w.spotsImported == v.spotsImported && w.retries == v.retries + 1
    ensures r.Err? ==> w.nextTryAt.Some? && now < w.nextTryAt.value <= now + MaxBackoffSeconds
  {
    if r.Ok? then v.(status := Done, spotsImported := r.value)
    else v.(status := Failed, retries := v.retries + 1, nextTryAt := Some(now + BackoffDelay(v.retries, jitter)))
  }

  /** Running a tile sets its status, so the status it had before does not
      matter. */
  lemma AfterRunIgnoresStatus(v: TileView, st: TileStatus, r: Result<nat>, now: int, jitter: int)
    requires 0 <= jitter <= MaxJitterSeconds
    ensures AfterRun(v.(status := st), r, now, jitter) == AfterRun(v, r, now, jitter)
  {
  }

  /** One pass of the batch loop over the tiles' fields: the new fields, and
      whether the picked tile succeeded (`None` when none is selectable). */
  datatype Step = Step(views: seq<TileView>, outcome: Option<bool>)

  function StepViews(vs: seq<TileView>, now: int, dryRun: bool, answer: nat -> Attempt, jitter: int): (s: Step)
    requires 0 <= jitter <= MaxJitterSeconds
    ensures |s.views| == |vs|
  {
    match SelectNext(vs, now)
    case None => Step(vs, None)
    case Some(c) =>
      var r := TileResult(vs[c].retries, answer, dryRun);
      Step(vs[c := AfterRun(vs[c], r, now, jitter)], Some(r.Ok?))
  }

  /** A step changes nothing when no tile is selectable; otherwise it runs
      the selected tile and leaves every other tile as it was. */
  lemma StepViewsSpec(vs: seq<TileView>, now: int, dryRun: bool, answer: nat -> Attempt, jitter: int)
    requires 0 <= jitter <= MaxJitterSeconds
    ensures var s := StepViews(vs, now, dryRun, answer, jitter);
      && (s.outcome.None? <==> SelectNext(vs, now).None?)
      && (s.outcome.None? ==> s.views == vs)
      && (forall j :: 0 <= j < |vs| && SelectNext(vs, now) != Some(j) ==> s.views[j] == vs[j])
    ensures SelectNext(vs, now).Some? ==>
      var s := StepViews(vs, now, dryRun, answer, jitter);
      var c := SelectNext(vs, now).value;
      var r := TileResult(vs[c].retries, answer, dryRun);
      && (s.outcome.value <==> r.Ok?)
      && s.views[c] == AfterRun(vs[c], r, now, jitter)
      && (s.views[c].status == Done || s.views[c].status == Failed)
  {
  }

  /** With no tile selectable, a step changes nothing. */
  lemma StepViewsNone(vs: seq<TileView>, now: int, dryRun: bool, answer: nat -> Attempt, jitter: int)
    requires 0 <= jitter <= MaxJitterSeconds
    requires SelectNext(vs, now).None?
    ensures StepViews(vs, now, dryRun, answer, jitter) == Step(vs, None)
  {
  }

  /** With tile `c` selected, a step replaces its fields by those after it ran. */
  lemma StepViewsSome(vs: seq<TileView>, now: int, dryRun: bool, answer: nat -> Attempt, jitter: int, c: nat)
    requires 0 <= jitter <= MaxJitterSeconds
    requires SelectNext(vs, now) == Some(c)
    ensures c < |vs|
    ensures var r := TileResult(vs[c].retries, answer, dryRun);
      StepViews(vs, now, dryRun, answer, jitter) == Step(vs[c := AfterRun(vs[c], r, now, jitter)], Some(r.Ok?))
  {
  }

  /** What endpoint `e` answers at step `k` of a batch. */
  function AnswerAt(net: (nat, nat) -> Attempt, k: nat): nat -> Attempt {
    (e: nat) => net(k, e)
  }

  /** The steps of a batch from step `k` on: the final fields, and the
      outcome of each tile processed, in order. */
  datatype BatchRun = BatchRun(views: seq<TileView>, outcomes: seq<bool>)

  function RunBatch(vs: seq<TileView>, k: nat, batchSize: int, dryRun: bool,
                    clock: nat -> int, net: (nat, nat) -> Attempt, jitter: nat -> int): (run: BatchRun)
    requires forall i :: 0 <= jitter(i) <= MaxJitterSeconds
    ensures |run.views| == |vs|
    ensures k + |run.outcomes| <= batchSize || run.outcomes == []
    decreases batchSize - k
  {
    if k >= batchSize then BatchRun(vs, [])
    else
      var s := StepViews(vs, clock(k), dryRun, AnswerAt(net, k), jitter(k));
      if s.outcome.None? then BatchRun(vs, [])
      else
        var rest := RunBatch(s.views, k + 1, batchSize, dryRun, clock, net, jitter);
        BatchRun(rest.views, [s.outcome.value] + rest.outcomes)
  }

  /** One batch step from step `k`: none when no tile is selectable,
      otherwise the step's outcome followed by the rest of the batch. */
  lemma RunBatchUnfold(vs: seq<TileView>, k: nat, batchSize: int, dryRun: bool,
                       clock: nat -> int, net: (nat, nat) -> Attempt, jitter: nat -> int)
    requires forall i :: 0 <= jitter(i) <= MaxJitterSeconds
    requires k < batchSize
    ensures var s := StepViews(vs, clock(k), dryRun, AnswerAt(net, k), jitter(k));
      var run := RunBatch(vs, k, batchSize, dryRun, clock, net, jitter);
      && (s.outcome.None? ==> run == BatchRun(vs, []))
      && (s.outcome.Some? ==>
            var rest := RunBatch(s.views, k + 1, batchSize, dryRun, clock, net, jitter);
            run == BatchRun(rest.views, [s.outcome.value] + rest.outcomes))
  {
  }

  /** After a step that ran a tile with outcome `o`, the rest of the batch
      runs from the step's fields, and the outcomes so far gain `o`. */
  lemma RunBatchAdvance(vs: seq<TileView>, ws: seq<TileView>, o: bool, k: nat, batchSize: int, dryRun: bool,
                        clock: nat -> int, net: (nat, nat) -> Attempt, jitter: nat -> int,
                        outcomes: seq<bool>, whole: BatchRun)
    requires forall i :: 0 <= jitter(i) <= MaxJitterSeconds
    requires k < batchSize
    requires Step(ws, Some(o)) == StepViews(vs, clock(k), dryRun, AnswerAt(net, k), jitter(k))
    requires var run := RunBatch(vs, k, batchSize, dryRun, clock, net, jitter);
      whole.views == run.views && whole.outcomes == outcomes + run.outcomes
    ensures var rest := RunBatch(ws, k + 1, batchSize, dryRun, clock, net, jitter);
      whole.views == rest.views && whole.outcomes == (outcomes + [o]) + rest.outcomes
  {
    RunBatchUnfold(vs, k, batchSize, dryRun, clock, net, jitter);
    var rest := RunBatch(ws, k + 1, batchSize, dryRun, clock, net, jitter);
    assert outcomes + ([o] + rest.outcomes) == (outcomes + [o]) + rest.outcomes;
  }

  /** A tile is settled when it keeps its coordinates and is as it was, or
      done, or failed. */
  predicate Settled(v: TileView, w: TileView) {
    w.z == v.z && w.x == v.x && w.y == v.y && (w == v || w.status == Done || w.status == Failed)
  }

  /** Tile by tile, `ws` is settled with respect to `vs`. */
  predicate AllSettled(vs: seq<TileView>, ws: seq<TileView>) {
    |ws| == |vs| && forall j :: 0 <= j < |vs| ==> Settled(vs[j], ws[j])
  }

  /** Settling twice is settling once. */
  lemma SettledTrans(us: seq<TileView>, vs: seq<TileView>, ws: seq<TileView>)
    requires AllSettled(us, vs) && AllSettled(vs, ws)
    ensures AllSettled(us, ws)
  {
    forall j | 0 <= j < |us|
      ensures Settled(us[j], ws[j])
    {
      assert Settled(us[j], vs[j]) && Settled(vs[j], ws[j]);
    }
  }

  /** A step keeps every tile's coordinates and leaves each tile as it was,
      or done, or failed. */
  lemma StepSettles(vs: seq<TileView>, now: int, dryRun: bool, answer: nat -> Attempt, jitter: int)
    requires 0 <= jitter <= MaxJitterSeconds
    ensures AllSettled(vs, StepViews(vs, now, dryRun, answer, jitter).views)
  {
    StepViewsSpec(vs, now, dryRun, answer, jitter);
  }

  /** A batch keeps every tile's coordinates and leaves each tile as it
      was, or done, or failed. */
  lemma {:induction false} RunBatchSettles(vs: seq<TileView>, k: nat, batchSize: int, dryRun: bool,
                                           clock: nat -> int, net: (nat, nat) -> Attempt, jitter: nat -> int)
    requires forall i :: 0 <= jitter(i) <= MaxJitterSeconds
    ensures AllSettled(vs, RunBatch(vs, k, batchSize, dryRun, clock, net, jitter).views)
    decreases batchSize - k
  {
    if k < batchSize {
      RunBatchUnfold(vs, k, batchSize, dryRun, clock, net, jitter);
      var s := StepViews(vs, clock(k), dryRun, AnswerAt(net, k), jitter(k));
      if s.outcome.Some? {
        StepSettles(vs, clock(k), dryRun, AnswerAt(net, k), jitter(k));
        RunBatchSettles(s.views, k + 1, batchSize, dryRun, clock, net, jitter);
        SettledTrans(vs, s.views, RunBatch(s.views, k + 1, batchSize, dryRun, clock, net, jitter).views);
      }
    }
  }

  /** In particular a batch leaves no tile running that was not running
      before it. */
  lemma RunBatchLeavesNoneRunning(vs: seq<TileView>, batchSize: int, dryRun: bool,
                                  clock: nat -> int, net: (nat, nat) -> Attempt, jitter: nat -> int)
    requires forall i :: 0 <= jitter(i) <= MaxJitterSeconds
    ensures var run := RunBatch(vs, 0, batchSize, dryRun, clock, net, jitter);
      forall j :: 0 <= j < |vs| && vs[j].status != Running ==> run.views[j].status != Running
  {
    var run := RunBatch(vs, 0, batchSize, dryRun, clock, net, jitter);
    RunBatchSettles(vs, 0, batchSize, dryRun, clock, net, jitter);
    forall j | 0 <= j < |vs| && vs[j].status != Running
      ensures run.views[j].status != Running
    {
      assert Settled(vs[j], run.views[j]);
    }
  }

  /** The number of entries of `bs` equal to `b`. */
  function Count(bs: seq<bool>, b: bool): (n: nat)
    ensures n <= |bs|
  {
    if bs == [] then 0 else Count(bs[..|bs| - 1], b) + (if bs[|bs| - 1] == b then 1 else 0)
  }

  /** One more outcome adds one to its own count and nothing to the other. */
  lemma CountAppend(bs: seq<bool>, b: bool)
    ensures Count(bs + [b], true) == Count(bs, true) + (if b then 1 else 0)
    ensures Count(bs + [b], false) == Count(bs, false) + (if b then 0 else 1)
  {
    assert (bs + [b])[..|bs|] == bs;
  }

  /** Every outcome is a success or a failure. */
  lemma {:induction false} CountSplit(bs: seq<bool>)
    ensures Count(bs, true) + Count(bs, false) == |bs|
  {
    if bs != [] {
      CountSplit(bs[..|bs| - 1]);
    }
  }

  /** One pass of the batch loop: pick a tile and run it. `chosen` is the
      picked tile, `None` when no tile is selectable; `outcome` is whether
      the chosen tile succeeded. */
  method BatchStep(tiles: seq<ImportTile>, now: int, dryRun: bool, answer: nat -> Attempt, jitter: int)
    returns (chosen: Option<nat>, outcome: Option<bool>)
    requires forall i, j :: 0 <= i < j < |tiles| ==> tiles[i] != tiles[j]
    requires 0 <= jitter <= MaxJitterSeconds
    modifies tiles
    ensures chosen == SelectNext(old(Views(tiles)), now)
    ensures Step(Views(tiles), outcome) == StepViews(old(Views(tiles)), now, dryRun, answer, jitter)
    ensures outcome.None? <==> chosen.None?
    ensures chosen.None? ==> forall j :: 0 <= j < |tiles| ==> unchanged(tiles[j])
    ensures chosen.Some? ==> forall j :: 0 <= j < |tiles| && j != chosen.value ==> unchanged(tiles[j])
    ensures chosen.Some? ==>
      var c := chosen.value;
      var r := TileResult(old(tiles[c].retries), answer, dryRun);
      && (outcome.value <==> r.Ok?)
      && View(tiles[c]) == AfterRun(old(View(tiles[c])), r, now, jitter)
      && tiles[c].z == old(tiles[c].z) && tiles[c].x == old(tiles[c].x) && tiles[c].y == old(tiles[c].y)
  {
    ghost var before := Views(tiles);
    chosen := GetNextTile(tiles, now);
    if chosen.None? {
      StepViewsNone(before, now, dryRun, answer, jitter);
      return chosen, None;
    }
    var c := chosen.value;
    label picked:
    var ok := RunChosen(tiles, c, now, dryRun, answer, jitter);
    outcome := Some(ok);
    forall j | 0 <= j < |tiles| && j != c
      ensures unchanged(tiles[j])
    {
      assert unchanged@picked(tiles[j]);
    }
    ghost var r := TileResult(before[c].retries, answer, dryRun);
    AfterRunIgnoresStatus(before[c], Running, r, now, jitter);
    assert View(tiles[c]) == AfterRun(before[c], r, now, jitter);
    StepViewsSome(before, now, dryRun, answer, jitter, c);
    ghost var after := before[c := AfterRun(before[c], r, now, jitter)];
    forall j | 0 <= j < |tiles|
      ensures Views(tiles)[j] == after[j]
    {
      if j != c {
        assert unchanged(tiles[j]);
      }
    }
    assert Views(tiles) == after;
  }

  /** `handle` without `--create-tiles`: at step `k` the clock reads
      `clock(k)`, endpoint `e` answers `net(k, e)` and the backoff jitter is
      `jitter(k)`. */
  method HandleBatch(tiles: seq<ImportTile>, batchSize: int, dryRun: bool,
                     clock: nat -> int, net: (nat, nat) -> Attempt, jitter: nat -> int)
    returns (processed: nat, successful: nat, failed: nat)
    requires forall i, j :: 0 <= i < j < |tiles| ==> tiles[i] != tiles[j]
    requires forall k :: 0 <= jitter(k) <= MaxJitterSeconds
    modifies tiles
    ensures var run := RunBatch(old(Views(tiles)), 0, batchSize, dryRun, clock, net, jitter);
      && Views(tiles) == run.views
      && processed == |run.outcomes|
      && successful == Count(run.outcomes, true) && failed == Count(run.outcomes, false)
    ensures successful + failed == processed
    ensures batchSize <= 0 ==> processed == 0
    ensures batchSize > 0 ==> processed <= batchSize
    ensures processed < batchSize ==> SelectNext(Views(tiles), clock(processed)).None?
    ensures forall i :: 0 <= i < |tiles| ==> Settled(old(Views(tiles))[i], View(tiles[i]))
  {
    ghost var start := Views(tiles);
    processed, successful, failed := 0, 0, 0;
    ghost var outcomes: seq<bool> := [];
    ghost var whole := RunBatch(Views(tiles), 0, batchSize, dryRun, clock, net, jitter);
    while processed < batchSize
      invariant |outcomes| == processed
      invariant successful == Count(outcomes, true) && failed == Count(outcomes, false)
      invariant var rest := RunBatch(Views(tiles), processed, batchSize, dryRun, clock, net, jitter);
        whole.views == rest.views && whole.outcomes == outcomes + rest.outcomes
      invariant batchSize > 0 ==> processed <= batchSize
      invariant batchSize <= 0 ==> processed == 0
      decreases batchSize - processed
    {
      var k := processed;
      ghost var before := Views(tiles);
      var chosen, outcome := BatchStep(tiles, clock(k), dryRun, AnswerAt(net, k), jitter(k));
      if outcome.None? {
        RunBatchUnfold(before, k, batchSize, dryRun, clock, net, jitter);
        StepViewsNone(before, clock(k), dryRun, AnswerAt(net, k), jitter(k));
        assert Views(tiles) == before;
        break;
      }
      RunBatchAdvance(before, Views(tiles), outcome.value, k, batchSize, dryRun, clock, net, jitter, outcomes, whole);
      CountAppend(outcomes, outcome.value);
      if outcome.value {
        successful := successful + 1;
      } else {
        failed := failed + 1;
      }
      outcomes := outcomes + [outcome.value];
      processed := processed + 1;
    }
    ghost var rest := RunBatch(Views(tiles), processed, batchSize, dryRun, clock, net, jitter);
    assert rest == BatchRun(Views(tiles), []);
    assert outcomes + [] == outcomes;
    CountSplit(outcomes);
    RunBatchSettles(start, 0, batchSize, dryRun, clock, net, jitter);
  }

  // ---------------------------------------------------------------------------
  // The tile queue (`create_tile_queue`)
  // ---------------------------------------------------------------------------

  /** The `--country-bbox` option: absent or empty, not four numbers, or parsed. */
  datatype BboxOption = NoFilter | Unparseable | Filter(b: BBox)

  /** (z, x, y), the unique key of a tile. */
  type TileKey = (nat, nat, nat)

  predicate Wanted(opt: BboxOption, tileBox: (nat, nat) -> BBox, x: nat, y: nat) {
    opt.Filter? ==> BboxesOverlap(tileBox(x, y), opt.b)
  }

  /** `create_tile_queue`: walk the 2^zoom by 2^zoom grid column by column,
      skip the tiles outside the filter, and create the others unless they
      exist. `tileBox` stands for `tile_to_bbox` at this zoom. */
  method CreateTileQueue(zoom: nat, opt: BboxOption, tileBox: (nat, nat) -> BBox, existing: set<TileKey>)
    returns (created: nat, skipped: nat, keys: set<TileKey>)
    ensures existing <= keys && created == |keys| - |existing|
    ensures opt.Unparseable? ==> created == 0 && skipped == 0 && keys == existing
    ensures !opt.Unparseable? ==> created + skipped == Pow2(zoom) * Pow2(zoom)
    ensures !opt.Unparseable? ==> forall k: TileKey :: k in keys <==>
      k in existing || (k.0 == zoom && k.1 < Pow2(zoom) && k.2 < Pow2(zoom) && Wanted(opt, tileBox, k.1, k.2))
  {
    created, skipped, keys := 0, 0, existing;
    if opt.Unparseable? {
      return;
    }
    var n := Pow2(zoom);
    for x := 0 to n
      invariant existing <= keys && created == |keys| - |existing|
      invariant created + skipped == x * n
      invariant forall k: TileKey :: k in keys <==>
        k in existing || (k.0 == zoom && k.1 < x && k.2 < n && Wanted(opt, tileBox, k.1, k.2))
    {
      for y := 0 to n
        invariant existing <= keys && created == |keys| - |existing|
        invariant created + skipped == x * n + y
        invariant forall k: TileKey :: k in keys <==>
          k in existing || (k.0 == zoom && (k.1 < x || (k.1 == x && k.2 < y)) && k.2 < n && Wanted(opt, tileBox, k.1, k.2))
      {
        if opt.Filter? && !BboxesOverlap(tileBox(x, y), opt.b) {
          skipped := skipped + 1;
        } else if (zoom, x, y) in keys {
          skipped := skipped + 1;
        } else {
          keys := keys + {(zoom, x, y)};
          created := created + 1;
        }
      }
      assert x * n + n == (x + 1) * n;
    }
  }
}
