/** The normalisation of Overpass elements into location records in
    `conditions/osm.py`: the ordered tag table, `_process_osm_element`,
    `_process_osm_response`, the field update of `create_or_update_location`
    and the tag clauses of the query built by `search_locations`.

    `slugify` (a third-party library) and the `.4f` formatting of a
    coordinate are not modelled; they are passed in as `TextOps`. */
module Osm {
  import opened Wrappers
  import opened Tags
  import opened Text

  // ---------------------------------------------------------------------------
  // Overpass elements
  // ---------------------------------------------------------------------------

  /** The `center` object Overpass adds to ways and relations; a missing
      or unusable coordinate is `None`. */
  datatype Center = Center(lat: Option<real>, lon: Option<real>)

  /** An element of an Overpass response. A missing or unusable `lat`/`lon`
      is `None`, a missing `center` is `None`, and missing `tags` are the
      empty map. */
  datatype Element = Element(
    etype: string,
    id: int,
    lat: Option<real>,
    lon: Option<real>,
    center: Option<Center>,
    tags: TagMap)

  /** A decoded Overpass response: its `elements` list, if it has one, and
      whether it has any other key. */
  datatype OverpassData = OverpassData(elements: Option<seq<Element>>, hasOtherKeys: bool) {
    /** `bool(data)`: a dictionary is false exactly when it is empty. */
    predicate NonEmpty() { elements.Some? || hasOtherKeys }

    /** `data.get("elements", [])`. */
    function ElementList(): seq<Element> { elements.GetOr([]) }
  }

  // ---------------------------------------------------------------------------
  // The ordered tag table (`SNORKELING_TAGS`)
  // ---------------------------------------------------------------------------

  type TagTable = seq<(string, seq<(string, string)>)>

  const SnorkelingTags: TagTable := [
    ("natural", [("beach", "beach"), ("coastline", "coastline"), ("reef", "reef")]),
    ("amenity", [("beach_resort", "beach")]),
    ("tourism", [("beach", "beach")]),
    ("leisure", [("beach_resort", "beach"), ("marina", "marina")]),
    ("waterway", [("river", "river")]),
    ("place", [("island", "island"), ("islet", "island")]),
    ("boundary", [("national_park", "marine_park"), ("protected_area", "marine_park")])
  ]

  /** `values[v]` when `v in values`, for one key's value table. */
  function Lookup(values: seq<(string, string)>, v: string): (r: Option<string>)
    ensures r.Some? <==> exists j :: 0 <= j < |values| && values[j].0 == v
    ensures r.Some? ==> exists j :: 0 <= j < |values| && values[j] == (v, r.value)
    decreases |values|
  {
    if values == [] then None
    else if values[0].0 == v then Some(values[0].1)
    else
      var r := Lookup(values[1..], v);
      assert forall j :: 1 <= j < |values| ==> values[j] == values[1..][j - 1];
      r
  }

  /** Entry `entry` of the table applies to the tags. */
  predicate Matches(t: TagMap, entry: (string, seq<(string, string)>)) {
    entry.0 in t && Lookup(entry.1, t[entry.0]).Some?
  }

  /** The location-type loop: the type of the first entry, in table order,
      that applies; "other" when none does. */
  function LocationTypeIn(t: TagMap, table: TagTable): string
    decreases |table|
  {
    if table == [] then "other"
    else if Matches(t, table[0]) then Lookup(table[0].1, t[table[0].0]).value
    else LocationTypeIn(t, table[1..])
  }

  function LocationType(t: TagMap): string {
    LocationTypeIn(t, SnorkelingTags)
  }

  /** The location type is that of the first applying entry, or "other". */
  lemma {:induction false} LocationTypeFirstMatch(t: TagMap, table: TagTable)
    ensures (forall i :: 0 <= i < |table| ==> !Matches(t, table[i])) ==> LocationTypeIn(t, table) == "other"
    ensures forall i :: 0 <= i < |table| && Matches(t, table[i]) && (forall j :: 0 <= j < i ==> !Matches(t, table[j])) ==>
      LocationTypeIn(t, table) == Lookup(table[i].1, t[table[i].0]).value
    decreases |table|
  {
    if table != [] {
      LocationTypeFirstMatch(t, table[1..]);
      assert forall i :: 1 <= i < |table| ==> table[i] == table[1..][i - 1];
      forall i | 0 < i < |table| && Matches(t, table[i]) && (forall j :: 0 <= j < i ==> !Matches(t, table[j]))
        ensures LocationTypeIn(t, table) == Lookup(table[i].1, t[table[i].0]).value
      {
        assert !Matches(t, table[0]);
        assert forall j :: 0 <= j < i - 1 ==> !Matches(t, table[1..][j]);
      }
    }
  }

  /** A beach tag wins over an island tag, because `natural` comes first in
      the table. */
  lemma BeachWinsOverIsland()
    ensures LocationType(map["place" := "island", "natural" := "beach"]) == "beach"
  {
  }

  // ---------------------------------------------------------------------------
  // One element (`_process_osm_element`)
  // ---------------------------------------------------------------------------

  /** A location dictionary built from one element. */
  datatype Location = Location(
    osmId: int,
    osmType: string,
    name: string,
    country: string,
    region: string,
    countrySlug: string,
    citySlug: string,
    latitude: real,
    longitude: real,
    locationType: string,
    description: string,
    osmTags: TagMap,
    source: string)

  /** The text functions the normaliser calls but that are not modelled:
      `slugify` and the `.4f` formatting of a coordinate. */
  datatype TextOps = TextOps(slugify: string -> string, fixed4: real -> string)

  /** The coordinates of an element: a node's own, otherwise its `center`. */
  function Coordinates(e: Element): Option<(real, real)> {
    if e.etype == "node" then
      if e.lat.Some? && e.lon.Some? then Some((e.lat.value, e.lon.value)) else None
    else if e.center.Some? then
      if e.center.value.lat.Some? && e.center.value.lon.Some? then
        Some((e.center.value.lat.value, e.center.value.lon.value))
      else None
    else None
  }

  const NameKeys: seq<string> := ["name", "name:en", "alt_name"]
  const CountryKeys: seq<string> := ["addr:country", "country"]
  const RegionKeys: seq<string> := ["addr:state", "addr:region", "region"]
  const DescriptionKeys: seq<string> := ["description", "note"]

  function GeneratedName(locationType: string, lat: real, lon: real, ops: TextOps): (r: string)
    ensures |r| > 0
  {
    Title(locationType) + " at " + ops.fixed4(lat) + ", " + ops.fixed4(lon)
  }

  /** `_process_osm_element`. */
  function ProcessElement(e: Element, ops: TextOps): (r: Option<Location>)
    ensures r.Some? <==> Coordinates(e).Some?
    ensures r.Some? ==>
      && r.value.osmId == e.id && r.value.osmType == e.etype
      && (r.value.latitude, r.value.longitude) == Coordinates(e).value
      && r.value.source == "osm" && r.value.osmTags == e.tags
      && r.value.locationType == LocationType(e.tags)
      && r.value.name != "" && r.value.country != ""
      && r.value.countrySlug == ops.slugify(Lower(r.value.country))
      && r.value.citySlug == ops.slugify(Lower(r.value.name))
  {
    match Coordinates(e)
    case None => None
    case Some((lat, lon)) =>
      var t := e.tags;
      var locationType := LocationType(t);
      var name := FirstTruthy(t, NameKeys, GeneratedName(locationType, lat, lon, ops));
      var country := FirstTruthy(t, CountryKeys, "Unknown");
      var region := FirstTruthy(t, RegionKeys, "");
      Some(Location(
        e.id, e.etype, name, country, region,
        ops.slugify(Lower(country)), ops.slugify(Lower(name)),
        lat, lon, locationType,
        FirstTruthy(t, DescriptionKeys, ""),
        t, "osm"))
  }

  /** An element that is neither a node nor has a `center` yields nothing. */
  lemma NoNodeNoCenterNoLocation(e: Element, ops: TextOps)
    requires e.etype != "node" && e.center.None?
    ensures ProcessElement(e, ops).None?
  {
  }

  /** The name is `name`, else `name:en`, else `alt_name` (the first that is
      set and not empty), else "<Type> at <lat>, <lon>". */
  lemma NameFallback(e: Element, ops: TextOps)
    requires Coordinates(e).Some?
    ensures var n := ProcessElement(e, ops).value.name;
      var t := e.tags;
      && (Truthy(t, "name") ==> n == t["name"])
      && (!Truthy(t, "name") && Truthy(t, "name:en") ==> n == t["name:en"])
      && (!Truthy(t, "name") && !Truthy(t, "name:en") && Truthy(t, "alt_name") ==> n == t["alt_name"])
      && (!Truthy(t, "name") && !Truthy(t, "name:en") && !Truthy(t, "alt_name") ==>
            n == GeneratedName(LocationType(t), Coordinates(e).value.0, Coordinates(e).value.1, ops))
  {
    var t := e.tags;
    assert NameKeys[0] == "name" && NameKeys[1] == "name:en" && NameKeys[2] == "alt_name";
  }

  /** The country falls back from `addr:country` to `country` to "Unknown";
      the region from `addr:state` to `addr:region` to `region` to ""; the
      description from `description` to `note` to "". */
  lemma AddressFallbacks(e: Element, ops: TextOps)
    requires Coordinates(e).Some?
    ensures var l := ProcessElement(e, ops).value;
      var t := e.tags;
      && (Truthy(t, "addr:country") ==> l.country == t["addr:country"])
      && (!Truthy(t, "addr:country") && Truthy(t, "country") ==> l.country == t["country"])
      && (!Truthy(t, "addr:country") && !Truthy(t, "country") ==> l.country == "Unknown")
      && (Truthy(t, "addr:state") ==> l.region == t["addr:state"])
      && (!Truthy(t, "addr:state") && Truthy(t, "addr:region") ==> l.region == t["addr:region"])
      && (!Truthy(t, "addr:state") && !Truthy(t, "addr:region") && Truthy(t, "region") ==> l.region == t["region"])
      && (!Truthy(t, "addr:state") && !Truthy(t, "addr:region") && !Truthy(t, "region") ==> l.region == "")
      && (Truthy(t, "description") ==> l.description == t["description"])
      && (!Truthy(t, "description") && Truthy(t, "note") ==> l.description == t["note"])
      && (!Truthy(t, "description") && !Truthy(t, "note") ==> l.description == "")
  {
    assert CountryKeys[0] == "addr:country" && CountryKeys[1] == "country";
    assert RegionKeys[0] == "addr:state" && RegionKeys[1] == "addr:region" && RegionKeys[2] == "region";
    assert DescriptionKeys[0] == "description" && DescriptionKeys[1] == "note";
  }

  // ---------------------------------------------------------------------------
  // A whole response (`_process_osm_response`)
  // ---------------------------------------------------------------------------

  /** The `Some` values of `f` over a list, in order. */
  function FilterMap<T, U>(xs: seq<T>, f: T -> Option<U>): seq<U>
    decreases |xs|
  {
    if xs == [] then []
    else
      var n := |xs| - 1;
      FilterMap(xs[..n], f) + (match f(xs[n]) case Some(y) => [y] case None => [])
  }

  /** The locations of a list of elements, in order, skipping the elements
      that yield nothing. */
  function Kept(es: seq<Element>, ops: TextOps): seq<Location> {
    FilterMap(es, e => ProcessElement(e, ops))
  }

  /** `_process_osm_response`. */
  method ProcessResponse(data: OverpassData, ops: TextOps) returns (locations: seq<Location>)
    ensures locations == Kept(data.ElementList(), ops)
  {
    var elements := data.ElementList();
    var f := e => ProcessElement(e, ops);
    locations := [];
    for i := 0 to |elements|
      invariant locations == FilterMap(elements[..i], f)
    {
      assert elements[..i + 1][..i] == elements[..i];
      var location := ProcessElement(elements[i], ops);
      if location.Some? {
        locations := locations + [location.value];
      }
    }
    assert elements[..|elements|] == elements;
  }

  /** Filtering distributes over concatenation, so the output keeps the input order. */
  lemma {:induction false} FilterMapAppend<T, U>(a: seq<T>, b: seq<T>, f: T -> Option<U>)
    ensures FilterMap(a + b, f) == FilterMap(a, f) + FilterMap(b, f)
    decreases |b|
  {
    if b != [] {
      var n := |b| - 1;
      var ab := a + b;
      assert ab[..|ab| - 1] == a + b[..n];
      assert ab[|ab| - 1] == b[n];
      FilterMapAppend(a, b[..n], f);
      var last := match f(b[n]) case Some(y) => [y] case None => [];
      assert FilterMap(ab, f) == FilterMap(a + b[..n], f) + last;
      assert FilterMap(b, f) == FilterMap(b[..n], f) + last;
      calc {
        FilterMap(ab, f);
        FilterMap(a + b[..n], f) + last;
        (FilterMap(a, f) + FilterMap(b[..n], f)) + last;
        FilterMap(a, f) + (FilterMap(b[..n], f) + last);
      }
    } else {
      assert a + b == a;
    }
  }

  /** The output is never longer than the input, and it is exactly as long
      when `f` yields something for every element. */
  lemma {:induction false} FilterMapLength<T, U>(xs: seq<T>, f: T -> Option<U>)
    ensures |FilterMap(xs, f)| <= |xs|
    ensures (forall i :: 0 <= i < |xs| ==> f(xs[i]).Some?) ==> |FilterMap(xs, f)| == |xs|
    decreases |xs|
  {
    if xs != [] {
      FilterMapLength(xs[..|xs| - 1], f);
    }
  }

  /** A value is in the output exactly when `f` yields it for some element. */
  lemma {:induction false} FilterMapMembers<T, U>(xs: seq<T>, f: T -> Option<U>, y: U)
    ensures y in FilterMap(xs, f) <==> exists i :: 0 <= i < |xs| && f(xs[i]) == Some(y)
    decreases |xs|
  {
    if xs != [] {
      var n := |xs| - 1;
      FilterMapMembers(xs[..n], f, y);
      forall i | 0 <= i < n
        ensures xs[..n][i] == xs[i]
      {
      }
    }
  }

  /** The response keeps the order of its elements, drops exactly the
      elements without coordinates, and keeps every one that has them. */
  lemma KeptProperties(a: seq<Element>, b: seq<Element>, ops: TextOps, l: Location)
    ensures Kept(a + b, ops) == Kept(a, ops) + Kept(b, ops)
    ensures |Kept(a, ops)| <= |a|
    ensures (forall i :: 0 <= i < |a| ==> Coordinates(a[i]).Some?) ==> |Kept(a, ops)| == |a|
    ensures l in Kept(a, ops) <==> exists i :: 0 <= i < |a| && ProcessElement(a[i], ops) == Some(l)
  {
    var f := e => ProcessElement(e, ops);
    FilterMapAppend(a, b, f);
    FilterMapLength(a, f);
    FilterMapMembers(a, f, l);
  }

  // ---------------------------------------------------------------------------
  // Stored locations (`create_or_update_location`)
  // ---------------------------------------------------------------------------

  /** A stored location, as far as the OSM importer writes it. */
  class SnorkelLocation {
    var osmId: int
    var osmType: string
    var name: string
    var country: string
    var region: string
    var countrySlug: string
    var citySlug: string
    var latitude: real
    var longitude: real
    var locationType: string
    var description: string
    var osmTags: TagMap
    var source: string
    var timezone: string

    /** The `defaults` of `get_or_create`; the time zone is the constant "UTC"
        that `_detect_timezone` returns. */
    constructor FromOsm(d: Location)
      ensures osmId == d.osmId && osmType == d.osmType && name == d.name && country == d.country
      ensures region == d.region && countrySlug == d.countrySlug && citySlug == d.citySlug
      ensures latitude == d.latitude && longitude == d.longitude && locationType == d.locationType
      ensures description == d.description && osmTags == d.osmTags && source == d.source
      ensures timezone == "UTC"
    {
      osmId, osmType, name, country, region := d.osmId, d.osmType, d.name, d.country, d.region;
      countrySlug, citySlug := d.countrySlug, d.citySlug;
      latitude, longitude, locationType := d.latitude, d.longitude, d.locationType;
      description, osmTags, source := d.description, d.osmTags, d.source;
      timezone := "UTC";
    }

    /** The update of an existing location: only name, country, region,
        description and tags are replaced. */
    method Refresh(d: Location)
      modifies this`name, this`country, this`region, this`description, this`osmTags
      ensures name == d.name && country == d.country && region == d.region
      ensures description == d.description && osmTags == d.osmTags
    {
      name := d.name;
      country := d.country;
      region := d.region;
      description := d.description;
      osmTags := d.osmTags;
    }
  }

  /** The stored locations, keyed by (osm_id, osm_type). */
  class LocationStore {
    var rows: map<(int, string), SnorkelLocation>

    constructor ()
      ensures rows == map[]
    {
      rows := map[];
    }

    /** `create_or_update_location`: a new key gets a new location built from
        the data; an existing location keeps its coordinates, slugs, type,
        source and time zone and takes the other five fields from the data. */
    method CreateOrUpdate(d: Location) returns (loc: SnorkelLocation)
      modifies this, rows.Values
      ensures (d.osmId, d.osmType) in rows && rows[(d.osmId, d.osmType)] == loc
      ensures (d.osmId, d.osmType) in old(rows) ==>
        && rows == old(rows) && loc == old(rows)[(d.osmId, d.osmType)]
        && loc.name == d.name && loc.country == d.country && loc.region == d.region
        && loc.description == d.description && loc.osmTags == d.osmTags
        && loc.latitude == old(loc.latitude) && loc.longitude == old(loc.longitude)
        && loc.countrySlug == old(loc.countrySlug) && loc.citySlug == old(loc.citySlug)
        && loc.locationType == old(loc.locationType) && loc.source == old(loc.source)
        && loc.timezone == old(loc.timezone) && loc.osmId == old(loc.osmId) && loc.osmType == old(loc.osmType)
      ensures (d.osmId, d.osmType) !in old(rows) ==>
        && fresh(loc) && rows == old(rows)[(d.osmId, d.osmType) := loc]
        && loc.osmId == d.osmId && loc.osmType == d.osmType
        && loc.name == d.name && loc.country == d.country && loc.region == d.region
        && loc.countrySlug == d.countrySlug && loc.citySlug == d.citySlug
        && loc.latitude == d.latitude && loc.longitude == d.longitude
        && loc.locationType == d.locationType && loc.description == d.description
        && loc.osmTags == d.osmTags && loc.source == d.source && loc.timezone == "UTC"
      ensures forall o :: o in old(rows.Values) && o != loc ==> unchanged(o)
    {
      var key := (d.osmId, d.osmType);
      if key in rows {
        loc := rows[key];
        loc.Refresh(d);
      } else {
        loc := new SnorkelLocation.FromOsm(d);
        rows := rows[key := loc];
      }
    }
  }

  // ---------------------------------------------------------------------------
  // Tag clauses of the search query (`search_locations`)
  // ---------------------------------------------------------------------------

  datatype ClauseKind = NodeClause | WayClause

  /** The area filter of a clause: (south, west, north, east). */
  datatype QueryBox = QueryBox(south: real, west: real, north: real, east: real)

  /** `node["key"="value"](area)` or `way[...]`. */
  datatype TagClause = TagClause(kind: ClauseKind, key: string, value: string, area: Option<QueryBox>)

  /** The (key, value) pairs of a table, in order. */
  function TagPairs(table: TagTable): seq<(string, string)>
    decreases |table|
  {
    if table == [] then []
    else
      var n := |table| - 1;
      TagPairs(table[..n]) + KeyPairs(table[n])
  }

  function KeyPairs(entry: (string, seq<(string, string)>)): seq<(string, string)> {
    seq(|entry.1|, j requires 0 <= j < |entry.1| => (entry.0, entry.1[j].0))
  }

  /** A bbox `[min_lon, min_lat, max_lon, max_lat]` is emitted as
      (min_lat, min_lon, max_lat, max_lon); an empty one adds no area. */
  function AreaOf(bbox: seq<real>): (a: Option<QueryBox>)
    requires |bbox| == 0 || |bbox| >= 4
    ensures a.None? <==> bbox == []
    ensures a.Some? ==> a.value == QueryBox(bbox[1], bbox[0], bbox[3], bbox[2])
  {
    if bbox == [] then None else Some(QueryBox(bbox[1], bbox[0], bbox[3], bbox[2]))
  }

  /** (lat, lon) lies in the bbox `[min_lon, min_lat, max_lon, max_lat]`. */
  predicate InBbox(bbox: seq<real>, lat: real, lon: real)
    requires |bbox| >= 4
  {
    bbox[1] <= lat <= bbox[3] && bbox[0] <= lon <= bbox[2]
  }

  /** (lat, lon) lies in the area (south, west, north, east). */
  predicate InArea(a: QueryBox, lat: real, lon: real) {
    a.south <= lat <= a.north && a.west <= lon <= a.east
  }

  /** The reordering keeps the box: a well-formed bbox gives an area whose
      south is not above its north and whose west is not east of its east,
      and a point lies in the area exactly when it lies in the bbox. */
  lemma AreaContainsSamePoints(bbox: seq<real>, lat: real, lon: real)
    requires |bbox| >= 4
    ensures AreaOf(bbox).Some?
    ensures bbox[0] <= bbox[2] && bbox[1] <= bbox[3] ==>
      AreaOf(bbox).value.south <= AreaOf(bbox).value.north && AreaOf(bbox).value.west <= AreaOf(bbox).value.east
    ensures InArea(AreaOf(bbox).value, lat, lon) <==> InBbox(bbox, lat, lon)
  {
  }

  /** One node clause and then one way clause for every pair. */
  function ClausesFor(pairs: seq<(string, string)>, area: Option<QueryBox>): seq<TagClause>
    decreases |pairs|
  {
    if pairs == [] then []
    else
      var n := |pairs| - 1;
      ClausesFor(pairs[..n], area) +
      [TagClause(NodeClause, pairs[n].0, pairs[n].1, area), TagClause(WayClause, pairs[n].0, pairs[n].1, area)]
  }

  /** Clause 2k is the node clause and clause 2k+1 the way clause of pair k. */
  lemma {:induction false} ClausesForShape(pairs: seq<(string, string)>, area: Option<QueryBox>)
    ensures |ClausesFor(pairs, area)| == 2 * |pairs|
    ensures forall k :: 0 <= k < |pairs| ==>
      ClausesFor(pairs, area)[2 * k] == TagClause(NodeClause, pairs[k].0, pairs[k].1, area) &&
      ClausesFor(pairs, area)[2 * k + 1] == TagClause(WayClause, pairs[k].0, pairs[k].1, area)
    decreases |pairs|
  {
    if pairs != [] {
      var n := |pairs| - 1;
      ClausesForShape(pairs[..n], area);
    }
  }

  /** The table has twelve (key, value) pairs, so the union has 24 clauses. */
  lemma TagPairCount()
    ensures |TagPairs(SnorkelingTags)| == 12
  {
    var t := SnorkelingTags;
    assert |TagPairs(t[..1])| == 3 by { assert t[..1][..0] == []; }
    assert |TagPairs(t[..2])| == 4 by { assert t[..2][..1] == t[..1]; }
    assert |TagPairs(t[..3])| == 5 by { assert t[..3][..2] == t[..2]; }
    assert |TagPairs(t[..4])| == 7 by { assert t[..4][..3] == t[..3]; }
    assert |TagPairs(t[..5])| == 8 by { assert t[..5][..4] == t[..4]; }
    assert |TagPairs(t[..6])| == 10 by { assert t[..6][..5] == t[..5]; }
    assert |TagPairs(t)| == 12 by { assert t[..6] == t[..|t| - 1]; }
  }

  /** The tag-clause loop of `search_locations`, over the tag table it is
      given (`SnorkelingTags` in the importer). */
  method BuildTagClauses(table: TagTable, bbox: seq<real>) returns (clauses: seq<TagClause>)
    requires |bbox| == 0 || |bbox| >= 4
    ensures clauses == ClausesFor(TagPairs(table), AreaOf(bbox))
  {
    var area := AreaOf(bbox);
    clauses := [];
    for i := 0 to |table|
      invariant clauses == ClausesFor(TagPairs(table[..i]), area)
    {
      assert table[..i + 1][..i] == table[..i];
      clauses := AddKeyClauses(clauses, TagPairs(table[..i]), table[i].0, table[i].1, area);
    }
    assert table[..|table|] == table;
  }

  /** The inner loop of the clause builder: a node and a way clause for each
      value of one key, appended to the clauses of the pairs before it. */
  method AddKeyClauses(clauses: seq<TagClause>, before: seq<(string, string)>, key: string,
                       values: seq<(string, string)>, area: Option<QueryBox>)
    returns (result: seq<TagClause>)
    requires clauses == ClausesFor(before, area)
    ensures result == ClausesFor(before + KeyPairs((key, values)), area)
  {
    result := clauses;
    assert before + KeyPairs((key, values[..0])) == before;
    for j := 0 to |values|
      invariant result == ClausesFor(before + KeyPairs((key, values[..j])), area)
    {
      var pairs := before + KeyPairs((key, values[..j]));
      KeyPairsSnoc(key, values, j);
      assert before + KeyPairs((key, values[..j + 1])) == pairs + [(key, values[j].0)];
      ClausesForSnoc(pairs, (key, values[j].0), area);
      result := result + [TagClause(NodeClause, key, values[j].0, area)];
      result := result + [TagClause(WayClause, key, values[j].0, area)];
    }
    assert values[..|values|] == values;
  }

  lemma KeyPairsSnoc(key: string, values: seq<(string, string)>, j: nat)
    requires j < |values|
    ensures KeyPairs((key, values[..j + 1])) == KeyPairs((key, values[..j])) + [(key, values[j].0)]
  {
  }

  lemma ClausesForSnoc(pairs: seq<(string, string)>, p: (string, string), area: Option<QueryBox>)
    ensures ClausesFor(pairs + [p], area) ==
      ClausesFor(pairs, area) + [TagClause(NodeClause, p.0, p.1, area), TagClause(WayClause, p.0, p.1, area)]
  {
    assert (pairs + [p])[..|pairs|] == pairs;
  }

  /** Over the snorkelling table the query has 24 tag clauses, a node and a
      way clause for each of the twelve pairs, all with the same area. */
  lemma SnorkelingClauses(bbox: seq<real>)
    requires |bbox| == 0 || |bbox| >= 4
    ensures var c := ClausesFor(TagPairs(SnorkelingTags), AreaOf(bbox));
      && |c| == 24
      && (forall k :: 0 <= k < 24 ==> c[k].area == AreaOf(bbox))
      && c[0] == TagClause(NodeClause, "natural", "beach", AreaOf(bbox))
      && c[1] == TagClause(WayClause, "natural", "beach", AreaOf(bbox))
  {
    TagPairCount();
    var pairs := TagPairs(SnorkelingTags);
    ClausesForShape(pairs, AreaOf(bbox));
    var c := ClausesFor(pairs, AreaOf(bbox));
    forall k | 0 <= k < 24
      ensures c[k].area == AreaOf(bbox)
    {
      if k % 2 == 0 {
        assert c[2 * (k / 2)] == TagClause(NodeClause, pairs[k / 2].0, pairs[k / 2].1, AreaOf(bbox));
      } else {
        assert c[2 * (k / 2) + 1] == TagClause(WayClause, pairs[k / 2].0, pairs[k / 2].1, AreaOf(bbox));
      }
    }
    assert pairs[0] == ("natural", "beach") by {
      var t := SnorkelingTags;
      assert TagPairs(t[..1]) == KeyPairs(t[0]) by { assert t[..1][..0] == []; }
      PairsPrefix(t, 1);
    }
  }

  /** The pairs of a prefix of the table are a prefix of its pairs. */
  lemma {:induction false} PairsPrefix(table: TagTable, i: nat)
    requires i <= |table|
    ensures TagPairs(table[..i]) <= TagPairs(table)
    decreases |table| - i
  {
    if i < |table| {
      PairsPrefix(table, i + 1);
      assert table[..i + 1][..i] == table[..i];
    } else {
      assert table[..i] == table;
    }
  }
}
