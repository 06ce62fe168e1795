/**
 * The facility search of api/hospitals_router.py: the map service is asked
 * for medical facilities around a point, with a wider box when the first
 * answer is empty, and the first 20 raw elements are filtered and shaped into
 * `Hospital` records. The map service is an oracle from the search radius to
 * an outcome; coordinates are integers where the source has floats (a zero
 * coordinate is falsy in both).
 */
module HospitalsRouter {
  import opened Common

  const DefaultRadius: real := 0.02
  const ExpandedRadius: real := 0.05

  /** How many raw elements are looked at. */
  const ResultLimit := 20

  const UnnamedFacility := "Unnamed Facility"
  const DefaultAmenity := "facility"
  const NoFacilitiesMessage := "No medical facilities found in the area. Try a different location or expand your search."

  const SearchTimedOut := HttpError(504, "Location service timed out. Please try again.")
  const SearchUnexpected := HttpError(500, "An unexpected error occurred while searching for facilities.")

  /** The `center` of a way or relation. */
  datatype Center = Center(lat: Option<int>, lon: Option<int>)

  /** One raw Overpass element: its tags, its own coordinates, and its center. */
  datatype Element = Element(tags: map<string, string>, lat: Option<int>, lon: Option<int>, center: Option<Center>)

  /** `Hospital`; `kind` is the `type` field. */
  datatype Hospital = Hospital(
    name: string,
    kind: string,
    latitude: int,
    longitude: int,
    phone: Option<string>,
    address: Option<string>,
    mapsUrl: string)

  /**
   * What one Overpass request ends in: the `elements` list (empty when the
   * answer has none), a timeout, another request failure (connection,
   * HTTP status, undecodable body) with its message, or any other exception.
   */
  datatype OverpassOutcome = Elements(items: seq<Element>) | TimedOut | RequestFailed(message: string) | Unexpected

  /** `search_overpass_api`: the elements, or the HTTP error each failure kind is turned into. */
  function Search(o: OverpassOutcome): (r: Result<seq<Element>>)
    ensures r.Ok? <==> o.Elements?
    ensures o.Elements? ==> r.value == o.items
    ensures o.TimedOut? ==> r == Err(SearchTimedOut) && r.error.status == 504
    ensures o.RequestFailed? ==> r.error.status == 502 && IsPrefix("Failed to communicate with the location service: ", r.error.detail)
    ensures o.Unexpected? ==> r == Err(SearchUnexpected) && r.error.status == 500
  {
    match o
    case Elements(items) => Ok(items)
    case TimedOut => Err(SearchTimedOut)
    case RequestFailed(message) => Err(HttpError(502, "Failed to communicate with the location service: " + message))
    case Unexpected => Err(SearchUnexpected)
  }

  // ---------------------------------------------------------------- tags and coordinates

  function Tag(tags: map<string, string>, key: string): Option<string>
  {
    if key in tags then Some(tags[key]) else None
  }

  /** `tags.get(key)` is truthy: present and not empty. */
  predicate TagTruthy(tags: map<string, string>, key: string)
  {
    key in tags && tags[key] != ""
  }

  predicate CoordTruthy(c: Option<int>)
  {
    c.Some? && c.value != 0
  }

  /** `place.get("lat") or place.get("center", {}).get("lat")`. */
  function Latitude(e: Element): (r: Option<int>)
    ensures CoordTruthy(e.lat) ==> r == e.lat
    ensures !CoordTruthy(e.lat) ==> r == if e.center.Some? then e.center.value.lat else None
    ensures CoordTruthy(r) ==> r == e.lat || (e.center.Some? && r == e.center.value.lat)
  {
    if CoordTruthy(e.lat) then e.lat else if e.center.Some? then e.center.value.lat else None
  }

  function Longitude(e: Element): (r: Option<int>)
    ensures CoordTruthy(e.lon) ==> r == e.lon
    ensures !CoordTruthy(e.lon) ==> r == if e.center.Some? then e.center.value.lon else None
    ensures CoordTruthy(r) ==> r == e.lon || (e.center.Some? && r == e.center.value.lon)
  {
    if CoordTruthy(e.lon) then e.lon else if e.center.Some? then e.center.value.lon else None
  }

  /** `tags.get("name", tags.get("operator", "Unnamed Facility"))`. */
  function FacilityName(tags: map<string, string>): (r: string)
    ensures "name" in tags ==> r == tags["name"]
    ensures "name" !in tags && "operator" in tags ==> r == tags["operator"]
    ensures "name" !in tags && "operator" !in tags ==> r == UnnamedFacility
  {
    if "name" in tags then tags["name"] else if "operator" in tags then tags["operator"] else UnnamedFacility
  }

  /** The house number, street and city that are present, in that order. */
  function AddressParts(tags: map<string, string>): (parts: seq<string>)
    ensures |parts| ==
      (if TagTruthy(tags, "addr:housenumber") then 1 else 0) + (if TagTruthy(tags, "addr:street") then 1 else 0)
      + (if TagTruthy(tags, "addr:city") then 1 else 0)
    ensures TagTruthy(tags, "addr:housenumber") ==> parts[0] == tags["addr:housenumber"]
    ensures TagTruthy(tags, "addr:street") ==>
      parts[if TagTruthy(tags, "addr:housenumber") then 1 else 0] == tags["addr:street"]
    ensures TagTruthy(tags, "addr:city") ==> parts[|parts| - 1] == tags["addr:city"]
    ensures |parts| <= 3
    ensures forall i :: 0 <= i < |parts| ==> parts[i] != ""
  {
    (if TagTruthy(tags, "addr:housenumber") then [tags["addr:housenumber"]] else [])
    + (if TagTruthy(tags, "addr:street") then [tags["addr:street"]] else [])
    + (if TagTruthy(tags, "addr:city") then [tags["addr:city"]] else [])
  }

  /**
   * `tags.get("addr:full") or ", ".join(parts) if parts else None`, which
   * Python groups as `(full or joined) if parts else None`.
   */
  function FullAddress(tags: map<string, string>): (r: Option<string>)
    ensures r.None? <==>
      !TagTruthy(tags, "addr:housenumber") && !TagTruthy(tags, "addr:street") && !TagTruthy(tags, "addr:city")
    ensures r.Some? && TagTruthy(tags, "addr:full") ==> r == Some(tags["addr:full"])
    ensures r.Some? && !TagTruthy(tags, "addr:full") ==> r == Some(Join(", ", AddressParts(tags)))
  {
    var parts := AddressParts(tags);
    if parts == [] then None
    else if TagTruthy(tags, "addr:full") then Some(tags["addr:full"])
    else Some(Join(", ", parts))
  }

  /** `tags.get("phone") or tags.get("contact:phone")`. */
  function Phone(tags: map<string, string>): (r: Option<string>)
    ensures TagTruthy(tags, "phone") ==> r == Some(tags["phone"])
    ensures !TagTruthy(tags, "phone") ==> r == Tag(tags, "contact:phone")
    ensures r.Some? ==> ("phone" in tags && r.value == tags["phone"]) || ("contact:phone" in tags && r.value == tags["contact:phone"])
  {
    if TagTruthy(tags, "phone") then Some(tags["phone"]) else Tag(tags, "contact:phone")
  }

  // ---------------------------------------------------------------- type formatting

  predicate IsAsciiLetter(c: char)
  {
    'a' <= c <= 'z' || 'A' <= c <= 'Z'
  }

  function Upper(c: char): char
  {
    if 'a' <= c <= 'z' then (c as int - 32) as char else c
  }

  function Lower(c: char): char
  {
    if 'A' <= c <= 'Z' then (c as int + 32) as char else c
  }

  /** `s.replace(from, to)` for single characters. */
  function ReplaceChar(s: string, from: char, to: char): (r: string)
    ensures |r| == |s|
    ensures forall k :: 0 <= k < |s| ==> r[k] == if s[k] == from then to else s[k]
  {
    seq(|s|, k requires 0 <= k < |s| => if s[k] == from then to else s[k])
  }

  /** `str.title()` from a position whose previous character is (`afterLetter`) or is not a letter. */
  function TitleFrom(s: string, afterLetter: bool): (r: string)
    ensures |r| == |s|
    ensures forall k :: 0 <= k < |s| ==>
      r[k] == if (k == 0 && afterLetter) || (k > 0 && IsAsciiLetter(s[k - 1])) then Lower(s[k]) else Upper(s[k])
  {
    if s == [] then []
    else [if afterLetter then Lower(s[0]) else Upper(s[0])] + TitleFrom(s[1..], IsAsciiLetter(s[0]))
  }

  /** `str.title()`: a letter is upper-cased at the start of a word and lower-cased inside one. */
  function TitleCase(s: string): (r: string)
    ensures |r| == |s|
    ensures forall k :: 0 <= k < |s| ==>
      r[k] == if k > 0 && IsAsciiLetter(s[k - 1]) then Lower(s[k]) else Upper(s[k])
  {
    TitleFrom(s, false)
  }

  /** The amenity tag, "facility" when absent. */
  function Amenity(tags: map<string, string>): string
  {
    if "amenity" in tags then tags["amenity"] else DefaultAmenity
  }

  /** `tags.get("amenity", "facility").replace("_", " ").title()`. */
  function FacilityType(tags: map<string, string>): string
  {
    TitleCase(ReplaceChar(Amenity(tags), '_', ' '))
  }

  /**
   * Formatting an amenity keeps its length, turns underscores into spaces,
   * upper-cases every character that does not follow a letter and
   * lower-cases every one that does.
   */
  lemma AmenityFormatting(a: string)
    ensures |TitleCase(ReplaceChar(a, '_', ' '))| == |a|
    ensures forall k :: 0 <= k < |a| ==> FormattedAt(a, TitleCase(ReplaceChar(a, '_', ' ')), k)
  {
    var s := ReplaceChar(a, '_', ' ');
    var t := TitleCase(s);
    forall k | 0 <= k < |a|
      ensures FormattedAt(a, t, k)
    {
      if k > 0 {
        assert IsAsciiLetter(s[k - 1]) == IsAsciiLetter(a[k - 1]);
      }
      if a[k] == '_' {
        assert s[k] == ' ';
      } else {
        assert s[k] == a[k];
      }
    }
  }

  /** Position `k` of the formatted amenity `t` against the raw amenity `a`. */
  predicate FormattedAt(a: string, t: string, k: int)
    requires 0 <= k < |a| && |t| == |a|
  {
    var c := if a[k] == '_' then ' ' else a[k];
    && t[k] == (if k > 0 && IsAsciiLetter(a[k - 1]) then Lower(c) else Upper(c))
    && (a[k] == '_' ==> t[k] == ' ')
    && ('a' <= a[k] <= 'z' && (k == 0 || !IsAsciiLetter(a[k - 1])) ==> 'A' <= t[k] <= 'Z')
    && ('A' <= a[k] <= 'Z' && k > 0 && IsAsciiLetter(a[k - 1]) ==> 'a' <= t[k] <= 'z')
  }

  // ---------------------------------------------------------------- shaping

  /**
   * One raw element as a `Hospital`, or None where the loop `continue`s: no
   * name but the placeholder and no operator, or a missing or zero coordinate.
   */
  function ShapePlace(e: Element, mapsUrl: (string, int, int) -> string): (r: Option<Hospital>)
    ensures r.Some? <==>
      && !(FacilityName(e.tags) == UnnamedFacility && !TagTruthy(e.tags, "operator"))
      && CoordTruthy(Latitude(e)) && CoordTruthy(Longitude(e))
    ensures r.Some? ==>
      && r.value.latitude != 0 && r.value.longitude != 0
      && r.value == Hospital(FacilityName(e.tags), FacilityType(e.tags), Latitude(e).value, Longitude(e).value,
                             Phone(e.tags), FullAddress(e.tags),
                             mapsUrl(FacilityName(e.tags), Latitude(e).value, Longitude(e).value))
  {
    var tags := e.tags;
    var name := FacilityName(tags);
    if name == UnnamedFacility && !TagTruthy(tags, "operator") then None
    else
      var lat := Latitude(e);
      var lon := Longitude(e);
      if !(CoordTruthy(lat) && CoordTruthy(lon)) then None
      else Some(Hospital(name, FacilityType(tags), lat.value, lon.value, Phone(tags), FullAddress(tags),
                         mapsUrl(name, lat.value, lon.value)))
  }

  /** The shaped elements, in input order, skipping those `ShapePlace` drops. */
  function ShapeAll(ps: seq<Element>, mapsUrl: (string, int, int) -> string): seq<Hospital>
  {
    if ps == [] then []
    else
      (if ShapePlace(ps[0], mapsUrl).Some? then [ShapePlace(ps[0], mapsUrl).value] else [])
      + ShapeAll(ps[1..], mapsUrl)
  }

  /** `raw_places[:20]`. */
  function FirstPlaces(raw: seq<Element>): (ps: seq<Element>)
    ensures |ps| <= ResultLimit && |ps| <= |raw| && ps == raw[..|ps|]
    ensures |raw| <= ResultLimit ==> ps == raw
  {
    if |raw| <= ResultLimit then raw else raw[..ResultLimit]
  }

  function FoundMessage(count: nat): string
  {
    "Found " + NatToString(count) + " facilities within search area."
  }

  /**
   * `find_nearby_hospitals`: the facilities and the response message, or the
   * HTTP error of a failed search. The wider search happens only when the
   * first answer is empty.
   */
  function NearbySearch(overpass: real -> OverpassOutcome, mapsUrl: (string, int, int) -> string)
    : (r: Result<(seq<Hospital>, string)>)
    ensures Search(overpass(DefaultRadius)).Err? ==> r == Err(Search(overpass(DefaultRadius)).error)
    ensures Search(overpass(DefaultRadius)) == Ok([]) && Search(overpass(ExpandedRadius)).Err? ==>
      r == Err(Search(overpass(ExpandedRadius)).error)
    ensures Search(overpass(DefaultRadius)) == Ok([]) && Search(overpass(ExpandedRadius)) == Ok([]) ==>
      r == Ok(([], NoFacilitiesMessage))
    ensures Search(overpass(DefaultRadius)).Ok? && Search(overpass(DefaultRadius)).value != [] ==>
      var hospitals := ShapeAll(FirstPlaces(Search(overpass(DefaultRadius)).value), mapsUrl);
      r == Ok((hospitals, FoundMessage(|hospitals|)))
    ensures Search(overpass(DefaultRadius)) == Ok([]) && Search(overpass(ExpandedRadius)).Ok?
            && Search(overpass(ExpandedRadius)).value != [] ==>
      var hospitals := ShapeAll(FirstPlaces(Search(overpass(ExpandedRadius)).value), mapsUrl);
      r == Ok((hospitals, FoundMessage(|hospitals|)))
    ensures r.Ok? && r.value.1 != NoFacilitiesMessage ==> r.value.1 == FoundMessage(|r.value.0|)
  {
    match Search(overpass(DefaultRadius))
    case Err(e) => Err(e)
    case Ok(first) =>
      var raw :=
        if first != [] then Ok(first)
        else Search(overpass(ExpandedRadius));
      if raw.Err? then Err(raw.error)
      else if raw.value == [] then Ok(([], NoFacilitiesMessage))
      else
        var hospitals := ShapeAll(FirstPlaces(raw.value), mapsUrl);
        Ok((hospitals, FoundMessage(|hospitals|)))
  }

  // ---------------------------------------------------------------- properties

  lemma {:induction false} ShapeAllAppend(ps: seq<Element>, p: Element, mapsUrl: (string, int, int) -> string)
    ensures ShapeAll(ps + [p], mapsUrl) ==
      ShapeAll(ps, mapsUrl) + (if ShapePlace(p, mapsUrl).Some? then [ShapePlace(p, mapsUrl).value] else [])
  {
    if ps != [] {
      assert (ps + [p])[1..] == ps[1..] + [p];
      ShapeAllAppend(ps[1..], p, mapsUrl);
    } else {
      assert ([p])[1..] == [];
    }
  }

  /** Shaping never adds entries. */
  lemma {:induction false} ShapeAllBound(ps: seq<Element>, mapsUrl: (string, int, int) -> string)
    ensures |ShapeAll(ps, mapsUrl)| <= |ps|
  {
    if ps != [] {
      ShapeAllBound(ps[1..], mapsUrl);
    }
  }

  /** A facility is in the result exactly when some element shapes into it. */
  lemma {:induction false} ShapeAllMembers(ps: seq<Element>, mapsUrl: (string, int, int) -> string, h: Hospital)
    ensures h in ShapeAll(ps, mapsUrl) <==> exists j :: 0 <= j < |ps| && ShapePlace(ps[j], mapsUrl) == Some(h)
  {
    if ps != [] {
      ShapeAllMembers(ps[1..], mapsUrl, h);
      if exists j :: 0 <= j < |ps| && ShapePlace(ps[j], mapsUrl) == Some(h) {
        var j :| 0 <= j < |ps| && ShapePlace(ps[j], mapsUrl) == Some(h);
        if j > 0 {
          assert ShapePlace(ps[1..][j - 1], mapsUrl) == Some(h);
        }
      }
      if exists j :: 0 <= j < |ps[1..]| && ShapePlace(ps[1..][j], mapsUrl) == Some(h) {
        var j :| 0 <= j < |ps[1..]| && ShapePlace(ps[1..][j], mapsUrl) == Some(h);
        assert ShapePlace(ps[j + 1], mapsUrl) == Some(h);
      }
    }
  }

  /**
   * Every facility that comes back is the shaping of one of the first 20
   * elements of the answer used: the 0.02 answer when it has elements,
   * otherwise the 0.05 one.
   */
  lemma NearbySearchSources(overpass: real -> OverpassOutcome, mapsUrl: (string, int, int) -> string, h: Hospital)
    requires NearbySearch(overpass, mapsUrl).Ok? && h in NearbySearch(overpass, mapsUrl).value.0
    ensures var first := Search(overpass(DefaultRadius));
      first.Ok? && first.value != [] ==>
        exists j :: 0 <= j < |FirstPlaces(first.value)| && ShapePlace(FirstPlaces(first.value)[j], mapsUrl) == Some(h)
    ensures var first := Search(overpass(DefaultRadius));
      var second := Search(overpass(ExpandedRadius));
      !(first.Ok? && first.value != []) ==>
        && first == Ok([]) && second.Ok?
        && exists j :: 0 <= j < |FirstPlaces(second.value)| && ShapePlace(FirstPlaces(second.value)[j], mapsUrl) == Some(h)
  {
    var first := Search(overpass(DefaultRadius));
    var second := Search(overpass(ExpandedRadius));
    if first.Ok? && first.value != [] {
      ShapeAllMembers(FirstPlaces(first.value), mapsUrl, h);
    } else {
      ShapeAllMembers(FirstPlaces(second.value), mapsUrl, h);
    }
  }

  /** At most 20 facilities come back. */
  lemma NearbySearchBound(overpass: real -> OverpassOutcome, mapsUrl: (string, int, int) -> string)
    ensures var r := NearbySearch(overpass, mapsUrl);
      r.Ok? ==> |r.value.0| <= ResultLimit
  {
    var first := Search(overpass(DefaultRadius));
    if first.Ok? {
      var raw := if first.value != [] then first else Search(overpass(ExpandedRadius));
      if raw.Ok? {
        ShapeAllBound(FirstPlaces(raw.value), mapsUrl);
      }
    }
  }

  /** When the first answer is not empty, the wider search is never consulted. */
  lemma WiderSearchOnlyWhenEmpty(overpass: real -> OverpassOutcome, other: real -> OverpassOutcome,
                                 mapsUrl: (string, int, int) -> string)
    requires overpass(DefaultRadius) == other(DefaultRadius)
    requires overpass(DefaultRadius) != Elements([])
    ensures NearbySearch(overpass, mapsUrl) == NearbySearch(other, mapsUrl)
  {
  }

  // ---------------------------------------------------------------- the endpoint

  /** The address block of the loop: the present parts, then `addr:full` or their join, or None. */
  method AssembleAddress(tags: map<string, string>) returns (address: Option<string>)
    ensures address == FullAddress(tags)
  {
    var addressParts: seq<string> := [];
    if TagTruthy(tags, "addr:housenumber") {
      addressParts := addressParts + [tags["addr:housenumber"]];
    }
    if TagTruthy(tags, "addr:street") {
      addressParts := addressParts + [tags["addr:street"]];
    }
    if TagTruthy(tags, "addr:city") {
      addressParts := addressParts + [tags["addr:city"]];
    }
    assert addressParts == AddressParts(tags);
    address :=
      if addressParts == [] then None
      else if TagTruthy(tags, "addr:full") then Some(tags["addr:full"])
      else Some(Join(", ", addressParts));
  }

  /** `find_nearby_hospitals`. */
  method FindNearbyHospitals(overpass: real -> OverpassOutcome, mapsUrl: (string, int, int) -> string)
    returns (r: Result<(seq<Hospital>, string)>)
    ensures r == NearbySearch(overpass, mapsUrl)
  {
    var search := Search(overpass(DefaultRadius));
    if search.Err? {
      return Err(search.error);
    }
    var rawPlaces := search.value;
    if rawPlaces == [] {
      search := Search(overpass(ExpandedRadius));
      if search.Err? {
        return Err(search.error);
      }
      rawPlaces := search.value;
    }
    if rawPlaces == [] {
      return Ok(([], NoFacilitiesMessage));
    }
    var places := FirstPlaces(rawPlaces);
    var hospitals: seq<Hospital> := [];
    var processedCount := 0;
    for i := 0 to |places|
      invariant hospitals == ShapeAll(places[..i], mapsUrl)
      invariant processedCount == |hospitals|
    {
      ShapeAllAppend(places[..i], places[i], mapsUrl);
      assert places[..i + 1] == places[..i] + [places[i]];
      var tags := places[i].tags;
      var name := FacilityName(tags);
      if name == UnnamedFacility && !TagTruthy(tags, "operator") {
        continue;
      }
      var lat := Latitude(places[i]);
      var lon := Longitude(places[i]);
      if !(CoordTruthy(lat) && CoordTruthy(lon)) {
        continue;
      }
      var url := mapsUrl(name, lat.value, lon.value);
      var fullAddress := AssembleAddress(tags);
      var hospital := Hospital(name, FacilityType(tags), lat.value, lon.value, Phone(tags), fullAddress, url);
      hospitals := hospitals + [hospital];
      processedCount := processedCount + 1;
    }
    assert places[..|places|] == places;
    r := Ok((hospitals, FoundMessage(|hospitals|)));
  }
}
