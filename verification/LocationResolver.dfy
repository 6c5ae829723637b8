/**
 * The location handling of `detectLocation`
 * (app/pages/index/index.js:188-218): pick the device's coordinates, or
 * geocode the formatted address when there are none, and keep only the
 * `latitude` and `longitude` fields. The locator and the geocoder are foreign
 * calls; their answers are parameters.
 */
module LocationResolver {
  import opened Wrappers

  /** A plain JavaScript object with numeric fields, by field name. */
  type Obj = map<string, real>

  const CoordinateKeys: set<string> := {"latitude", "longitude"}

  /** `_.pick(o, keys...)`: the fields of `o` whose names are in `keys`, nothing else. */
  function Pick(o: Obj, keys: set<string>): (r: Obj)
    ensures r.Keys == o.Keys * keys
    ensures forall k :: k in r ==> r[k] == o[k]
  {
    map k | k in o.Keys && k in keys :: o[k]
  }

  /**
   * What the geocoding step produces: a list of candidates, one candidate, or
   * nothing usable. The last covers a geocoder that cannot be created and a
   * callback called with `null` or `undefined`; both make the step throw.
   */
  datatype GeoResult = Candidates(list: seq<Obj>) | Single(candidate: Obj) | Unusable

  /**
   * `result[0] || result` as far as `_.pick` is concerned. A non-empty list
   * gives its first candidate (an object is always truthy). An empty list gives
   * the array itself, which has no coordinate fields. A single candidate is
   * used directly unless it has a truthy field named "0", which is then picked
   * from instead; a number has no fields to pick. Nothing usable throws.
   */
  function Chosen(g: GeoResult): (o: Option<Obj>)
    ensures o.None? <==> g.Unusable?
    ensures g.Candidates? && |g.list| > 0 ==> o == Some(g.list[0])
    ensures g.Candidates? && |g.list| == 0 ==> o == Some(map[])
    ensures g.Single? && !("0" in g.candidate && g.candidate["0"] != 0.0) ==> o == Some(g.candidate)
    ensures g.Single? && "0" in g.candidate && g.candidate["0"] != 0.0 ==> o == Some(map[])
  {
    match g
    case Candidates(list) => if |list| > 0 then Some(list[0]) else Some(map[])
    case Single(c) => if "0" in c && c["0"] != 0.0 then Some(map[]) else Some(c)
    case Unusable => None
  }

  /** What the device locator resolves with, when it resolves with something. */
  datatype Location = Location(coords: Option<Obj>, formattedAddress: Option<string>)

  /** The locator either rejects or resolves with a location or with nothing. */
  datatype Located = Rejected | Resolved(location: Option<Location>)

  /**
   * The coordinates `detectLocation` attaches to a location it was given, or
   * nothing when the geocoding step it needed threw.
   */
  function NormalisedCoords(loc: Location, geocoded: GeoResult): (c: Option<Obj>)
    ensures c.None? <==> loc.coords.None? && geocoded.Unusable?
    ensures c.Some? ==> c.value.Keys <= CoordinateKeys
    ensures c.Some? ==>
      var source := if loc.coords.Some? then loc.coords.value else Chosen(geocoded).value;
      forall k :: k in CoordinateKeys ==> (k in c.value <==> k in source) && (k in c.value ==> c.value[k] == source[k])
  {
    if loc.coords.Some? then Some(Pick(loc.coords.value, CoordinateKeys))
    else match Chosen(geocoded)
      case Some(o) => Some(Pick(o, CoordinateKeys))
      case None => None
  }

  /** The outcome of `detectLocation`: it rejected, found no location, or found these coordinates. */
  datatype Detection = Failed | NoLocation | Found(coords: Obj)

  /**
   * `detectLocation`: a rejection of the locator propagates, and so does a
   * geocoding step that throws; no location leaves the user alone; a location
   * yields coordinates holding at most a latitude and a longitude. The
   * geocoder's answer matters only when the locator gave no coordinates.
   */
  function DetectLocation(located: Located, geocoded: GeoResult): (d: Detection)
    ensures d.Failed? <==>
      located.Rejected? ||
      (located.Resolved? && located.location.Some? && located.location.value.coords.None? && geocoded.Unusable?)
    ensures d.NoLocation? <==> located == Resolved(None)
    ensures d.Found? ==> d.coords.Keys <= CoordinateKeys
    ensures d.Found? ==> Some(d.coords) == NormalisedCoords(located.location.value, geocoded)
  {
    match located
    case Rejected => Failed
    case Resolved(None) => NoLocation
    case Resolved(Some(loc)) =>
      match NormalisedCoords(loc, geocoded)
      case Some(c) => Found(c)
      case None => Failed
  }

  /** Normalising twice changes nothing: the result already holds only the coordinate fields. */
  lemma NormaliseIdempotent(loc: Location, geocoded: GeoResult, other: GeoResult)
    requires NormalisedCoords(loc, geocoded).Some?
    ensures var c := NormalisedCoords(loc, geocoded).value;
      NormalisedCoords(Location(Some(c), loc.formattedAddress), other) == Some(c)
  {
    var c := NormalisedCoords(loc, geocoded).value;
    assert c.Keys <= CoordinateKeys;
    assert Pick(c, CoordinateKeys) == c;
    assert NormalisedCoords(Location(Some(c), loc.formattedAddress), other) == Some(Pick(c, CoordinateKeys));
  }
}
