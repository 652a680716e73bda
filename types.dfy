/**
 * The value types of the plugin (module/src/types.ts and src/types.ts) and the
 * JavaScript values that flow through its query parameters.
 */
module Types {
  import opened Wrappers

  /** Identifier of a tracked entity, e.g. "vessels.urn:mrn:imo:mmsi:230099999". */
  type Context = string

  /**
   * A two-element coordinate array. The type is called a latitude/longitude
   * tuple, but the geometry helpers treat index 0 as the longitude (the axis
   * that wraps at the date line) and index 1 as the latitude.
   */
  type LatLngTuple = (real, real)

  datatype Position = Position(latitude: real, longitude: real)

  /** South-west and north-east corners, each as [longitude, latitude]. */
  datatype GeoBounds = GeoBounds(ne: LatLngTuple, sw: LatLngTuple)

  /** A JavaScript number as produced by `parseFloat`: finite, or NaN. */
  datatype Float = Finite(x: real) | NaN

  /** The values a query parameter takes before and after validation. */
  datatype QueryValue =
    | Text(text: string)      // raw query-string value
    | Number(number: Float)   // parsed radius
    | Bounds(bounds: GeoBounds)
    | Null

  /** JavaScript truthiness of a number that may be undefined: present, not NaN and not 0. */
  predicate TruthyNumber(v: Option<Float>) {
    v.Some? && v.value.Finite? && v.value.x != 0.0
  }

  /** JavaScript truthiness of a parameter: absent, null, NaN, 0 and "" are falsy. */
  predicate Truthy(v: Option<QueryValue>) {
    match v
    case None => false
    case Some(Text(s)) => s != ""
    case Some(Number(f)) => TruthyNumber(Some(f))
    case Some(Bounds(_)) => true
    case Some(Null) => false
  }

  function Get(params: map<string, QueryValue>, key: string): Option<QueryValue> {
    if key in params then Some(params[key]) else None
  }

  /** The request's query object, which the validators overwrite in place. */
  class QueryParameters {
    var entries: map<string, QueryValue>

    constructor (entries: map<string, QueryValue>)
      ensures this.entries == entries
    {
      this.entries := entries;
    }
  }

  /** A map from context to its track (TrackCollection, VesselCollection). */
  type TrackCollection = map<Context, seq<LatLngTuple>>
  type VesselCollection = map<Context, seq<Position>>
}
