/** The geometry and query helpers of module/src/utils.ts. */
module Utils {
  import opened Wrappers
  import opened Types
  import opened JsStrings
  import opened QueryParsing

  /** A GeoBounds object as JavaScript holds it: its corners can be overwritten. */
  class BoundsObject {
    var ne: LatLngTuple
    var sw: LatLngTuple

    constructor (b: GeoBounds)
      ensures Value() == b
    {
      ne, sw := b.ne, b.sw;
    }

    function Value(): GeoBounds
      reads this
    {
      GeoBounds(ne, sw)
    }
  }

  /** A box whose west edge is east of 0 and east edge west of 0 spans the date line. */
  predicate SpansDateLine(b: GeoBounds) {
    b.sw.0 > 0.0 && b.ne.0 < 0.0
  }

  /** The bounds `bboxDateLineAlign` leaves behind: a date-line box gets its east edge moved by +360. */
  function DateLineAligned(b: GeoBounds): (r: GeoBounds)
    ensures r.sw == b.sw && r.ne.1 == b.ne.1
    ensures SpansDateLine(b) ==> r.ne.0 == b.ne.0 + 360.0
    ensures !SpansDateLine(b) ==> r == b
  {
    if SpansDateLine(b) then GeoBounds(ne := (360.0 + b.ne.0, b.ne.1), sw := b.sw) else b
  }

  /** `bboxDateLineAlign(bounds)`: overwrites `bounds.ne[0]` in place and returns the same object. */
  method BboxDateLineAlign(bounds: BoundsObject) returns (r: BoundsObject)
    modifies bounds
    ensures r == bounds
    ensures bounds.Value() == DateLineAligned(old(bounds.Value()))
  {
    if bounds.sw.0 > 0.0 && bounds.ne.0 < 0.0 {
      bounds.ne := (360.0 + bounds.ne.0, bounds.ne.1);
    }
    r := bounds;
  }

  /** Aligning twice is aligning once, unless the east edge was below -360. */
  lemma DateLineAlignedIdempotent(b: GeoBounds)
    requires b.ne.0 >= -360.0
    ensures DateLineAligned(DateLineAligned(b)) == DateLineAligned(b)
  {
  }

  /** The -360 bound is needed: an east edge of -400 is shifted again on a second call. */
  lemma DateLineAlignedNotIdempotentBelow()
    ensures var b := GeoBounds(ne := (-400.0, 10.0), sw := (10.0, -10.0));
      DateLineAligned(DateLineAligned(b)) != DateLineAligned(b)
  {
  }

  /** Closed containment of a [lon, lat] point in the rectangle spanned by sw and ne. */
  predicate InRectangle(b: GeoBounds, p: LatLngTuple) {
    b.sw.1 <= p.1 <= b.ne.1 && b.sw.0 <= p.0 <= b.ne.0
  }

  /**
   * Containment as `inBounds` decides it: against a box whose east edge lies
   * beyond 180 (an aligned date-line box), a western longitude counts as
   * longitude + 360. The latitude is never shifted; a missing position is out.
   */
  predicate Contains(b: GeoBounds, position: Option<LatLngTuple>) {
    position.Some? &&
    var p := position.value;
    InRectangle(b, if b.ne.0 > 180.0 && p.0 < 0.0 then (p.0 + 360.0, p.1) else p)
  }

  /** `inBounds(position, bounds)`: works on a copy, so the caller's position is untouched. */
  method InBounds(position: Option<LatLngTuple>, bounds: GeoBounds) returns (r: bool)
    ensures r == Contains(bounds, position)
  {
    if position.None? {
      return false;
    }
    var dlPosition := position.value;
    if bounds.ne.0 > 180.0 {
      if dlPosition.0 < 0.0 {
        dlPosition := (360.0 + dlPosition.0, dlPosition.1);
      }
    }
    r := dlPosition.1 >= bounds.sw.1 && dlPosition.1 <= bounds.ne.1
      && dlPosition.0 >= bounds.sw.0 && dlPosition.0 <= bounds.ne.0;
  }

  /** A box that does not reach past 180 is ordinary closed-rectangle containment. */
  lemma PlainBoxIsRectangle(b: GeoBounds, p: LatLngTuple)
    requires b.ne.0 <= 180.0
    ensures Contains(b, Some(p)) <==> InRectangle(b, p)
  {
  }

  /** Only the longitude is ever shifted; the latitude test is always the closed interval. */
  lemma LatitudeNeverShifted(b: GeoBounds, p: LatLngTuple)
    ensures Contains(b, Some(p)) ==> b.sw.1 <= p.1 <= b.ne.1
  {
  }

  /**
   * Aligning a box that spans the date line and testing it matches points on
   * both sides of the antimeridian: for longitudes in [-180, 180], a point is
   * inside iff its latitude is in range and its longitude is east of the west
   * edge OR west of the east edge.
   */
  lemma DateLineBoxContains(b: GeoBounds, p: LatLngTuple)
    requires SpansDateLine(b) && b.sw.0 <= 180.0 && b.ne.0 > -180.0
    requires -180.0 <= p.0 <= 180.0
    ensures Contains(DateLineAligned(b), Some(p))
        <==> b.sw.1 <= p.1 <= b.ne.1 && (b.sw.0 <= p.0 || p.0 <= b.ne.0)
  {
    var a := DateLineAligned(b);
    assert a.ne.0 > 180.0;
  }

  /**
   * The expectations of module/src/utils.test.ts, for `bboxDateLineAlign` then
   * `inBounds`. The test writes every pair as [lat, lng]; here each pair is
   * swapped to the [lon, lat] order the code reads.
   */
  lemma InBoundsTestVectors()
    ensures var plain := DateLineAligned(GeoBounds(ne := (175.0, 10.0), sw := (-10.0, -10.0)));
      && !Contains(plain, Some((176.0, -11.0)))
      && Contains(plain, Some((174.0, -9.0)))
      && !Contains(plain, Some((176.0, -9.0)))
      && !Contains(plain, Some((-11.0, 9.0)))
      && Contains(plain, Some((-10.0, 9.0)))
    ensures var crossing := DateLineAligned(GeoBounds(ne := (-175.0, 10.0), sw := (175.0, -10.0)));
      && !Contains(crossing, Some((176.0, -11.0)))
      && Contains(crossing, Some((176.0, -9.0)))
      && Contains(crossing, Some((-176.0, -9.0)))
      && !Contains(crossing, Some((-174.0, -9.0)))
      && !Contains(crossing, Some((-174.0, 9.0)))
      && Contains(crossing, Some((-176.0, 9.0)))
      && !Contains(crossing, Some((-176.0, 11.0)))
  {
  }

  /**
   * `validateParameters(params)`: overwrites `bbox` (when present) with the
   * parsed box or null and `radius` (when present) with the parsed number or
   * null, leaves every other key alone, and returns the same object.
   */
  method ValidateParameters(params: QueryParameters, numeric: string -> bool, parseFloat: string -> Float)
    returns (r: QueryParameters)
    requires IsQueryString(params.entries, "bbox") && IsQueryString(params.entries, "radius")
    modifies params
    ensures r == params
    ensures params.entries.Keys == old(params.entries).Keys
    ensures forall k | k in params.entries && k != "bbox" && k != "radius" :: params.entries[k] == old(params.entries)[k]
    ensures "bbox" in params.entries ==>
      params.entries["bbox"] == BoundsFromText(old(params.entries)["bbox"].text, numeric, parseFloat)
    ensures "radius" in params.entries ==>
      params.entries["radius"] == RadiusFromText(old(params.entries)["radius"].text, numeric, parseFloat)
  {
    if "bbox" in params.entries {
      var b := Survivors(Split(params.entries["bbox"].text, ','), numeric, parseFloat);
      params.entries := params.entries["bbox" := if |b| == 4 then Bounds(GeoBounds(ne := (b[2], b[3]), sw := (b[0], b[1]))) else Null];
    }
    if "radius" in params.entries {
      var radius := params.entries["radius"].text;
      params.entries := params.entries["radius" := if numeric(radius) then Number(parseFloat(radius)) else Null];
    }
    r := params;
  }

  /** `latLonTupleToPosition([a, b])`: index 0 is read as the longitude, index 1 as the latitude. */
  function LatLonTupleToPosition(value: LatLngTuple): (r: Position)
    ensures (r.longitude, r.latitude) == value
  {
    Position(longitude := value.0, latitude := value.1)
  }

  /** The conversion loses nothing: every Position comes from exactly one tuple. */
  lemma LatLonTupleToPositionInjective(a: LatLngTuple, b: LatLngTuple)
    ensures LatLonTupleToPosition(a) == LatLonTupleToPosition(b) <==> a == b
  {
  }

  lemma LatLonTupleToPositionOnto(p: Position)
    ensures LatLonTupleToPosition((p.longitude, p.latitude)) == p
  {
  }
}
