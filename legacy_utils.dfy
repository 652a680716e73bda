/** The geometry and query helpers of the older plugin, src/utils.ts. */
module LegacyUtils {
  import opened Wrappers
  import opened Types
  import opened JsStrings
  import opened QueryParsing
  import Utils

  /**
   * `inBounds(position, bounds)`: closed containment of the latitude in
   * [sw[1], ne[1]] and the longitude in [sw[0], ne[0]], with no date-line
   * handling; a missing position is out.
   */
  function InBounds(position: Option<Position>, bounds: GeoBounds): (r: bool)
    ensures r ==> position.Some?
    ensures position.Some? ==>
      (r <==> (bounds.sw.1 <= position.value.latitude <= bounds.ne.1
               && bounds.sw.0 <= position.value.longitude <= bounds.ne.0))
  {
    if position.Some? then
      var p := position.value;
      p.latitude >= bounds.sw.1 && p.latitude <= bounds.ne.1
      && p.longitude >= bounds.sw.0 && p.longitude <= bounds.ne.0
    else false
  }

  /**
   * Against a box that stays west of 180 the older test agrees with the newer
   * one of module/src/utils.ts, once the position is written as [lon, lat].
   */
  lemma AgreesWithNewerInBounds(p: Position, b: GeoBounds)
    requires b.ne.0 <= 180.0
    ensures InBounds(Some(p), b) == Utils.Contains(b, Some((p.longitude, p.latitude)))
  {
  }

  /** A box written across the date line (west edge east of the east edge) holds no point. */
  lemma DateLineBoxIsEmpty(p: Position, b: GeoBounds)
    requires b.sw.0 > b.ne.0
    ensures !InBounds(Some(p), b)
  {
  }

  /** The shapes `filterVessels` works with: a parsed box or null, a number or null. */
  predicate Validated(params: map<string, QueryValue>) {
    && ("geobounds" in params ==> params["geobounds"].Bounds? || params["geobounds"].Null?)
    && ("radius" in params ==> params["radius"].Number? || params["radius"].Null?)
  }

  /**
   * `validateParameters(params)`: overwrites `geobounds` (when present) with
   * the parsed box or null, ALWAYS sets `radius` (null when it was absent),
   * leaves every other key alone, and returns the same object.
   */
  method ValidateParameters(params: QueryParameters, numeric: string -> bool, parseFloat: string -> Float)
    returns (r: QueryParameters)
    requires IsQueryString(params.entries, "geobounds") && IsQueryString(params.entries, "radius")
    modifies params
    ensures r == params
    ensures params.entries.Keys == old(params.entries).Keys + {"radius"}
    ensures forall k | k in params.entries && k != "geobounds" && k != "radius" :: params.entries[k] == old(params.entries)[k]
    ensures "geobounds" in params.entries ==>
      params.entries["geobounds"] == BoundsFromText(old(params.entries)["geobounds"].text, numeric, parseFloat)
    ensures params.entries["radius"] ==
      if "radius" in old(params.entries)
      then RadiusFromText(old(params.entries)["radius"].text, numeric, parseFloat)
      else Null
    ensures Validated(params.entries)
  {
    if "geobounds" in params.entries {
      var b := Survivors(Split(params.entries["geobounds"].text, ','), numeric, parseFloat);
      params.entries := params.entries["geobounds" := if |b| == 4 then Bounds(GeoBounds(ne := (b[2], b[3]), sw := (b[0], b[1]))) else Null];
    }
    // isNaN(undefined) holds, so an absent radius becomes null
    var radius := if "radius" in params.entries then
        (var text := params.entries["radius"].text; if numeric(text) then Number(parseFloat(text)) else Null)
      else Null;
    params.entries := params.entries["radius" := radius];
    r := params;
  }
}
