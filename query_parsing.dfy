/**
 * The bounding-box and radius parsing shared by both `validateParameters`
 * (module/src/utils.ts:36-53, src/utils.ts:18-25).
 *
 * JavaScript's coercing `isNaN(token)` and `parseFloat(token)` are given as
 * two parameters: `numeric(t)` is `!isNaN(t)`, `parseFloat(t)` the parsed
 * number (NaN included). They differ: `isNaN("")` is false while
 * `parseFloat("")` is NaN.
 */
module QueryParsing {
  import opened Wrappers
  import opened Types
  import opened JsStrings

  /** The `.map` callback: a numeric token becomes its parsed value, any other `undefined`. */
  function TokenValue(t: string, numeric: string -> bool, parseFloat: string -> Float): Option<Float> {
    if numeric(t) then Some(parseFloat(t)) else None
  }

  /**
   * `tokens.map(...).filter(...)`. The `.filter` callback returns the value
   * itself, so a token survives only when it is a truthy number
   * (`TruthyNumber`): NaN and 0 are dropped as well as `undefined`.
   */
  function Survivors(tokens: seq<string>, numeric: string -> bool, parseFloat: string -> Float): (r: seq<real>)
    ensures |r| <= |tokens|
    ensures forall i :: 0 <= i < |r| ==> r[i] != 0.0
  {
    if tokens == [] then []
    else
      var v := TokenValue(tokens[0], numeric, parseFloat);
      (if TruthyNumber(v) then [v.value.x] else []) + Survivors(tokens[1..], numeric, parseFloat)
  }

  /**
   * The new value of the box parameter: a box when exactly four coordinates
   * survive, the first two the south-west corner and the last two the
   * north-east one; null otherwise.
   */
  function BoundsFromText(s: string, numeric: string -> bool, parseFloat: string -> Float): (r: QueryValue)
    ensures r.Bounds? || r.Null?
    ensures var b := Survivors(Split(s, ','), numeric, parseFloat);
      && (r.Bounds? <==> |b| == 4)
      && (r.Bounds? ==> r.bounds.sw == (b[0], b[1]) && r.bounds.ne == (b[2], b[3]))
  {
    var b := Survivors(Split(s, ','), numeric, parseFloat);
    if |b| == 4 then Bounds(GeoBounds(ne := (b[2], b[3]), sw := (b[0], b[1]))) else Null
  }

  /** The new value of `radius`: its parsed number when the text is numeric, null otherwise. */
  function RadiusFromText(s: string, numeric: string -> bool, parseFloat: string -> Float): (r: QueryValue)
    ensures r.Number? || r.Null?
    ensures r.Number? <==> numeric(s)
    ensures r.Number? ==> r.number == parseFloat(s)
  {
    if numeric(s) then Number(parseFloat(s)) else Null
  }

  /** The entry `key`, when present, is still a raw query string. */
  predicate IsQueryString(params: map<string, QueryValue>, key: string) {
    key in params ==> params[key].Text?
  }

  /** Filtering distributes over concatenation of token lists. */
  lemma {:induction false} SurvivorsAppend(a: seq<string>, b: seq<string>, numeric: string -> bool, parseFloat: string -> Float)
    ensures Survivors(a + b, numeric, parseFloat) == Survivors(a, numeric, parseFloat) + Survivors(b, numeric, parseFloat)
    decreases |a|
  {
    if a != [] {
      assert (a + b)[0] == a[0] && (a + b)[1..] == a[1..] + b;
      SurvivorsAppend(a[1..], b, numeric, parseFloat);
      var v := TokenValue(a[0], numeric, parseFloat);
      var h := if TruthyNumber(v) then [v.value.x] else [];
      assert Survivors(a + b, numeric, parseFloat) == h + Survivors(a[1..] + b, numeric, parseFloat);
      assert Survivors(a, numeric, parseFloat) == h + Survivors(a[1..], numeric, parseFloat);
    } else {
      assert a + b == b;
    }
  }

  /** A token that does not survive leaves no trace: the others keep their order. */
  lemma DroppedTokenIgnored(a: seq<string>, t: string, b: seq<string>, numeric: string -> bool, parseFloat: string -> Float)
    requires !TruthyNumber(TokenValue(t, numeric, parseFloat))
    ensures Survivors(a + [t] + b, numeric, parseFloat) == Survivors(a + b, numeric, parseFloat)
  {
    SurvivorsAppend(a + [t], b, numeric, parseFloat);
    SurvivorsAppend(a, [t], numeric, parseFloat);
    SurvivorsAppend(a, b, numeric, parseFloat);
    assert Survivors([t], numeric, parseFloat) == [] by {
      assert [t][1..] == [];
    }
  }

  /** When every token survives, the survivors are the parsed tokens, in order. */
  lemma {:induction false} AllSurvive(tokens: seq<string>, numeric: string -> bool, parseFloat: string -> Float)
    requires forall i :: 0 <= i < |tokens| ==> numeric(tokens[i]) && parseFloat(tokens[i]).Finite? && parseFloat(tokens[i]).x != 0.0
    ensures |Survivors(tokens, numeric, parseFloat)| == |tokens|
    ensures forall i :: 0 <= i < |tokens| ==> Survivors(tokens, numeric, parseFloat)[i] == parseFloat(tokens[i]).x
    decreases |tokens|
  {
    if tokens != [] {
      AllSurvive(tokens[1..], numeric, parseFloat);
      var r := Survivors(tokens, numeric, parseFloat);
      assert r == [parseFloat(tokens[0]).x] + Survivors(tokens[1..], numeric, parseFloat);
      forall i | 1 <= i < |tokens|
        ensures r[i] == parseFloat(tokens[i]).x
      {
        assert tokens[1..][i - 1] == tokens[i];
      }
    }
  }

  /** Four numeric, non-zero tokens make a box: [lon1, lat1] south-west, [lon2, lat2] north-east. */
  lemma FourCoordinatesMakeBounds(s: string, numeric: string -> bool, parseFloat: string -> Float)
    requires |Split(s, ',')| == 4
    requires var t := Split(s, ',');
      forall i :: 0 <= i < 4 ==> numeric(t[i]) && parseFloat(t[i]).Finite? && parseFloat(t[i]).x != 0.0
    ensures var t := Split(s, ',');
      BoundsFromText(s, numeric, parseFloat)
        == Bounds(GeoBounds(ne := (parseFloat(t[2]).x, parseFloat(t[3]).x), sw := (parseFloat(t[0]).x, parseFloat(t[1]).x)))
  {
    AllSurvive(Split(s, ','), numeric, parseFloat);
  }

  /**
   * A zero coordinate (a box touching the equator or the prime meridian) or a
   * NaN one is dropped, so four such tokens give `null`: no box filter at all.
   */
  lemma ZeroCoordinateDropsBounds(s: string, k: nat, numeric: string -> bool, parseFloat: string -> Float)
    requires |Split(s, ',')| == 4 && k < 4
    requires !TruthyNumber(TokenValue(Split(s, ',')[k], numeric, parseFloat))
    ensures BoundsFromText(s, numeric, parseFloat) == Null
  {
    var t := Split(s, ',');
    assert t == t[..k] + [t[k]] + t[k + 1..];
    DroppedTokenIgnored(t[..k], t[k], t[k + 1..], numeric, parseFloat);
    assert |Survivors(t[..k] + t[k + 1..], numeric, parseFloat)| <= 3;
  }

  /** Tokens that are not numbers ("x", "") are skipped; five tokens with one bad can still make a box. */
  lemma NonNumericTokenSkipped(a: seq<string>, t: string, b: seq<string>, numeric: string -> bool, parseFloat: string -> Float)
    requires !numeric(t)
    ensures Survivors(a + [t] + b, numeric, parseFloat) == Survivors(a + b, numeric, parseFloat)
  {
    DroppedTokenIgnored(a, t, b, numeric, parseFloat);
  }
}
