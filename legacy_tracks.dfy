/**
 * The track store of the older plugin, src/tracks.ts: a registry of
 * accumulators keyed by any context (no namespace filter), with no initial
 * track, and a query that filters vessels on the last point of their track.
 *
 * Time is a parameter (`now`, in ms) where the source calls `Date.now()`, and
 * the haversine `distanceTo` is the parameter `distance`.
 */
module LegacyTracks {
  import opened Wrappers
  import opened Types
  import opened Pipeline
  import LegacyUtils

  /**
   * The plugin options the registry reads. `maxRadius` is read by
   * `filterVessels` although the `Config` interface does not declare it;
   * absent, it is `None`.
   */
  datatype Config = Config(resolution: int, pointsToKeep: int, maxAge: int, maxRadius: Option<Float>)

  /**
   * What the promise returned by `get` does at the time of the call: it
   * rejects, it has not settled yet (it settles once the throttle accepts a
   * first point), or it resolves to the track.
   */
  datatype Lookup = NotFound | Pending | Found(track: seq<Position>)

  /** The observable state of one accumulator. */
  datatype AccumulatorState = AccumulatorState(sampling: Sampler<Position>, latestPosition: int)
  {
    /** The first value of `track` (the replayed scan output), once there is one. */
    function Snapshot(): Lookup {
      if sampling.lastAccepted.None? then Pending else Found(sampling.buffer)
    }
  }

  /** At most `pointsToKeep` points, and none before the throttle has accepted one. */
  ghost predicate WellFormed(s: AccumulatorState, pointsToKeep: int) {
    && |s.sampling.buffer| <= Capacity(pointsToKeep)
    && (s.sampling.lastAccepted.None? ==> s.sampling.buffer == [])
  }

  function NewAccumulatorState(): AccumulatorState {
    AccumulatorState(Idle(), 0)
  }

  /** The state after `nextPosition(position)` at time `now`. */
  function Fed(s: AccumulatorState, position: Position, now: int, resolution: int, pointsToKeep: int): AccumulatorState {
    AccumulatorState(Step(s.sampling, Sample(now, position), resolution, pointsToKeep), now)
  }

  class TrackAccumulator {
    var accumulated: seq<Position>   // the array the scan last emitted
    var lastAccepted: Option<int>    // when the throttle last let a point through
    var latestPosition: int
    const resolution: int
    const pointsToKeep: int
    ghost const key: Context         // the registry entry this accumulator was created for

    ghost predicate Valid()
      reads this
    {
      WellFormed(State(), pointsToKeep)
    }

    function State(): AccumulatorState
      reads this
    {
      AccumulatorState(Sampler(accumulated, lastAccepted), latestPosition)
    }

    constructor (resolution: int, pointsToKeep: int, ghost key: Context)
      ensures Valid() && this.key == key
      ensures this.resolution == resolution && this.pointsToKeep == pointsToKeep
      ensures State() == NewAccumulatorState()
    {
      accumulated, lastAccepted, latestPosition := [], None, 0;
      this.resolution, this.pointsToKeep := resolution, pointsToKeep;
      this.key := key;
    }

    /** `nextPosition(position)`: throttle, scan, and a liveness stamp on every call. */
    method NextPosition(position: Position, now: int)
      requires Valid()
      modifies this
      ensures Valid()
      ensures latestPosition == now
      ensures Accepts(old(lastAccepted), now, resolution) ==>
        accumulated == LastN(old(accumulated) + [position], Capacity(pointsToKeep)) && lastAccepted == Some(now)
      ensures !Accepts(old(lastAccepted), now, resolution) ==>
        accumulated == old(accumulated) && lastAccepted == old(lastAccepted)
      ensures State() == Fed(old(State()), position, now, resolution, pointsToKeep)
    {
      if Accepts(lastAccepted, now, resolution) {
        var acc := accumulated + [position];
        accumulated := SliceFrom(acc, if |acc| - pointsToKeep > 0 then |acc| - pointsToKeep else 0);
        lastAccepted := Some(now);
      }
      latestPosition := now;
    }
  }

  /** Make sure `context` has an accumulator, as `getAccumulator(context)` does. */
  function WithAccumulator(m: map<Context, AccumulatorState>, context: Context): map<Context, AccumulatorState> {
    if context in m then m else m[context := NewAccumulatorState()]
  }

  /** The registry after `newPosition(context, position)` at time `now`; every context is accepted. */
  function AfterNewPosition(m: map<Context, AccumulatorState>, config: Config, context: Context,
                            position: Position, now: int): (r: map<Context, AccumulatorState>)
    ensures r.Keys == m.Keys + {context}
  {
    var m' := WithAccumulator(m, context);
    m'[context := Fed(m'[context], position, now, config.resolution, config.pointsToKeep)]
  }

  /** `prune`: every entry stamped strictly before the cutoff is deleted. */
  function Pruned(m: map<Context, AccumulatorState>, cutoff: int): map<Context, AccumulatorState> {
    map c | c in m && !(m[c].latestPosition < cutoff) :: m[c]
  }

  lemma PrunedEqual(n: map<Context, AccumulatorState>, m: map<Context, AccumulatorState>, cutoff: int)
    requires forall c :: c in n <==> c in m && !(m[c].latestPosition < cutoff)
    requires forall c | c in n :: n[c] == m[c]
    ensures n == Pruned(m, cutoff)
  {
  }

  /** The `forEach` of `prune` over a snapshot of the entries. */
  method PruneEntries(tracks: map<Context, TrackAccumulator>, ghost model: map<Context, AccumulatorState>, cutoff: int)
    returns (kept: map<Context, TrackAccumulator>, ghost pruned: map<Context, AccumulatorState>)
    requires model.Keys == tracks.Keys
    requires forall c | c in tracks :: tracks[c].latestPosition == model[c].latestPosition
    ensures pruned == Pruned(model, cutoff)
    ensures kept.Keys == pruned.Keys <= tracks.Keys
    ensures forall c | c in kept :: kept[c] == tracks[c] && pruned[c] == model[c]
  {
    kept := tracks;
    pruned := model;
    var entries := tracks.Keys;
    while entries != {}
      invariant entries <= kept.Keys == pruned.Keys <= tracks.Keys
      invariant forall c | c in kept :: kept[c] == tracks[c] && pruned[c] == model[c]
      invariant forall c | c in model ::
        (c in pruned <==> c in entries || !(model[c].latestPosition < cutoff))
      decreases entries
    {
      var key :| key in entries;
      if kept[key].latestPosition < cutoff {
        kept := kept - {key};
        pruned := pruned - {key};
      }
      entries := entries - {key};
    }
    PrunedEqual(pruned, model, cutoff);
  }

  /** The radius check applies when either radius is set and there is a reference position. */
  predicate RadiusApplies(config: Config, params: map<string, QueryValue>, position: Option<Position>) {
    (TruthyNumber(config.maxRadius) || Truthy(Get(params, "radius"))) && position.Some?
  }

  /** The radius used: the query's when truthy, else the configured one. */
  function RadiusUsed(config: Config, params: map<string, QueryValue>): real
    requires LegacyUtils.Validated(params)
    requires TruthyNumber(config.maxRadius) || Truthy(Get(params, "radius"))
  {
    if Truthy(Get(params, "radius")) then params["radius"].number.x else config.maxRadius.value.x
  }

  /**
   * Which tracks `filterVessels` lets through: all of them without query
   * parameters; otherwise a track must have a last point inside the box when
   * a box is given, and a last point within the radius when the radius check
   * applies.
   */
  predicate Passes(config: Config, t: seq<Position>, params: Option<map<string, QueryValue>>,
                   position: Option<Position>, distance: (Position, Position) -> real)
    requires params.Some? ==> LegacyUtils.Validated(params.value)
  {
    if params.None? || params.value == map[] then true
    else
      var q := params.value;
      && (Truthy(Types.Get(q, "geobounds")) ==>
            |t| > 0 && LegacyUtils.InBounds(Some(t[|t| - 1]), q["geobounds"].bounds))
      && (RadiusApplies(config, q, position) ==>
            |t| > 0 && distance(t[|t| - 1], position.value) <= RadiusUsed(config, q))
  }

  /**
   * `getAll(params, position)` at the time of the call: settled only when
   * every stored track has emitted, and then holding exactly the contexts
   * whose track passes.
   */
  function AllPassing(m: map<Context, AccumulatorState>, config: Config, params: Option<map<string, QueryValue>>,
                      position: Option<Position>, distance: (Position, Position) -> real): Option<VesselCollection>
    requires params.Some? ==> LegacyUtils.Validated(params.value)
  {
    if forall c | c in m :: m[c].Snapshot().Found?
    then Some(map c | c in m && Passes(config, m[c].sampling.buffer, params, position, distance) :: m[c].sampling.buffer)
    else None
  }

  lemma AllPassingEqual(res: VesselCollection, m: map<Context, AccumulatorState>, config: Config,
                        params: Option<map<string, QueryValue>>, position: Option<Position>,
                        distance: (Position, Position) -> real)
    requires params.Some? ==> LegacyUtils.Validated(params.value)
    requires forall c | c in m :: m[c].Snapshot().Found?
    requires forall c :: c in res <==> c in m && Passes(config, m[c].sampling.buffer, params, position, distance)
    requires forall c | c in res :: res[c] == m[c].sampling.buffer
    ensures AllPassing(m, config, params, position, distance) == Some(res)
  {
    assert res == map c | c in m && Passes(config, m[c].sampling.buffer, params, position, distance) :: m[c].sampling.buffer;
  }

  /**
   * After `getAll` has awaited every entry outside `pending`: `blocked` says
   * whether one of them never emitted, and `res` holds those that emitted and
   * passed.
   */
  ghost predicate Collected(m: map<Context, AccumulatorState>, config: Config, params: Option<map<string, QueryValue>>,
                            position: Option<Position>, distance: (Position, Position) -> real,
                            pending: set<Context>, res: VesselCollection, blocked: bool)
    requires params.Some? ==> LegacyUtils.Validated(params.value)
  {
    && (blocked <==> exists c | c in m && c !in pending :: !m[c].Snapshot().Found?)
    && (forall c :: c in res <==>
          c in m && c !in pending && m[c].Snapshot().Found? && Passes(config, m[c].sampling.buffer, params, position, distance))
    && (forall c | c in res :: res[c] == m[c].sampling.buffer)
  }

  /**
   * One more awaited entry, with the answer `look` of `get` and the verdict
   * `pass` of the filter. A rejection would be caught and skipped, but an
   * entry that is present never rejects.
   */
  lemma CollectStep(m: map<Context, AccumulatorState>, config: Config, params: Option<map<string, QueryValue>>,
                    position: Option<Position>, distance: (Position, Position) -> real,
                    pending: set<Context>, res: VesselCollection, blocked: bool, k: Context, look: Lookup, pass: bool)
    requires params.Some? ==> LegacyUtils.Validated(params.value)
    requires Collected(m, config, params, position, distance, pending, res, blocked)
    requires k in m && k in pending && look == m[k].Snapshot()
    requires look.Found? ==> pass == Passes(config, look.track, params, position, distance)
    ensures Collected(m, config, params, position, distance, pending - {k},
                      if look.Found? && pass then res[k := look.track] else res, blocked || look.Pending?)
  {
    if look.Pending? {
      assert !m[k].Snapshot().Found?;
    }
  }

  /** Once every entry is awaited, the collected answer is the one `AllPassing` describes. */
  lemma CollectedAll(m: map<Context, AccumulatorState>, config: Config, params: Option<map<string, QueryValue>>,
                     position: Option<Position>, distance: (Position, Position) -> real,
                     res: VesselCollection, blocked: bool)
    requires params.Some? ==> LegacyUtils.Validated(params.value)
    requires Collected(m, config, params, position, distance, {}, res, blocked)
    ensures AllPassing(m, config, params, position, distance) == if blocked then None else Some(res)
  {
    if !blocked {
      AllPassingEqual(res, m, config, params, position, distance);
    }
  }

  /** Without query parameters, or with an empty query object, every track passes. */
  lemma NoParamsPassesAll(config: Config, t: seq<Position>, position: Option<Position>,
                          distance: (Position, Position) -> real)
    ensures Passes(config, t, None, position, distance)
    ensures Passes(config, t, Some(map[]), position, distance)
  {
  }

  /** Only the last point of a track is consulted. */
  lemma OnlyLastPointMatters(config: Config, t: seq<Position>, params: Option<map<string, QueryValue>>,
                             position: Option<Position>, distance: (Position, Position) -> real)
    requires params.Some? ==> LegacyUtils.Validated(params.value)
    requires |t| > 0
    ensures Passes(config, t, params, position, distance) == Passes(config, [t[|t| - 1]], params, position, distance)
  {
  }

  /** An empty track passes a non-empty query only when neither check applies. */
  lemma EmptyTrackPassesOnlyUnchecked(config: Config, params: map<string, QueryValue>,
                                      position: Option<Position>, distance: (Position, Position) -> real)
    requires LegacyUtils.Validated(params) && params != map[]
    ensures Passes(config, [], Some(params), position, distance) <==>
      !Truthy(Get(params, "geobounds")) && !RadiusApplies(config, params, position)
  {
  }

  /** The query's radius takes precedence; the configured one is the fallback. */
  lemma QueryRadiusWins(config: Config, params: map<string, QueryValue>)
    requires LegacyUtils.Validated(params)
    ensures Truthy(Get(params, "radius")) ==> RadiusUsed(config, params) == params["radius"].number.x
    ensures !Truthy(Get(params, "radius")) && TruthyNumber(config.maxRadius) ==>
      RadiusUsed(config, params) == config.maxRadius.value.x
  {
  }

  /** Without a reference position, or with neither radius set, the radius is not checked. */
  lemma RadiusIgnoredWithoutPosition(config: Config, t: seq<Position>, params: map<string, QueryValue>,
                                     position: Option<Position>, distance: (Position, Position) -> real)
    requires LegacyUtils.Validated(params) && params != map[]
    requires position.None? || (!TruthyNumber(config.maxRadius) && !Truthy(Get(params, "radius")))
    ensures Passes(config, t, Some(params), position, distance) <==>
      (Truthy(Get(params, "geobounds")) ==> |t| > 0 && LegacyUtils.InBounds(Some(t[|t| - 1]), params["geobounds"].bounds))
  {
  }

  /** Every context is tracked: the older registry has no namespace filter. */
  lemma AnyContextIsTracked(m: map<Context, AccumulatorState>, config: Config, context: Context,
                            position: Position, now: int)
    ensures var m' := AfterNewPosition(m, config, context, position, now);
      && context in m'
      && (forall c | c in m && c != context :: m'[c] == m[c])
      && m'[context].latestPosition == now
      && m'[context].Snapshot().Found?
  {
  }

  /**
   * A registry fed only by `newPosition` and `prune` never holds an
   * accumulator without a track, so `getAll` is settled whenever it is called.
   */
  lemma FedRegistryAlwaysSettles(m: map<Context, AccumulatorState>, config: Config, context: Context,
                                 position: Position, now: int, cutoff: int,
                                 params: Option<map<string, QueryValue>>, where: Option<Position>,
                                 distance: (Position, Position) -> real)
    requires params.Some? ==> LegacyUtils.Validated(params.value)
    requires forall c | c in m :: m[c].Snapshot().Found?
    ensures var m' := AfterNewPosition(m, config, context, position, now);
      forall c | c in m' :: m'[c].Snapshot().Found?
    ensures var m' := Pruned(m, cutoff);
      forall c | c in m' :: m'[c].Snapshot().Found?
    ensures AllPassing(m, config, params, where, distance).Some?
  {
  }

  /** Registry operations keep every accumulator well formed. */
  lemma OperationsPreserveWellFormed(m: map<Context, AccumulatorState>, config: Config, context: Context,
                                     position: Position, now: int, cutoff: int)
    requires forall c | c in m :: WellFormed(m[c], config.pointsToKeep)
    ensures var m' := AfterNewPosition(m, config, context, position, now);
      forall c | c in m' :: WellFormed(m'[c], config.pointsToKeep)
    ensures var m' := Pruned(m, cutoff);
      forall c | c in m' :: WellFormed(m'[c], config.pointsToKeep)
  {
  }

  /** `prune` keeps exactly the entries stamped at or after the cutoff, unchanged. */
  lemma PruneKeepsExactlyFreshEntries(m: map<Context, AccumulatorState>, cutoff: int)
    ensures forall c :: c in Pruned(m, cutoff) <==> c in m && m[c].latestPosition >= cutoff
    ensures forall c | c in Pruned(m, cutoff) :: Pruned(m, cutoff)[c] == m[c]
  {
  }

  /** `positions` fed to `context` one after another, oldest first. */
  function FeedAll(m: map<Context, AccumulatorState>, config: Config, context: Context,
                   positions: seq<Sample<Position>>): (r: map<Context, AccumulatorState>)
    ensures m.Keys <= r.Keys
    decreases |positions|
  {
    if positions == [] then m
    else
      var x := positions[0];
      FeedAll(AfterNewPosition(m, config, context, x.value, x.time), config, context, positions[1..])
  }

  /** Feeding a stream of positions to one context runs that accumulator's pipeline. */
  lemma {:induction false} FeedAllRuns(m: map<Context, AccumulatorState>, config: Config, context: Context,
                                       positions: seq<Sample<Position>>)
    requires context in m
    ensures var m' := FeedAll(m, config, context, positions);
      && m'.Keys == m.Keys
      && (forall c | c in m && c != context :: m'[c] == m[c])
      && m'[context].sampling == Run(m[context].sampling, positions, config.resolution, config.pointsToKeep)
    decreases |positions|
  {
    if positions != [] {
      var x := positions[0];
      assert Sample(x.time, x.value) == x;
      FeedAllRuns(AfterNewPosition(m, config, context, x.value, x.time), config, context, positions[1..]);
    }
  }

  /** The stored track: the most recent `pointsToKeep` accepted points, in arrival order. */
  lemma FedTrackIsThrottledTail(m: map<Context, AccumulatorState>, config: Config, context: Context,
                                positions: seq<Sample<Position>>)
    requires context in m && WellFormed(m[context], config.pointsToKeep)
    ensures var s := m[context].sampling;
      FeedAll(m, config, context, positions)[context].sampling.buffer
        == LastN(s.buffer + Values(Throttle(s.lastAccepted, positions, config.resolution)), Capacity(config.pointsToKeep))
  {
    FeedAllRuns(m, config, context, positions);
    RunBuffer(m[context].sampling, positions, config.resolution, config.pointsToKeep);
  }

  class Tracks {
    var tracks: map<Context, TrackAccumulator>
    const config: Config
    /** The abstract registry: each context with the state of its accumulator. */
    ghost var model: map<Context, AccumulatorState>

    /** `a` is a well-formed accumulator created by this registry for `context`. */
    ghost predicate Holds(context: Context, a: TrackAccumulator)
      reads a
    {
      && a.key == context
      && a.Valid()
      && a.resolution == config.resolution
      && a.pointsToKeep == config.pointsToKeep
    }

    /** The accumulators `t` have the abstract states `m`. */
    ghost predicate Represents(t: map<Context, TrackAccumulator>, m: map<Context, AccumulatorState>)
      reads t.Values
    {
      && m.Keys == t.Keys
      && forall c | c in t :: Holds(c, t[c]) && t[c].State() == m[c]
    }

    ghost predicate Valid()
      reads this, tracks.Values
    {
      Represents(tracks, model)
    }

    constructor (config: Config)
      ensures Valid() && this.config == config && model == map[]
    {
      this.config := config;
      tracks := map[];
      model := map[];
    }

    /**
     * `getAccumulator(context, createIfMissing)`: the existing accumulator, or,
     * when asked to, a new one stored under `context`; all other entries kept.
     */
    method GetAccumulator(context: Context, createIfMissing: bool) returns (r: Option<TrackAccumulator>)
      requires Valid()
      modifies this
      ensures Valid()
      ensures context in old(tracks) ==> r == Some(old(tracks)[context]) && tracks == old(tracks)
      ensures context !in old(tracks) && !createIfMissing ==> r == None && tracks == old(tracks)
      ensures context !in old(tracks) && createIfMissing ==>
        r.Some? && fresh(r.value) && tracks == old(tracks)[context := r.value]
      ensures r.Some? ==> context in tracks && tracks[context] == r.value
      ensures model == if createIfMissing then WithAccumulator(old(model), context) else old(model)
    {
      if context in tracks {
        return Some(tracks[context]);
      }
      if !createIfMissing {
        return None;
      }
      var acc := Create(context);
      r := Some(acc);
    }

    /** The branch of `getAccumulator` that stores a new accumulator under `context`. */
    method Create(context: Context) returns (acc: TrackAccumulator)
      requires Valid() && context !in tracks
      modifies this
      ensures Valid() && fresh(acc)
      ensures tracks == old(tracks)[context := acc]
      ensures model == old(model)[context := NewAccumulatorState()]
    {
      acc := new TrackAccumulator(config.resolution, config.pointsToKeep, context);
      tracks := tracks[context := acc];
      model := model[context := acc.State()];
      forall c | c in tracks
        ensures Holds(c, tracks[c]) && tracks[c].State() == model[c]
      {
        if c != context {
          assert old(Holds(c, tracks[c]) && tracks[c].State() == model[c]);
        }
      }
    }

    /** `newPosition(context, position)` at time `now`. */
    method NewPosition(context: Context, position: Position, now: int)
      requires Valid()
      modifies this, tracks.Values
      ensures Valid()
      ensures model == AfterNewPosition(old(model), config, context, position, now)
    {
      var acc := GetAccumulator(context, true);
      Feed(context, acc.value, position, now);
    }

    /** `nextPosition` on the accumulator stored under `context`. */
    method Feed(context: Context, a: TrackAccumulator, position: Position, now: int)
      requires Valid() && context in tracks && tracks[context] == a
      modifies this, a
      ensures Valid() && tracks == old(tracks)
      ensures model == old(model)[context := Fed(old(model)[context], position, now, config.resolution, config.pointsToKeep)]
    {
      a.NextPosition(position, now);
      model := model[context := a.State()];
      forall c | c in tracks
        ensures Holds(c, tracks[c]) && tracks[c].State() == model[c]
      {
        if c != context {
          assert old(Holds(c, tracks[c]) && tracks[c].State() == model[c]);
          assert tracks[c] != a;
        }
      }
    }

    /** `get(context)`: never creates; rejects for a context without an accumulator. */
    method Get(context: Context) returns (r: Lookup)
      requires Valid()
      ensures context !in model ==> r == NotFound
      ensures context in model ==> r == model[context].Snapshot()
    {
      if context !in tracks {
        return NotFound;
      }
      var a := tracks[context];
      r := if a.lastAccepted.None? then Pending else Found(a.accumulated);
    }

    /**
     * `filterVessels(t, params, position)`: starts from true and only ever
     * turns false, once per check that applies and fails.
     */
    method FilterVessels(t: seq<Position>, params: Option<map<string, QueryValue>>, position: Option<Position>,
                         distance: (Position, Position) -> real) returns (result: bool)
      requires params.Some? ==> LegacyUtils.Validated(params.value)
      ensures result == Passes(config, t, params, position, distance)
    {
      result := true;
      if params.Some? && |params.value.Keys| != 0 {
        var q := params.value;
        var lastPoint: Option<Position> := if |t| != 0 then Some(t[|t| - 1]) else None;
        if Truthy(Types.Get(q, "geobounds")) {
          if lastPoint.Some? && LegacyUtils.InBounds(lastPoint, q["geobounds"].bounds) {
            result := result && true;
          } else {
            result := false;
          }
        }
        if (TruthyNumber(config.maxRadius) || Truthy(Types.Get(q, "radius"))) && position.Some? {
          var radius := if Truthy(Types.Get(q, "radius")) then q["radius"].number.x else config.maxRadius.value.x;
          if lastPoint.Some? && distance(lastPoint.value, position.value) <= radius {
            result := result && true;
          } else {
            result := false;
          }
        }
      } else {
        assert params.None? || params.value == map[];
      }
    }

    /**
     * `getAll(params, position)`: awaits each stored track in turn and keeps
     * the ones `filterVessels` passes; a track that has not emitted yet
     * leaves it unsettled at the time of the call.
     */
    method GetAll(params: Option<map<string, QueryValue>>, position: Option<Position>,
                  distance: (Position, Position) -> real) returns (r: Option<VesselCollection>)
      requires Valid()
      requires params.Some? ==> LegacyUtils.Validated(params.value)
      ensures r == AllPassing(model, config, params, position, distance)
    {
      var keys := tracks.Keys;
      var res: VesselCollection := map[];
      var blocked := false;
      while keys != {}
        invariant keys <= model.Keys
        invariant Collected(model, config, params, position, distance, keys, res, blocked)
        decreases keys
      {
        var k :| k in keys;
        var t := Get(k);
        ghost var res0, blocked0 := res, blocked;
        var pass := true;
        if t.Found? {
          pass := FilterVessels(t.track, params, position, distance);
          if pass {
            res := res[k := t.track];
          }
        } else if t.Pending? {
          blocked := true;
        }
        CollectStep(model, config, params, position, distance, keys, res0, blocked0, k, t, pass);
        keys := keys - {k};
      }
      CollectedAll(model, config, params, position, distance, res, blocked);
      if blocked {
        return None;
      }
      r := Some(res);
    }

    /** `prune(maxAge)` at time `now`. */
    method Prune(maxAge: int, now: int)
      requires Valid()
      modifies this
      ensures Valid()
      ensures forall c | c in tracks :: c in old(tracks) && tracks[c] == old(tracks)[c]
      ensures model == Pruned(old(model), now - maxAge)
    {
      var kept;
      ghost var m;
      kept, m := PruneEntries(tracks, model, now - maxAge);
      Install(kept, m);
    }

    /** Replace the entries by `kept`, whose abstract states are `m`. */
    method Install(kept: map<Context, TrackAccumulator>, ghost m: map<Context, AccumulatorState>)
      requires Represents(kept, m)
      modifies this
      ensures Valid() && tracks == kept && model == m
    {
      tracks, model := kept, m;
    }
  }
}
