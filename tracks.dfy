/**
 * The track store of module/src/tracks.ts: a registry `Tracks` that maps each
 * context to its `TrackAccumulator`, creating accumulators on write and never
 * on read, and evicting idle ones on `prune`.
 *
 * Time is a parameter (`now`, in ms) where the source calls `Date.now()`.
 */
module Tracks {
  import opened Wrappers
  import opened Types
  import opened JsStrings
  import opened Pipeline

  datatype TracksConfig = TracksConfig(resolution: int, pointsToKeep: int, fetchInitialTrack: bool)

  datatype AccumulatorParams = AccumulatorParams(resolution: int, pointsToKeep: int, fetchTrackFor: Option<Context>)

  /**
   * What the promise returned by `get` does at the time of the call: it
   * rejects, it has not settled yet (it settles once the throttle accepts a
   * first point), or it resolves to the track.
   */
  datatype Lookup = NotFound | Pending | Found(track: seq<LatLngTuple>)

  /** The observable state of one accumulator. */
  datatype AccumulatorState = AccumulatorState(
    initialTrack: seq<LatLngTuple>,
    sampling: Sampler<LatLngTuple>,
    latestLatLngTuple: int)
  {
    /**
     * The first value of `combineLatest([initialTrack, accumulatedTrack])`:
     * nothing until the throttle has let one point through, then the initial
     * prefix followed by the accumulated points.
     */
    function Snapshot(): Lookup {
      if sampling.lastAccepted.None? then Pending else Found(initialTrack + sampling.buffer)
    }
  }

  /**
   * What every accumulator keeps: at most `pointsToKeep` points, and none
   * before the throttle has accepted one.
   */
  ghost predicate WellFormed(s: AccumulatorState, pointsToKeep: int) {
    && |s.sampling.buffer| <= Capacity(pointsToKeep)
    && (s.sampling.lastAccepted.None? ==> s.sampling.buffer == [])
  }

  function NewAccumulatorState(): AccumulatorState {
    AccumulatorState([], Idle(), 0)
  }

  /** The state after `nextLatLngTuple(position)` at time `now`. */
  function Fed(s: AccumulatorState, position: LatLngTuple, now: int, resolution: int, pointsToKeep: int): AccumulatorState {
    AccumulatorState(s.initialTrack, Step(s.sampling, Sample(now, position), resolution, pointsToKeep), now)
  }

  /** Only contexts that contain "vessels." or "aircraft." anywhere are tracked. */
  predicate IsTrackedContext(context: Context) {
    IndexOf(context, "vessels.") != -1 || IndexOf(context, "aircraft.") != -1
  }

  ghost predicate AllTracked(contexts: set<Context>) {
    forall c | c in contexts :: IsTrackedContext(c)
  }

  function FetchTrackFor(config: TracksConfig, context: Context): Option<Context> {
    if config.fetchInitialTrack then Some(context) else None
  }

  class TrackAccumulator {
    var initialTrack: seq<LatLngTuple>   // current value of the initialTrack subject
    var accumulated: seq<LatLngTuple>    // the array the scan last emitted
    var lastAccepted: Option<int>        // when the throttle last let a point through
    var latestLatLngTuple: int
    const resolution: int
    const pointsToKeep: int
    const fetchTrackFor: Option<Context>
    ghost const key: Context             // the registry entry this accumulator was created for

    ghost predicate Valid()
      reads this
    {
      WellFormed(State(), pointsToKeep)
    }

    function State(): AccumulatorState
      reads this
    {
      AccumulatorState(initialTrack, Sampler(accumulated, lastAccepted), latestLatLngTuple)
    }

    constructor (params: AccumulatorParams, ghost key: Context)
      ensures Valid() && this.key == key
      ensures resolution == params.resolution && pointsToKeep == params.pointsToKeep
      ensures fetchTrackFor == params.fetchTrackFor
      ensures State() == NewAccumulatorState()
    {
      initialTrack, accumulated, lastAccepted, latestLatLngTuple := [], [], None, 0;
      resolution, pointsToKeep, fetchTrackFor := params.resolution, params.pointsToKeep, params.fetchTrackFor;
      this.key := key;
    }

    /**
     * `nextLatLngTuple(position)`: the point goes through the throttle and the
     * scan; the liveness stamp is set on every call, accepted or not.
     */
    method NextLatLngTuple(position: LatLngTuple, now: int)
      requires Valid()
      modifies this
      ensures Valid()
      ensures latestLatLngTuple == now && initialTrack == old(initialTrack)
      ensures Accepts(old(lastAccepted), now, resolution) ==>
        accumulated == LastN(old(accumulated) + [position], Capacity(pointsToKeep)) && lastAccepted == Some(now)
      ensures !Accepts(old(lastAccepted), now, resolution) ==>
        accumulated == old(accumulated) && lastAccepted == old(lastAccepted)
      ensures State() == Fed(old(State()), position, now, resolution, pointsToKeep)
    {
      if Accepts(lastAccepted, now, resolution) {
        var acc := accumulated + [position];
        accumulated := SliceFrom(acc, if |acc| - pointsToKeep > 0 then |acc| - pointsToKeep else 0);
        lastAccepted := Some(now);
      }
      latestLatLngTuple := now;
    }

    /** `setInitialTrack(track)`: replaces the prefix; the live buffer is untouched. */
    method SetInitialTrack(track: seq<LatLngTuple>)
      requires Valid()
      modifies this
      ensures Valid()
      ensures initialTrack == track
      ensures State() == old(State()).(initialTrack := track)
    {
      initialTrack := track;
    }
  }

  /** Make sure `context` has an accumulator, as `getAccumulator(context)` does. */
  function WithAccumulator(m: map<Context, AccumulatorState>, context: Context): map<Context, AccumulatorState> {
    if context in m then m else m[context := NewAccumulatorState()]
  }

  /** The registry after `newPosition(context, position)` at time `now`. */
  function AfterNewPosition(m: map<Context, AccumulatorState>, config: TracksConfig, context: Context,
                            position: LatLngTuple, now: int): map<Context, AccumulatorState>
  {
    if !IsTrackedContext(context) then m
    else
      var m' := WithAccumulator(m, context);
      m'[context := Fed(m'[context], position, now, config.resolution, config.pointsToKeep)]
  }

  /** The registry after `initialTrack(context, track)`. */
  function AfterInitialTrack(m: map<Context, AccumulatorState>, context: Context,
                             track: seq<LatLngTuple>): map<Context, AccumulatorState>
  {
    if !IsTrackedContext(context) then m
    else
      var m' := WithAccumulator(m, context);
      m'[context := m'[context].(initialTrack := track)]
  }

  function Snapshots(m: map<Context, AccumulatorState>): map<Context, Lookup> {
    map c | c in m :: m[c].Snapshot()
  }

  lemma SnapshotsEqual(lookups: map<Context, Lookup>, m: map<Context, AccumulatorState>)
    requires forall c :: c in lookups <==> c in m
    requires forall c | c in lookups :: lookups[c] == m[c].Snapshot()
    ensures lookups == Snapshots(m)
  {
  }

  /**
   * `Promise.all` at the time of the call: settled only when every lookup has
   * resolved. A `NotFound` lookup also gives `None` here, where `Promise.all`
   * would reject; `AllTracks` passes only snapshots, which are never
   * `NotFound`, so that case does not arise.
   */
  function AllSettled(lookups: map<Context, Lookup>): Option<TrackCollection> {
    if forall c | c in lookups :: lookups[c].Found?
    then Some(map c | c in lookups :: lookups[c].track)
    else None
  }

  /** `getAllTracks()`: a `get` of every context, gathered by `Promise.all`. */
  function AllTracks(m: map<Context, AccumulatorState>): Option<TrackCollection> {
    AllSettled(Snapshots(m))
  }

  /** Waits for every lookup in turn, as `Promise.all` does. */
  method SettleAll(lookups: map<Context, Lookup>) returns (r: Option<TrackCollection>)
    ensures r == AllSettled(lookups)
  {
    var keys := lookups.Keys;
    var collected: TrackCollection := map[];
    var settled := true;
    while keys != {}
      invariant keys <= lookups.Keys
      invariant settled <==> forall c | c in lookups && c !in keys :: lookups[c].Found?
      invariant forall c :: c in collected <==> c in lookups && c !in keys && lookups[c].Found?
      invariant forall c | c in collected :: collected[c] == lookups[c].track
      decreases keys
    {
      var k :| k in keys;
      if lookups[k].Found? {
        collected := collected[k := lookups[k].track];
      } else {
        settled := false;
      }
      keys := keys - {k};
    }
    if settled {
      assert collected == map c | c in lookups :: lookups[c].track;
      return Some(collected);
    }
    return None;
  }

  /** The `reduce` of `getFilteredTracks`: keep the contexts whose track the matcher accepts. */
  function Filtered(all: Option<TrackCollection>, matcher: seq<LatLngTuple> -> bool): Option<TrackCollection> {
    match all
    case None => None
    case Some(t) => Some(map c | c in t && matcher(t[c]) :: t[c])
  }

  /** The `reduce` over `Object.keys(allTracks)` in `getFilteredTracks`. */
  method FilterCollection(tracks: TrackCollection, matcher: seq<LatLngTuple> -> bool) returns (kept: TrackCollection)
    ensures Some(kept) == Filtered(Some(tracks), matcher)
  {
    var keys := tracks.Keys;
    kept := map[];
    while keys != {}
      invariant keys <= tracks.Keys
      invariant forall c :: c in kept <==> c in tracks && c !in keys && matcher(tracks[c])
      invariant forall c | c in kept :: kept[c] == tracks[c]
      decreases keys
    {
      var c :| c in keys;
      if matcher(tracks[c]) {
        kept := kept[c := tracks[c]];
      }
      keys := keys - {c};
    }
    assert kept == map c | c in tracks && matcher(tracks[c]) :: tracks[c];
  }

  lemma PrunedEqual(n: map<Context, AccumulatorState>, m: map<Context, AccumulatorState>, cutoff: int)
    requires forall c :: c in n <==> c in m && !(m[c].latestLatLngTuple < cutoff)
    requires forall c | c in n :: n[c] == m[c]
    ensures n == Pruned(m, cutoff)
  {
  }

  /**
   * The `forEach` of `prune` over a snapshot of the entries: the ones stamped
   * before the cutoff are dropped, the others kept as they are.
   */
  method PruneEntries(tracks: map<Context, TrackAccumulator>, ghost model: map<Context, AccumulatorState>, cutoff: int)
    returns (kept: map<Context, TrackAccumulator>, ghost pruned: map<Context, AccumulatorState>)
    requires model.Keys == tracks.Keys
    requires forall c | c in tracks :: tracks[c].latestLatLngTuple == model[c].latestLatLngTuple
    ensures pruned == Pruned(model, cutoff)
    ensures kept.Keys == pruned.Keys <= tracks.Keys
    ensures forall c | c in kept :: kept[c] == tracks[c] && pruned[c] == model[c]
  {
    kept := tracks;
    pruned := model;
    var entries := tracks.Keys;
    while entries != {}
      invariant entries <= kept.Keys == pruned.Keys <= tracks.Keys
      invariant forall c | c in kept :: kept[c] == tracks[c] && pruned[c] == model[c]
      invariant forall c | c in model ::
        (c in pruned <==> c in entries || !(model[c].latestLatLngTuple < cutoff))
      decreases entries
    {
      var key :| key in entries;
      if kept[key].latestLatLngTuple < cutoff {
        kept := kept - {key};
        pruned := pruned - {key};
      }
      entries := entries - {key};
    }
    PrunedEqual(pruned, model, cutoff);
  }

  /** `prune`: every entry stamped strictly before the cutoff is deleted. */
  function Pruned(m: map<Context, AccumulatorState>, cutoff: int): map<Context, AccumulatorState> {
    map c | c in m && !(m[c].latestLatLngTuple < cutoff) :: m[c]
  }

  /** `positions` fed to `context` one after another, oldest first. */
  function FeedAll(m: map<Context, AccumulatorState>, config: TracksConfig, context: Context,
                   positions: seq<Sample<LatLngTuple>>): (r: map<Context, AccumulatorState>)
    ensures m.Keys <= r.Keys
    decreases |positions|
  {
    if positions == [] then m
    else
      var x := positions[0];
      FeedAll(AfterNewPosition(m, config, context, x.value, x.time), config, context, positions[1..])
  }

  /** The namespace test is a substring test on either namespace, not a prefix test. */
  lemma TrackedIsSubstringTest(context: Context)
    ensures IsTrackedContext(context) <==>
      (exists j :: OccursAt(context, "vessels.", j)) || (exists j :: OccursAt(context, "aircraft.", j))
  {
  }

  lemma TrackedContextExamples()
    ensures IsTrackedContext("vessels.urn:mrn:imo:mmsi:230099999")
    ensures IsTrackedContext("aircraft.urn:mrn:icao:40621d")
    ensures IsTrackedContext("shore.vessels.tender")
    ensures !IsTrackedContext("atons.a1")
    ensures !IsTrackedContext("vessels")
  {
    assert OccursAt("vessels.urn:mrn:imo:mmsi:230099999", "vessels.", 0);
    assert OccursAt("aircraft.urn:mrn:icao:40621d", "aircraft.", 0);
    assert OccursAt("shore.vessels.tender", "vessels.", 6);
    assert "atons.a1"[0..8][0] != "vessels."[0];
  }

  /** An untracked context leaves the registry as it was. */
  lemma UntrackedContextIgnored(m: map<Context, AccumulatorState>, config: TracksConfig, context: Context,
                                position: LatLngTuple, now: int, track: seq<LatLngTuple>)
    requires !IsTrackedContext(context)
    ensures AfterNewPosition(m, config, context, position, now) == m
    ensures AfterInitialTrack(m, context, track) == m
  {
  }

  /**
   * `newPosition` on a tracked context touches that entry only (creating it if
   * needed), stamps it with `now` whatever the throttle decides, keeps its
   * initial track, and leaves it with a visible track.
   */
  lemma NewPositionTouchesOneEntry(m: map<Context, AccumulatorState>, config: TracksConfig, context: Context,
                                   position: LatLngTuple, now: int)
    requires IsTrackedContext(context)
    ensures var m' := AfterNewPosition(m, config, context, position, now);
      && m'.Keys == m.Keys + {context}
      && (forall c | c in m && c != context :: m'[c] == m[c])
      && m'[context].latestLatLngTuple == now
      && m'[context].initialTrack == (if context in m then m[context].initialTrack else [])
      && m'[context].Snapshot().Found?
  {
  }

  /** `initialTrack` replaces the prefix only; a context created by it has no track yet. */
  lemma InitialTrackReplacesPrefix(m: map<Context, AccumulatorState>, context: Context, track: seq<LatLngTuple>)
    requires IsTrackedContext(context)
    ensures var m' := AfterInitialTrack(m, context, track);
      && m'.Keys == m.Keys + {context}
      && (forall c | c in m && c != context :: m'[c] == m[c])
      && m'[context].initialTrack == track
      && m'[context].sampling == (if context in m then m[context].sampling else Idle())
      && m'[context].latestLatLngTuple == (if context in m then m[context].latestLatLngTuple else 0)
      && (context !in m ==> m'[context].Snapshot() == Pending)
  {
  }

  /**
   * A context that only received an initial track keeps `getAllTracks` from
   * settling at the time of the call: its track observable has not emitted
   * yet, and will once the throttle accepts a first point.
   */
  lemma SeededContextBlocksAllTracks(m: map<Context, AccumulatorState>, context: Context, track: seq<LatLngTuple>)
    requires IsTrackedContext(context) && context !in m
    ensures AllTracks(AfterInitialTrack(m, context, track)) == None
  {
    var m' := AfterInitialTrack(m, context, track);
    assert Snapshots(m')[context] == Pending;
  }

  /** Once every context has a track, feeding a position keeps it that way. */
  lemma NewPositionKeepsAllTracksSettled(m: map<Context, AccumulatorState>, config: TracksConfig, context: Context,
                                         position: LatLngTuple, now: int)
    requires AllTracks(m).Some?
    ensures AllTracks(AfterNewPosition(m, config, context, position, now)).Some?
  {
    var m' := AfterNewPosition(m, config, context, position, now);
    forall c | c in Snapshots(m')
      ensures Snapshots(m')[c].Found?
    {
      if c != context || !IsTrackedContext(context) {
        assert Snapshots(m)[c].Found?;
      } else {
        NewPositionTouchesOneEntry(m, config, context, position, now);
      }
    }
  }

  /** Registry operations keep every accumulator well formed. */
  lemma OperationsPreserveWellFormed(m: map<Context, AccumulatorState>, config: TracksConfig, context: Context,
                                     position: LatLngTuple, now: int, track: seq<LatLngTuple>, cutoff: int)
    requires forall c | c in m :: WellFormed(m[c], config.pointsToKeep)
    ensures var m' := AfterNewPosition(m, config, context, position, now);
      forall c | c in m' :: WellFormed(m'[c], config.pointsToKeep)
    ensures var m' := AfterInitialTrack(m, context, track);
      forall c | c in m' :: WellFormed(m'[c], config.pointsToKeep)
    ensures var m' := Pruned(m, cutoff);
      forall c | c in m' :: WellFormed(m'[c], config.pointsToKeep)
  {
  }

  /** Feeding a stream of positions to one context runs that accumulator's pipeline. */
  lemma {:induction false} FeedAllRuns(m: map<Context, AccumulatorState>, config: TracksConfig, context: Context,
                                       positions: seq<Sample<LatLngTuple>>)
    requires IsTrackedContext(context) && context in m
    ensures var m' := FeedAll(m, config, context, positions);
      && m'.Keys == m.Keys
      && (forall c | c in m && c != context :: m'[c] == m[c])
      && m'[context].initialTrack == m[context].initialTrack
      && m'[context].sampling == Run(m[context].sampling, positions, config.resolution, config.pointsToKeep)
    decreases |positions|
  {
    if positions != [] {
      var x := positions[0];
      assert Sample(x.time, x.value) == x;
      FeedAllRuns(AfterNewPosition(m, config, context, x.value, x.time), config, context, positions[1..]);
    }
  }

  /**
   * The live part of a track fed a stream of positions: the most recent
   * `pointsToKeep` of the points the throttle let through, in arrival order.
   */
  lemma FedTrackIsThrottledTail(m: map<Context, AccumulatorState>, config: TracksConfig, context: Context,
                                positions: seq<Sample<LatLngTuple>>)
    requires IsTrackedContext(context) && context in m && WellFormed(m[context], config.pointsToKeep)
    ensures var s := m[context].sampling;
      FeedAll(m, config, context, positions)[context].sampling.buffer
        == LastN(s.buffer + Values(Throttle(s.lastAccepted, positions, config.resolution)), Capacity(config.pointsToKeep))
  {
    FeedAllRuns(m, config, context, positions);
    RunBuffer(m[context].sampling, positions, config.resolution, config.pointsToKeep);
  }

  /** `prune` keeps exactly the entries stamped at or after the cutoff, unchanged. */
  lemma PruneKeepsExactlyFreshEntries(m: map<Context, AccumulatorState>, cutoff: int)
    ensures forall c :: c in Pruned(m, cutoff) <==> c in m && m[c].latestLatLngTuple >= cutoff
    ensures forall c | c in Pruned(m, cutoff) :: Pruned(m, cutoff)[c] == m[c]
    ensures Pruned(Pruned(m, cutoff), cutoff) == Pruned(m, cutoff)
  {
  }

  /** A context that was only seeded is stamped 0, so any prune with a positive cutoff drops it. */
  lemma NeverFedIsPruned(m: map<Context, AccumulatorState>, context: Context, track: seq<LatLngTuple>, cutoff: int)
    requires IsTrackedContext(context) && context !in m
    ensures context in Pruned(AfterInitialTrack(m, context, track), cutoff) <==> cutoff <= 0
  {
  }

  /** `getFilteredTracks` keeps exactly the contexts whose track matches, with that track. */
  lemma FilteredKeepsExactlyMatches(t: TrackCollection, matcher: seq<LatLngTuple> -> bool)
    ensures Filtered(Some(t), matcher).Some?
    ensures var r := Filtered(Some(t), matcher).value;
      && (forall c :: c in r <==> c in t && matcher(t[c]))
      && (forall c | c in r :: r[c] == t[c])
  {
  }

  /** The registry states of the session in `RegistryScenario`. */
  lemma ScenarioStates(config: TracksConfig, c: Context, seed: seq<LatLngTuple>,
                       p: LatLngTuple, q: LatLngTuple, t1: int, t2: int)
    requires IsTrackedContext(c) && config.pointsToKeep >= 1 && t2 - t1 < config.resolution
    ensures var m1 := AfterInitialTrack(map[], c, seed);
      var m3 := AfterNewPosition(AfterNewPosition(m1, config, c, p, t1), config, c, q, t2);
      && m1 == map[c := AccumulatorState(seed, Idle(), 0)]
      && m3 == map[c := AccumulatorState(seed, Sampler([p], Some(t1)), t2)]
  {
    var m1 := AfterInitialTrack(map[], c, seed);
    assert m1 == map[c := AccumulatorState(seed, Idle(), 0)];
    var m2 := AfterNewPosition(m1, config, c, p, t1);
    assert ScanStep([], p, config.pointsToKeep) == [p];
    assert m2 == map[c := AccumulatorState(seed, Sampler([p], Some(t1)), t1)];
  }

  /**
   * A short session on one context: a seeded context blocks `getAllTracks`
   * until its first point; a point inside the throttle window only refreshes
   * the stamp; a prune whose cutoff passes that stamp drops the context.
   */
  lemma RegistryScenario(config: TracksConfig, c: Context, seed: seq<LatLngTuple>,
                         p: LatLngTuple, q: LatLngTuple, t1: int, t2: int)
    requires IsTrackedContext(c) && config.pointsToKeep >= 1 && t2 - t1 < config.resolution
    ensures var m1 := AfterInitialTrack(map[], c, seed);
      var m3 := AfterNewPosition(AfterNewPosition(m1, config, c, p, t1), config, c, q, t2);
      && AllTracks(m1) == None
      && AllTracks(m3) == Some(map[c := seed + [p]])
      && m3[c].latestLatLngTuple == t2
      && Pruned(m3, t2) == m3
      && Pruned(m3, t2 + 1) == map[]
  {
    ScenarioStates(config, c, seed, p, q, t1, t2);
    SeededContextBlocksAllTracks(map[], c, seed);
    var s3 := AccumulatorState(seed, Sampler([p], Some(t1)), t2);
    assert Snapshots(map[c := s3]) == map[c := Found(seed + [p])];
    var lookups := map[c := Found(seed + [p])];
    assert (map k | k in lookups :: lookups[k].track) == map[c := seed + [p]];
  }

  class Tracks {
    var tracks: map<Context, TrackAccumulator>
    const config: TracksConfig
    /** The abstract registry: each context with the state of its accumulator. */
    ghost var model: map<Context, AccumulatorState>

    /** `a` is a well-formed accumulator created by this registry for `context`. */
    ghost predicate Holds(context: Context, a: TrackAccumulator)
      reads a
    {
      && a.key == context
      && a.Valid()
      && a.resolution == config.resolution
      && a.pointsToKeep == config.pointsToKeep
      && a.fetchTrackFor == FetchTrackFor(config, context)
    }

    /** The accumulators `t` have the abstract states `m`. */
    ghost predicate Represents(t: map<Context, TrackAccumulator>, m: map<Context, AccumulatorState>)
      reads t.Values
    {
      && m.Keys == t.Keys
      && AllTracked(t.Keys)
      && forall c | c in t :: Holds(c, t[c]) && t[c].State() == m[c]
    }

    ghost predicate Valid()
      reads this, tracks.Values
    {
      Represents(tracks, model)
    }

    constructor (config: TracksConfig)
      ensures Valid() && this.config == config && model == map[]
    {
      this.config := config;
      tracks := map[];
      model := map[];
    }

    /** `getAccumulator(context, false)`: look up without creating. */
    function Find(context: Context): (r: Option<TrackAccumulator>)
      reads this
      ensures r.Some? <==> IsTrackedContext(context) && context in tracks
      ensures r.Some? ==> r.value == tracks[context]
    {
      if IsTrackedContext(context) && context in tracks then Some(tracks[context]) else None
    }

    /**
     * `getAccumulator(context, createIfMissing)`: undefined for an untracked
     * context; the existing accumulator if there is one; otherwise, when asked
     * to, one new accumulator stored under `context`, all other entries kept.
     */
    method GetAccumulator(context: Context, createIfMissing: bool) returns (r: Option<TrackAccumulator>)
      requires Valid()
      modifies this
      ensures Valid()
      ensures !(IsTrackedContext(context) && context !in old(tracks) && createIfMissing) ==>
        r == old(Find(context)) && tracks == old(tracks)
      ensures IsTrackedContext(context) && context !in old(tracks) && createIfMissing ==>
        r.Some? && fresh(r.value) && tracks == old(tracks)[context := r.value]
      ensures r.Some? ==> context in tracks && tracks[context] == r.value
      ensures model == if IsTrackedContext(context) && createIfMissing then WithAccumulator(old(model), context) else old(model)
    {
      if !IsTrackedContext(context) {
        return None;
      }
      if context in tracks {
        return Some(tracks[context]);
      }
      if !createIfMissing {
        return None;
      }
      var acc := Create(context);
      r := Some(acc);
    }

    /** The branch of `getAccumulator` that stores a new accumulator under `context`. */
    method Create(context: Context) returns (acc: TrackAccumulator)
      requires Valid() && IsTrackedContext(context) && context !in tracks
      modifies this
      ensures Valid() && fresh(acc)
      ensures tracks == old(tracks)[context := acc]
      ensures model == old(model)[context := NewAccumulatorState()]
    {
      acc := new TrackAccumulator(AccumulatorParams(config.resolution, config.pointsToKeep, FetchTrackFor(config, context)), context);
      tracks := tracks[context := acc];
      model := model[context := acc.State()];
      forall c | c in tracks
        ensures Holds(c, tracks[c]) && tracks[c].State() == model[c]
      {
        if c != context {
          assert old(Holds(c, tracks[c]) && tracks[c].State() == model[c]);
        }
      }
    }

    /** `newPosition(context, position)` at time `now`. */
    method NewPosition(context: Context, position: LatLngTuple, now: int)
      requires Valid()
      modifies this, tracks.Values
      ensures Valid()
      ensures model == AfterNewPosition(old(model), config, context, position, now)
    {
      var acc := GetAccumulator(context, true);
      if acc.Some? {
        Feed(context, acc.value, position, now);
      }
    }

    /** `nextLatLngTuple` on the accumulator stored under `context`. */
    method Feed(context: Context, a: TrackAccumulator, position: LatLngTuple, now: int)
      requires Valid() && context in tracks && tracks[context] == a
      modifies this, a
      ensures Valid() && tracks == old(tracks)
      ensures model == old(model)[context := Fed(old(model)[context], position, now, config.resolution, config.pointsToKeep)]
    {
      a.NextLatLngTuple(position, now);
      model := model[context := a.State()];
      forall c | c in tracks
        ensures Holds(c, tracks[c]) && tracks[c].State() == model[c]
      {
        if c != context {
          assert old(Holds(c, tracks[c]) && tracks[c].State() == model[c]);
          assert tracks[c] != a;
        }
      }
    }

    /** `initialTrack(context, track)`. */
    method InitialTrack(context: Context, track: seq<LatLngTuple>)
      requires Valid()
      modifies this, tracks.Values
      ensures Valid()
      ensures model == AfterInitialTrack(old(model), context, track)
    {
      var acc := GetAccumulator(context, true);
      if acc.Some? {
        Seed(context, acc.value, track);
      }
    }

    /** `setInitialTrack` on the accumulator stored under `context`. */
    method Seed(context: Context, a: TrackAccumulator, track: seq<LatLngTuple>)
      requires Valid() && context in tracks && tracks[context] == a
      modifies this, a
      ensures Valid() && tracks == old(tracks)
      ensures model == old(model)[context := old(model)[context].(initialTrack := track)]
    {
      a.SetInitialTrack(track);
      model := model[context := a.State()];
      forall c | c in tracks
        ensures Holds(c, tracks[c]) && tracks[c].State() == model[c]
      {
        if c != context {
          assert old(Holds(c, tracks[c]) && tracks[c].State() == model[c]);
          assert tracks[c] != a;
        }
      }
    }

    /** `get(context)`: never creates; rejects for a context without an accumulator. */
    method Get(context: Context) returns (r: Lookup)
      requires Valid()
      ensures context !in model ==> r == NotFound
      ensures context in model ==> r == model[context].Snapshot()
    {
      var acc := Find(context);
      if acc.None? {
        return NotFound;
      }
      var a := acc.value;
      r := if a.lastAccepted.None? then Pending else Found(a.initialTrack + a.accumulated);
    }

    /** `getAllTracks()`: the track of every context, once all of them have one. */
    method GetAllTracks() returns (r: Option<TrackCollection>)
      requires Valid()
      ensures r == AllTracks(model)
    {
      var keys := tracks.Keys;
      var lookups: map<Context, Lookup> := map[];
      while keys != {}
        invariant keys <= model.Keys
        invariant forall c :: c in lookups <==> c in model && c !in keys
        invariant forall c | c in lookups :: lookups[c] == model[c].Snapshot()
        decreases keys
      {
        var k :| k in keys;
        var t := Get(k);
        lookups := lookups[k := t];
        keys := keys - {k};
      }
      SnapshotsEqual(lookups, model);
      r := SettleAll(lookups);
    }

    /**
     * `getFilteredTracks(params, selfPosition)`: the known contexts whose track
     * the matcher built from the query accepts, each with its track.
     */
    method GetFilteredTracks(matcher: seq<LatLngTuple> -> bool) returns (r: Option<TrackCollection>)
      requires Valid()
      ensures r == Filtered(AllTracks(model), matcher)
    {
      var all := GetAllTracks();
      if all.None? {
        return None;
      }
      var kept := FilterCollection(all.value, matcher);
      r := Some(kept);
    }

    /**
     * `prune(maxAge)` at time `now`: walks a snapshot of the entries and
     * deletes the stale ones.
     */
    method Prune(maxAge: int, now: int)
      requires Valid()
      modifies this
      ensures Valid()
      ensures forall c | c in tracks :: c in old(tracks) && tracks[c] == old(tracks)[c]
      ensures model == Pruned(old(model), now - maxAge)
    {
      var kept;
      ghost var m;
      kept, m := PruneEntries(tracks, model, now - maxAge);
      assert AllTracked(kept.Keys);
      Install(kept, m);
    }

    /** Replace the entries by `kept`, whose abstract states are `m`. */
    method Install(kept: map<Context, TrackAccumulator>, ghost m: map<Context, AccumulatorState>)
      requires Represents(kept, m)
      modifies this
      ensures Valid() && tracks == kept && model == m
    {
      tracks, model := kept, m;
    }
  }
}
