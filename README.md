# SignalK tracks plugin: a Dafny model

The plugin keeps a short recent track for every vessel or aircraft it hears
about, and answers queries that ask for those tracks. The repository holds two
snapshots of it:

- the newer TypeScript module under `module/src/`, which carries the
  `LatLngTuple` pairs it receives from the stream, seeds a track with an
  initial prefix, and filters through a matcher; its utils helpers
  (`inBounds`, `latLonTupleToPosition`) read index 0 of a pair as the
  longitude;
- the older one under `src/`, which takes `{latitude, longitude}` positions
  and filters by bounding box and radius itself.

Each snapshot has a track accumulator and a registry of accumulators keyed by
context. The accumulator throttles raw positions on the leading edge, keeps the
most recent `pointsToKeep` of them, and carries a liveness timestamp. Each
snapshot also has geometric and query-string helpers.

The project models both snapshots:

| Dafny module | models |
|---|---|
| `Wrappers` | `Option` |
| `Types` | the value types of `module/src/types.ts` and `src/types.ts`, JavaScript numbers as `Float`, the query object as the class `QueryParameters` |
| `JsStrings` | `String.prototype.indexOf` and one-character `split` |
| `Pipeline` | the sequential meaning of `throttleTime(resolution)` followed by the push-then-slice `scan` |
| `QueryParsing` | the `split(',').map(...).filter(...)` token pipeline and the radius parse shared by both `validateParameters` |
| `Utils` | `module/src/utils.ts` |
| `LegacyUtils` | `src/utils.ts` |
| `Tracks` | `module/src/tracks.ts` |
| `LegacyTracks` | `src/tracks.ts` |

The source updates objects in place, and so does the model.

- Registries and accumulators are classes whose methods modify their fields.
- `bboxDateLineAlign` overwrites a `BoundsObject`.
- `validateParameters` overwrites the entries of a `QueryParameters`.

Each registry carries a ghost `model`, a map from context to the abstract
state of its accumulator. Every registry method is proved to move that map
exactly as a pure function of the old map says: `AfterNewPosition`,
`AfterInitialTrack`, `Pruned` or `WithAccumulator`. The lemmas then state the
plugin's properties about those functions.

Two modelling choices and one JavaScript fact shape the model.

1. Throttle boundary (a modelling choice): a point arriving exactly
   `resolution` ms after the last accepted one is taken as accepted, so the
   window is half-open. Which of the two happens at that instant depends on
   the ordering of the throttle's timer against the arriving point, which the
   code does not fix.
2. Calls answered at the time of the call (a modelling choice): a track
   observable does not emit until the throttle has let a point through. In the
   newer module `combineLatest` waits for the accumulated `scan` output, which
   has no value before that point (`initialTrack` always has one). A `get`
   of such an accumulator has not settled yet when it returns; it settles once
   the throttle accepts a first point. The model gives its state at the call,
   `Pending`. `getAllTracks`, `getFilteredTracks` and the older `getAll` have
   then not settled either, and are modelled as `None`.
3. Truthiness: values are tested by JavaScript truthiness. The `.filter`
   callback of `validateParameters` returns its value, so a coordinate of 0, or
   one that parses to NaN, is dropped. Likewise `params.radius` of 0 is not a
   radius.

External calls become parameters:

- `Date.now()` becomes `now`;
- `isNaN`/`parseFloat` become `numeric`/`parseFloat`;
- the haversine `distanceTo` becomes `distance`;
- `createMatcher`, which the newer `tracks.ts` imports but `utils.ts` does not
  define, becomes `matcher`.

A `maxRadius` field of the older config. `filterVessels` reads
`this.config.maxRadius`, but `Config` in `src/types.ts` declares only
`resolution`, `pointsToKeep` and `maxAge`. The model follows the code and
gives `LegacyTracks.Config` an optional `maxRadius`.

The test vectors of `module/src/utils.test.ts`. They call `createInBounds`,
which the utils file does not define, and write their pairs as `[lat, lng]`.
`Utils.InBoundsTestVectors` states the same expectations for
`bboxDateLineAlign` followed by `inBounds`, with each pair swapped to the
`[lon, lat]` order that code reads.

## Model

| member | source | states |
|---|---|---|
| `Types.Truthy` | src/tracks.ts:56-64 | defines JavaScript truthiness of an optional query value: absent, null, the empty string, 0 and NaN are falsy; a box and any other string or number are truthy |
| `Types.TruthyNumber` | module/src/utils.ts:44-46 | defines JavaScript truthiness of a number that may be undefined: present, not NaN and not 0; the `.filter` callback of `validateParameters` keeps exactly these values, and the older `filterVessels` tests `maxRadius` the same way (src/tracks.ts:63-64) |
| `JsStrings.IndexOfFrom` | module/src/tracks.ts:40 | the result is -1 or an occurrence at or after `from`; -1 only when there is no such occurrence; otherwise no occurrence lies between `from` and it |
| `JsStrings.IndexOf` | module/src/tracks.ts:40 | -1 exactly when the needle occurs nowhere; otherwise the index of its first occurrence |
| `JsStrings.Split` | module/src/utils.ts:37-38 | splitting gives at least one token, and no token contains the separator |
| `JsStrings.JoinSplit` | src/utils.ts:19 | joining the tokens of a split with the separator gives back the original string |
| `JsStrings.SplitLength` | module/src/utils.ts:37-38 | a split gives one token more than the string has separators |
| `Pipeline.Accepts` | module/src/tracks.ts:122 | defines the leading-edge throttle test: a point passes when none has been accepted yet, or when at least `resolution` ms have passed since the last accepted one |
| `Pipeline.Step` | module/src/tracks.ts:122-126 | defines one raw point through the pipeline: an accepted point opens a new window at its time and goes through the scan; a throttled one leaves the state as it was |
| `Pipeline.Run` | module/src/tracks.ts:121-126 | defines the pipeline state after a sequence of raw points, taken oldest first |
| `Pipeline.Throttle` | module/src/tracks.ts:122 | defines the raw points `throttleTime` lets through, in arrival order, each one opening the window the later ones are measured against |
| `Pipeline.Capacity` | module/src/tracks.ts:125 | defines how many points `slice(max(0, length - pointsToKeep))` can keep: `pointsToKeep`, or none when it is not positive |
| `Pipeline.SliceFrom` | module/src/tracks.ts:125 | defines `slice(start)` for a non-negative start: the elements from `start` on, empty past the end |
| `Pipeline.LastN` | module/src/tracks.ts:125 | the last `n` elements: a suffix of `s` whose length is the smaller of `n` and the length of `s` |
| `Pipeline.ScanStep` | module/src/tracks.ts:123-126 | push then `slice(max(0, length - pointsToKeep))` keeps the last `pointsToKeep` points of `acc ++ [p]`, never more than the capacity, with `p` last |
| `Pipeline.Values` | src/tracks.ts:104-109 | the values of the samples, position by position |
| `Pipeline.DroppedInputIsDiscarded` | module/src/tracks.ts:122 | a point inside the throttle window leaves the pipeline state unchanged: it is not queued |
| `Pipeline.AcceptedInputIsAppended` | module/src/tracks.ts:122-126 | an accepted point opens a new window at its time and is appended, keeping the last `pointsToKeep` points |
| `Pipeline.LastNOfLastN` | module/src/tracks.ts:125 | trimming to `n` before appending more and trimming again is the same as trimming once |
| `Pipeline.RunBuffer` | src/tracks.ts:104-109 | after any sequence of raw points the buffer is the last `pointsToKeep` of the accepted points, in arrival order |
| `Pipeline.AppendThenKeep` | module/src/tracks.ts:123-126 | one accepted step followed by the rest equals appending all accepted points, then trimming |
| `Pipeline.ValuesCons` | src/tracks.ts:104-109 | the values of `[x] ++ xs` are `x.value` followed by the values of `xs` |
| `Pipeline.RunBounded` | module/src/tracks.ts:125 | the buffer never grows beyond its capacity, whatever the input |
| `Pipeline.ThrottleSpacing` | module/src/tracks.ts:122 | accepted points are at least `resolution` ms apart, and the first is at least `resolution` after the previous accepted one |
| `Pipeline.ThrottleIsSubsequence` | src/tracks.ts:105 | the accepted points are raw points, kept in order (a subsequence) |
| `Pipeline.SubsequenceSkip` | src/tracks.ts:105 | skipping one more raw point keeps a subsequence a subsequence |
| `Pipeline.SubsequenceTail` | src/tracks.ts:105 | dropping the first element of a subsequence leaves a subsequence |
| `Pipeline.EndToEnd` | module/src/tracks.ts:121-126 | with a 1000 ms window and room for 3, inputs at 0, 500, 1100, 1600 and 2200 ms keep the 1st, 3rd and 5th |
| `QueryParsing.TokenValue` | module/src/utils.ts:39-43 | defines the `.map` callback: a numeric token becomes its parsed value, any other token `undefined` |
| `QueryParsing.Survivors` | module/src/utils.ts:37-46 | the surviving coordinates are never more than the tokens and are never 0 |
| `QueryParsing.BoundsFromText` | module/src/utils.ts:47 | a box exactly when four values survive, with `sw = [b0, b1]` and `ne = [b2, b3]`; null otherwise |
| `QueryParsing.RadiusFromText` | module/src/utils.ts:51 | a number exactly when the text is numeric, and then its parsed value; null otherwise |
| `QueryParsing.SurvivorsAppend` | src/utils.ts:19-21 | the token filter distributes over concatenation |
| `QueryParsing.DroppedTokenIgnored` | module/src/utils.ts:44-46 | a token that does not survive leaves the other survivors as they were, in order |
| `QueryParsing.AllSurvive` | src/utils.ts:19-21 | when every token is a non-zero number, the survivors are the parsed tokens, in order |
| `QueryParsing.FourCoordinatesMakeBounds` | module/src/utils.ts:36-48 | four non-zero numeric tokens `lon1,lat1,lon2,lat2` give `sw = [lon1, lat1]`, `ne = [lon2, lat2]` |
| `QueryParsing.ZeroCoordinateDropsBounds` | src/utils.ts:19-22 | a box string with a zero or NaN coordinate among four tokens gives null |
| `QueryParsing.NonNumericTokenSkipped` | module/src/utils.ts:39-43 | a non-numeric token is skipped without disturbing the others |
| `Utils.BoundsObject.constructor` | module/src/utils.ts:6 | the object holds the given corners |
| `Utils.DateLineAligned` | module/src/utils.ts:6-11 | `sw` and the latitude of `ne` never change; `ne[0]` gains 360 exactly when `sw[0] > 0 && ne[0] < 0`, otherwise the box is unchanged |
| `Utils.BboxDateLineAlign` | module/src/utils.ts:6-11 | the box is overwritten in place with its aligned value, and the same object is returned |
| `Utils.DateLineAlignedIdempotent` | module/src/utils.ts:7-9 | aligning twice equals aligning once whenever `ne[0] >= -360` |
| `Utils.DateLineAlignedNotIdempotentBelow` | module/src/utils.ts:7-9 | an east edge at -400 is shifted again by a second call, so the bound is needed |
| `Utils.SpansDateLine` | module/src/utils.ts:7 | defines the date-line test of `bboxDateLineAlign`: the west edge is east of 0 and the east edge west of 0 |
| `Utils.Contains` | module/src/utils.ts:14-31 | defines containment: a present position whose longitude, shifted by +360 when negative against a box reaching past 180, lies with its latitude in the closed box |
| `Utils.InBounds` | module/src/utils.ts:14-31 | the result is `Contains`: closed-rectangle containment, where a western longitude counts as +360 against a box reaching past 180; a missing position is out; the caller's position is not changed |
| `Utils.PlainBoxIsRectangle` | module/src/utils.ts:17-25 | a box with `ne[0] <= 180` is plain closed-rectangle containment |
| `Utils.LatitudeNeverShifted` | module/src/utils.ts:16-25 | a contained point always has its latitude in `[sw[1], ne[1]]` |
| `Utils.DateLineBoxContains` | module/src/utils.ts:6-31 | an aligned date-line box holds a point iff its latitude is in range and its longitude is east of the west edge or west of the east edge |
| `Utils.InBoundsTestVectors` | module/src/utils.test.ts:6-21 | the twelve expectations of the test, with each pair swapped to `[lon, lat]` |
| `Utils.ValidateParameters` | module/src/utils.ts:34-54 | `bbox`, when present, becomes the parsed box or null; `radius`, when present, the parsed number or null; no key is added; other keys unchanged; the same object is returned |
| `Utils.LatLonTupleToPosition` | module/src/utils.ts:81-86 | index 0 becomes the longitude and index 1 the latitude |
| `Utils.LatLonTupleToPositionInjective` | module/src/utils.ts:81-86 | distinct tuples give distinct positions |
| `Utils.LatLonTupleToPositionOnto` | module/src/utils.ts:81-86 | every position comes from the tuple `[longitude, latitude]` |
| `LegacyUtils.InBounds` | src/utils.ts:6-13 | true iff the position is present, its latitude is in `[sw[1], ne[1]]` and its longitude in `[sw[0], ne[0]]`, closed; a missing position is out |
| `LegacyUtils.AgreesWithNewerInBounds` | src/utils.ts:6-13 | for a box not reaching past 180 the older test agrees with the newer `inBounds` on `[lon, lat]` |
| `LegacyUtils.DateLineBoxIsEmpty` | src/utils.ts:8-9 | without date-line handling, a box whose west edge is east of its east edge holds nothing |
| `LegacyUtils.Validated` | src/utils.ts:22-25 | defines the shapes `validateParameters` leaves behind: `geobounds`, when present, a box or null; `radius`, when present, a number or null |
| `LegacyUtils.ValidateParameters` | src/utils.ts:16-28 | `geobounds`, when present, becomes the parsed box or null; `radius` is always set, to the parsed number or null; the keys are the old ones plus `radius`; other keys unchanged; the same object is returned; the result has the shapes `filterVessels` expects |
| `Tracks.TrackAccumulator.constructor` | module/src/tracks.ts:113-133 | an empty prefix, an empty buffer, no accepted point, stamp 0, and the given resolution, capacity and fetch target |
| `Tracks.TrackAccumulator.NextLatLngTuple` | module/src/tracks.ts:144-147 | the stamp becomes `now` on every call; an accepted point is appended keeping the last `pointsToKeep`; a throttled one changes no point; the prefix is untouched |
| `Tracks.TrackAccumulator.SetInitialTrack` | module/src/tracks.ts:149-151 | the prefix is replaced, and the buffer, throttle and stamp are untouched |
| `Tracks.IsTrackedContext` | module/src/tracks.ts:40 | defines the namespace filter: a context is tracked iff `vessels.` or `aircraft.` occurs in it |
| `Tracks.AccumulatorState.Snapshot` | module/src/tracks.ts:129-131 | defines the first value of `track`: pending until the throttle has accepted a point, then the initial prefix followed by the accumulated points |
| `Tracks.Fed` | module/src/tracks.ts:144-147 | defines one `nextLatLngTuple` at time `now`: a pipeline step, the stamp set to `now`, the prefix kept |
| `Tracks.WithAccumulator` | module/src/tracks.ts:43-50 | defines `getAccumulator` with creation on a tracked context: a missing context gets a fresh accumulator, and existing entries are kept |
| `Tracks.AfterNewPosition` | module/src/tracks.ts:31-33 | defines `newPosition`: an untracked context leaves the registry as it was; a tracked one gets an accumulator if missing, which is then fed the point |
| `Tracks.AfterInitialTrack` | module/src/tracks.ts:35-37 | defines `initialTrack`: an untracked context leaves the registry as it was; a tracked one gets an accumulator if missing, whose prefix is then replaced |
| `Tracks.AllTracks` | module/src/tracks.ts:63-72 | defines `getAllTracks` at the time of the call: every context's track when each accumulator has emitted, otherwise not settled |
| `Tracks.Filtered` | module/src/tracks.ts:80-89 | defines `getFilteredTracks` on the collected tracks: those the matcher accepts, keyed by context; not settled when `getAllTracks` is not |
| `Tracks.Pruned` | module/src/tracks.ts:92-100 | defines `prune`: the entries stamped at or after the cutoff, and no others |
| `Tracks.FetchTrackFor` | module/src/tracks.ts:45-48 | defines the `fetchTrackFor` an accumulator is built with: the context when `fetchInitialTrack` is on, otherwise none |
| `Tracks.Snapshots` | module/src/tracks.ts:65-70 | defines the `get` of every key of the registry, each at the time of the call |
| `Tracks.AllSettled` | module/src/tracks.ts:64 | defines `Promise.all` over those lookups at the time of the call: all tracks, keyed by context, when each has resolved; otherwise not settled |
| `Tracks.Tracks.constructor` | module/src/tracks.ts:25-29 | an empty registry with the given config |
| `Tracks.Tracks.Find` | module/src/tracks.ts:39-43 | an accumulator exactly when the context is tracked and present |
| `Tracks.Tracks.GetAccumulator` | module/src/tracks.ts:39-52 | an untracked context gives nothing and changes nothing; an existing entry is returned as it is; a missing tracked one is created only when asked for, as exactly one new entry, with all others kept |
| `Tracks.Tracks.Create` | module/src/tracks.ts:44-50 | one fresh accumulator built from the config, stored under the context |
| `Tracks.Tracks.NewPosition` | module/src/tracks.ts:31-33 | the registry becomes `AfterNewPosition` of the old one |
| `Tracks.Tracks.Feed` | module/src/tracks.ts:32 | only the accumulator under the context moves, by one `nextLatLngTuple` |
| `Tracks.Tracks.InitialTrack` | module/src/tracks.ts:35-37 | the registry becomes `AfterInitialTrack` of the old one |
| `Tracks.Tracks.Seed` | module/src/tracks.ts:36 | only the prefix of the accumulator under the context changes |
| `Tracks.Tracks.Get` | module/src/tracks.ts:54-61 | an unknown context is rejected and nothing is created; a known one gives its first track, pending until it has one |
| `Tracks.Tracks.GetAllTracks` | module/src/tracks.ts:63-72 | the tracks of all contexts, settled at the time of the call only when each has emitted |
| `Tracks.Tracks.GetFilteredTracks` | module/src/tracks.ts:75-90 | of all tracks, those the matcher accepts |
| `Tracks.Tracks.Prune` | module/src/tracks.ts:92-104 | the registry becomes `Pruned(old, now - maxAge)`, and the surviving entries are the same objects |
| `Tracks.Tracks.Install` | module/src/tracks.ts:97 | the registry holds exactly the given entries |
| `Tracks.SnapshotsEqual` | module/src/tracks.ts:65-70 | a lookup map that agrees with every entry is the snapshot map |
| `Tracks.SettleAll` | module/src/tracks.ts:64-71 | `Promise.all` over the lookups: all tracks when each has resolved, otherwise pending |
| `Tracks.FilterCollection` | module/src/tracks.ts:81-88 | the `reduce` keeps exactly the contexts the matcher accepts, with their tracks |
| `Tracks.PrunedEqual` | module/src/tracks.ts:95-100 | a map that keeps exactly the fresh entries is the pruned map |
| `Tracks.PruneEntries` | module/src/tracks.ts:95-100 | the walk over the entries keeps exactly the fresh ones, as the same accumulators |
| `Tracks.FeedAll` | module/src/tracks.ts:31-33 | feeding positions never removes a context |
| `Tracks.TrackedIsSubstringTest` | module/src/tracks.ts:40-42 | a context is tracked iff `vessels.` or `aircraft.` occurs anywhere in it |
| `Tracks.TrackedContextExamples` | module/src/tracks.ts:40-42 | vessel and aircraft contexts are tracked, also with the namespace mid-string; `atons.a1` and `vessels` are not |
| `Tracks.UntrackedContextIgnored` | module/src/tracks.ts:31-42 | for an untracked context, `newPosition` and `initialTrack` leave the registry as it was |
| `Tracks.NewPositionTouchesOneEntry` | module/src/tracks.ts:31-51 | `newPosition` on a tracked context adds at most that key, leaves other entries alone, stamps it `now`, keeps its prefix, and leaves it with a track |
| `Tracks.InitialTrackReplacesPrefix` | module/src/tracks.ts:35-51 | `initialTrack` replaces only the prefix of that entry; a context it creates has no track yet |
| `Tracks.SeededContextBlocksAllTracks` | module/src/tracks.ts:129-131 | a context created by `initialTrack` alone leaves `getAllTracks` unsettled at the time of the call |
| `Tracks.NewPositionKeepsAllTracksSettled` | module/src/tracks.ts:63-72 | once every context has a track, `newPosition` keeps it so |
| `Tracks.OperationsPreserveWellFormed` | module/src/tracks.ts:121-126 | `newPosition`, `initialTrack` and `prune` keep every buffer within capacity |
| `Tracks.FeedAllRuns` | module/src/tracks.ts:121-126 | feeding a stream of positions to a context runs its pipeline and touches nothing else |
| `Tracks.FedTrackIsThrottledTail` | module/src/tracks.ts:121-126 | the live part of a fed track is the last `pointsToKeep` points the throttle accepted, in order |
| `Tracks.PruneKeepsExactlyFreshEntries` | module/src/tracks.ts:92-100 | `prune` keeps exactly the entries stamped at or after the cutoff, unchanged, and is idempotent |
| `Tracks.NeverFedIsPruned` | module/src/tracks.ts:116 | a context that only received an initial track is stamped 0, and survives a prune only with a cutoff of at most 0 |
| `Tracks.FilteredKeepsExactlyMatches` | module/src/tracks.ts:80-89 | the filtered collection holds exactly the contexts whose track matches, with their tracks |
| `Tracks.ScenarioStates` | module/src/tracks.ts:31-51 | the registry states after seeding a context, then feeding it twice within one window |
| `Tracks.RegistryScenario` | module/src/tracks.ts:31-104 | in that session: pending after seeding; then the prefix plus the first point; stamped with the second point's time; kept by a prune at that time and dropped one ms later |
| `LegacyTracks.AccumulatorState.Snapshot` | src/tracks.ts:104-111 | defines the first value of the replayed `track`: pending until the throttle has accepted a point, then the accumulated points |
| `LegacyTracks.Fed` | src/tracks.ts:116-119 | defines one `nextPosition` at time `now`: a pipeline step and the stamp set to `now` |
| `LegacyTracks.WithAccumulator` | src/tracks.ts:28-34 | defines `getAccumulator` with creation: a missing context gets a fresh accumulator, and existing entries are kept |
| `LegacyTracks.Pruned` | src/tracks.ts:83-91 | defines `prune`: the entries stamped at or after the cutoff, and no others |
| `LegacyTracks.RadiusApplies` | src/tracks.ts:63 | defines when the radius check runs: the configured `maxRadius` or the query's radius is truthy, and a reference position is given |
| `LegacyTracks.RadiusUsed` | src/tracks.ts:64 | defines the radius compared against: the query's when truthy, the configured `maxRadius` otherwise |
| `LegacyTracks.Passes` | src/tracks.ts:51-72 | defines `filterVessels`: every track passes without parameters or with an empty parameter object; otherwise the last point must lie in the box when one is given and within the radius when the radius check applies, and an empty track fails whichever check applies |
| `LegacyTracks.AllPassing` | src/tracks.ts:37-48 | defines `getAll` at the time of the call: settled only when every stored accumulator has emitted, and then exactly the contexts whose track passes, with their tracks |
| `LegacyTracks.TrackAccumulator.constructor` | src/tracks.ts:98-114 | an empty buffer, no accepted point, stamp 0, with the given resolution and capacity |
| `LegacyTracks.TrackAccumulator.NextPosition` | src/tracks.ts:116-119 | the stamp becomes `now` on every call; an accepted point is appended keeping the last `pointsToKeep`; a throttled one changes no point |
| `LegacyTracks.AfterNewPosition` | src/tracks.ts:24-26 | `newPosition` adds the context to the keys, whatever its namespace |
| `LegacyTracks.PrunedEqual` | src/tracks.ts:86-91 | a map that keeps exactly the fresh entries is the pruned map |
| `LegacyTracks.PruneEntries` | src/tracks.ts:86-91 | the walk over the entries keeps exactly the fresh ones, as the same accumulators |
| `LegacyTracks.AllPassingEqual` | src/tracks.ts:37-48 | a collection holding exactly the passing tracks is the answer of `getAll` |
| `LegacyTracks.CollectStep` | src/tracks.ts:40-46 | one awaited entry extends the collected answer by that entry when it passes, and a pending entry blocks |
| `LegacyTracks.CollectedAll` | src/tracks.ts:37-48 | once every entry is awaited, the collected answer is `AllPassing` |
| `LegacyTracks.NoParamsPassesAll` | src/tracks.ts:51-53 | without parameters, or with an empty parameter object, every track passes |
| `LegacyTracks.OnlyLastPointMatters` | src/tracks.ts:54-65 | whether a track passes depends on its last point only |
| `LegacyTracks.EmptyTrackPassesOnlyUnchecked` | src/tracks.ts:54-69 | with non-empty parameters, an empty track passes iff neither the box check nor the radius check applies |
| `LegacyTracks.QueryRadiusWins` | src/tracks.ts:64 | the query's radius is used when truthy, the configured `maxRadius` otherwise |
| `LegacyTracks.RadiusIgnoredWithoutPosition` | src/tracks.ts:63 | without a reference position, or with neither radius set, only the box check applies |
| `LegacyTracks.AnyContextIsTracked` | src/tracks.ts:24-34 | any context is accepted: `newPosition` creates or updates just that entry, stamps it `now`, and leaves it with a track |
| `LegacyTracks.FedRegistryAlwaysSettles` | src/tracks.ts:37-48 | in a registry built by `newPosition` and `prune` every entry has a track, so `getAll` is settled whenever it is called |
| `LegacyTracks.OperationsPreserveWellFormed` | src/tracks.ts:104-109 | `newPosition` and `prune` keep every buffer within capacity |
| `LegacyTracks.PruneKeepsExactlyFreshEntries` | src/tracks.ts:83-91 | `prune` keeps exactly the entries stamped at or after the cutoff, unchanged |
| `LegacyTracks.FeedAll` | src/tracks.ts:24-26 | feeding positions never removes a context |
| `LegacyTracks.FeedAllRuns` | src/tracks.ts:104-119 | feeding a stream of positions to a context runs its pipeline and touches nothing else |
| `LegacyTracks.FedTrackIsThrottledTail` | src/tracks.ts:103-119 | a fed track is the last `pointsToKeep` points the throttle accepted, in arrival order |
| `LegacyTracks.Tracks.constructor` | src/tracks.ts:19-22 | an empty registry with the given config |
| `LegacyTracks.Tracks.GetAccumulator` | src/tracks.ts:28-34 | an existing entry is returned as it is; a missing one is created only when asked for, as exactly one new entry, with all others kept |
| `LegacyTracks.Tracks.Create` | src/tracks.ts:31-32 | one fresh accumulator built from the config's resolution and capacity, stored under the context |
| `LegacyTracks.Tracks.NewPosition` | src/tracks.ts:24-26 | the registry becomes `AfterNewPosition` of the old one |
| `LegacyTracks.Tracks.Feed` | src/tracks.ts:25 | only the accumulator under the context moves, by one `nextPosition` |
| `LegacyTracks.Tracks.Get` | src/tracks.ts:74-81 | an unknown context is rejected and nothing is created; a known one gives its track, pending until it has one |
| `LegacyTracks.Tracks.FilterVessels` | src/tracks.ts:51-72 | the result is `Passes`: true without parameters, otherwise the conjunction of the box check and the radius check that apply, each on the last point |
| `LegacyTracks.Tracks.GetAll` | src/tracks.ts:37-48 | settled at the time of the call only when every stored track has emitted, and then holds exactly the contexts whose track passes `filterVessels`, with their tracks |
| `LegacyTracks.Tracks.Prune` | src/tracks.ts:83-95 | the registry becomes `Pruned(old, now - maxAge)`, and the surviving entries are the same objects |
| `LegacyTracks.Tracks.Install` | src/tracks.ts:88 | the registry holds exactly the given entries |

## Left out

- Host and HTTP glue (`module/src/index.ts`, `src/index.ts`): plugin start and stop, the stream subscription, the `setInterval` that schedules `prune`, routing, and self-position lookup. None of it is core logic.
- `fetchTrack` and the initial-track fetch in the newer accumulator's constructor (module/src/tracks.ts:135-141, 154-162). It is an HTTP `fetch`. The model records only the `fetchTrackFor` the accumulator is built with; `initialTrack` stands for the track a fetch would deliver.
- `distanceTo` and `degreesToRadians` in both utils files: floating-point haversine. The older `filterVessels` takes the distance as a function parameter.
- `createMatcher` (imported by module/src/tracks.ts:4) and `createInBounds` (imported by module/src/utils.test.ts:2) are not part of this model. Neither is defined in the files; `getFilteredTracks` takes the matcher as a predicate parameter.
- The rxjs machinery: Subjects, `publishReplay`, `combineLatest`, `take(1)`, `toPromise`. Only their sequential meaning is modelled. A track that has not emitted yet is `Pending`, and an aggregate that waits on it is `None`.
- Later resolution of pending promises. The model gives each query's answer at the time of the call. A pending `get` stays subscribed and resolves later, once a first point is accepted, with the track as it is then; `Promise.all` in `getAllTracks` and the `await` in `getAll` then resume and read entries that may have changed meanwhile. That later resolution and the values it carries are not modelled.
- Interleaving of asynchronous work. `getAll` awaits each entry in turn and `getAllTracks` waits on `Promise.all`, so other calls could run in between. The model treats each query as atomic.
- Tracks.Tracks.GetAllTracks: `getAllTracks` returns a list of `{context, track}` in key order; the model returns a map from context to track, without that order. `getAll` and `getFilteredTracks` build objects, whose string keys keep insertion order in JavaScript and in the JSON reply; the map loses that order too.
- Aliasing of the arrays `scan` emits. The model holds tracks as values, so a caller changing a returned array is not modelled. Nor is the in-place `acc.push(position)` of the scan (src/tracks.ts:107, module/src/tracks.ts:124): it mutates the array the scan emitted last. In the older module that is the array `get` resolved with (src/tracks.ts:77), so a track a caller still holds gains the next accepted point and can hold `pointsToKeep + 1` points; the `slice` then gives the scan a fresh array, and the held one changes no further. The model's tracks never change after they are returned.
- `debug` and `console.log` output.
- JavaScript numbers: they are modelled as reals, with `NaN` where `parseFloat` can produce it. Infinity, `-0` and rounding are not modelled. Timestamps and `maxAge` are integers.
- Object keys that collide with `Object.prototype` (`this.tracks[context] ||` would see an inherited member), and array-valued query parameters. Keys are plain map keys, and query values are strings on input.
- QueryParsing: `isNaN(token)` and `parseFloat(token)` are abstract parameters. Their JavaScript definitions on strings are not modelled.
- LegacyTracks.Tracks.FilterVessels: requires the shapes `validateParameters` leaves behind (a box or null, a number or null). On unvalidated input the source compares strings with numbers, which is not modelled.
- Utils.ValidateParameters, LegacyUtils.ValidateParameters: require `bbox`/`geobounds` and `radius`, when present, to be query-string text, as they are from an HTTP query.
- Tracks.Tracks.Prune, LegacyTracks.Tracks.Prune: the source deletes inside `forEach` over `Object.entries`, a snapshot taken beforehand. The model walks that snapshot in no particular order, which gives the same result.
