/**
 * The sequential meaning of the rxjs pipeline both track accumulators build
 * (module/src/tracks.ts:121-126, src/tracks.ts:104-109):
 *
 *   input.pipe(throttleTime(resolution), scan(push-then-keep-last-pointsToKeep, []))
 *
 * `throttleTime` is leading-edge: the first value of a window passes and opens
 * a window of `resolution` ms; values arriving inside the window are dropped.
 * A value arriving exactly `resolution` ms after the last accepted one is
 * accepted (the window is half-open).
 */
module Pipeline {
  import opened Wrappers

  /** A raw input value with the time (ms) at which it arrived. */
  datatype Sample<T> = Sample(time: int, value: T)

  /** The pipeline's state: the array `scan` last emitted and the throttle's guard. */
  datatype Sampler<T> = Sampler(buffer: seq<T>, lastAccepted: Option<int>)

  function Idle<T>(): Sampler<T> {
    Sampler([], None)
  }

  /** Does the throttle let a value arriving at `now` through? */
  predicate Accepts(lastAccepted: Option<int>, now: int, resolution: int) {
    lastAccepted.None? || now - lastAccepted.value >= resolution
  }

  /** The number of points `slice(max(0, length - pointsToKeep))` can keep. */
  function Capacity(pointsToKeep: int): nat {
    if pointsToKeep > 0 then pointsToKeep else 0
  }

  /** The last `n` elements of `s` (all of `s` when it is shorter). */
  function LastN<T>(s: seq<T>, n: nat): (r: seq<T>)
    ensures |r| == if n < |s| then n else |s|
    ensures r == s[|s| - |r|..]
  {
    if n < |s| then s[|s| - n..] else s
  }

  /** `Array.prototype.slice(start)` for a non-negative start. */
  function SliceFrom<T>(s: seq<T>, start: nat): seq<T> {
    if start <= |s| then s[start..] else []
  }

  /**
   * The `scan` callback: push the new point, then keep the array from index
   * max(0, length - pointsToKeep). That is exactly the last `pointsToKeep`
   * points in arrival order, none at all when pointsToKeep <= 0.
   */
  function ScanStep<T>(acc: seq<T>, p: T, pointsToKeep: int): (r: seq<T>)
    ensures r == LastN(acc + [p], Capacity(pointsToKeep))
    ensures |r| <= Capacity(pointsToKeep)
    ensures pointsToKeep >= 1 ==> |r| >= 1 && r[|r| - 1] == p
  {
    var pushed := acc + [p];
    var start := if |pushed| - pointsToKeep > 0 then |pushed| - pointsToKeep else 0;
    SliceFrom(pushed, start)
  }

  /** One raw input through the throttle and the scan. */
  function Step<T>(s: Sampler<T>, x: Sample<T>, resolution: int, pointsToKeep: int): Sampler<T> {
    if Accepts(s.lastAccepted, x.time, resolution)
    then Sampler(ScanStep(s.buffer, x.value, pointsToKeep), Some(x.time))
    else s
  }

  /** A sequence of raw inputs through the pipeline, oldest first. */
  function Run<T>(s: Sampler<T>, xs: seq<Sample<T>>, resolution: int, pointsToKeep: int): Sampler<T>
    decreases |xs|
  {
    if xs == [] then s else Run(Step(s, xs[0], resolution, pointsToKeep), xs[1..], resolution, pointsToKeep)
  }

  /** The inputs the throttle accepts, in arrival order (independent of the scan). */
  function Throttle<T>(lastAccepted: Option<int>, xs: seq<Sample<T>>, resolution: int): seq<Sample<T>>
    decreases |xs|
  {
    if xs == [] then []
    else if Accepts(lastAccepted, xs[0].time, resolution)
    then [xs[0]] + Throttle(Some(xs[0].time), xs[1..], resolution)
    else Throttle(lastAccepted, xs[1..], resolution)
  }

  function Values<T>(xs: seq<Sample<T>>): (r: seq<T>)
    ensures |r| == |xs|
    ensures forall i :: 0 <= i < |xs| ==> r[i] == xs[i].value
  {
    if xs == [] then [] else [xs[0].value] + Values(xs[1..])
  }

  /** `a` is `b` with some elements removed, the rest kept in order. */
  ghost predicate Subsequence<T>(a: seq<T>, b: seq<T>)
    decreases |b|
  {
    if a == [] then true
    else if b == [] then false
    else if a[0] == b[0] then Subsequence(a[1..], b[1..])
    else Subsequence(a, b[1..])
  }

  /** A dropped input changes nothing: it is neither queued nor averaged. */
  lemma DroppedInputIsDiscarded<T>(s: Sampler<T>, x: Sample<T>, resolution: int, pointsToKeep: int)
    requires !Accepts(s.lastAccepted, x.time, resolution)
    ensures Step(s, x, resolution, pointsToKeep) == s
  {
  }

  /** An accepted input is appended; the buffer keeps its most recent `pointsToKeep` points. */
  lemma AcceptedInputIsAppended<T>(s: Sampler<T>, x: Sample<T>, resolution: int, pointsToKeep: int)
    requires Accepts(s.lastAccepted, x.time, resolution)
    ensures Step(s, x, resolution, pointsToKeep).lastAccepted == Some(x.time)
    ensures Step(s, x, resolution, pointsToKeep).buffer == LastN(s.buffer + [x.value], Capacity(pointsToKeep))
  {
  }

  lemma LastNOfLastN<T>(a: seq<T>, b: seq<T>, n: nat)
    ensures LastN(LastN(a, n) + b, n) == LastN(a + b, n)
  {
    var l := LastN(a, n);
    var lhs := LastN(l + b, n);
    var rhs := LastN(a + b, n);
    assert |lhs| == |rhs|;
    forall i | 0 <= i < |lhs|
      ensures lhs[i] == rhs[i]
    {
      var k := |lhs| - i;  // distance from the end
      if k <= |b| {
        assert lhs[i] == b[|b| - k];
        assert rhs[i] == b[|b| - k];
      } else {
        assert lhs[i] == l[|l| + |b| - k];
        assert rhs[i] == a[|a| + |b| - k];
      }
    }
  }

  /**
   * After any sequence of raw inputs the buffer holds the last `pointsToKeep`
   * ACCEPTED points, in arrival order.
   */
  lemma {:induction false} RunBuffer<T>(s: Sampler<T>, xs: seq<Sample<T>>, resolution: int, pointsToKeep: int)
    requires |s.buffer| <= Capacity(pointsToKeep)
    ensures Run(s, xs, resolution, pointsToKeep).buffer
         == LastN(s.buffer + Values(Throttle(s.lastAccepted, xs, resolution)), Capacity(pointsToKeep))
    decreases |xs|
  {
    var c := Capacity(pointsToKeep);
    if xs == [] {
      assert s.buffer + [] == s.buffer;
    } else {
      var x, rest := xs[0], xs[1..];
      var s' := Step(s, x, resolution, pointsToKeep);
      assert Run(s, xs, resolution, pointsToKeep) == Run(s', rest, resolution, pointsToKeep);
      if Accepts(s.lastAccepted, x.time, resolution) {
        var tail := Throttle(Some(x.time), rest, resolution);
        assert Throttle(s.lastAccepted, xs, resolution) == [x] + tail;
        RunBuffer(s', rest, resolution, pointsToKeep);
        AppendThenKeep(s.buffer, x, tail, c);
      } else {
        assert Throttle(s.lastAccepted, xs, resolution) == Throttle(s.lastAccepted, rest, resolution);
        RunBuffer(s', rest, resolution, pointsToKeep);
      }
    }
  }

  lemma AppendThenKeep<T>(b: seq<T>, x: Sample<T>, tail: seq<Sample<T>>, c: nat)
    ensures LastN(LastN(b + [x.value], c) + Values(tail), c) == LastN(b + Values([x] + tail), c)
  {
    var v := Values(tail);
    var pushed := b + [x.value];
    calc {
      LastN(LastN(pushed, c) + v, c);
    == { LastNOfLastN(pushed, v, c); }
      LastN(pushed + v, c);
    == { assert pushed + v == b + ([x.value] + v); }
      LastN(b + ([x.value] + v), c);
    == { ValuesCons(x, tail); }
      LastN(b + Values([x] + tail), c);
    }
  }

  lemma ValuesCons<T>(x: Sample<T>, xs: seq<Sample<T>>)
    ensures Values([x] + xs) == [x.value] + Values(xs)
  {
    assert ([x] + xs)[1..] == xs;
  }

  /** The buffer never exceeds its capacity, whatever the inputs. */
  lemma RunBounded<T>(s: Sampler<T>, xs: seq<Sample<T>>, resolution: int, pointsToKeep: int)
    requires |s.buffer| <= Capacity(pointsToKeep)
    ensures |Run(s, xs, resolution, pointsToKeep).buffer| <= Capacity(pointsToKeep)
  {
    RunBuffer(s, xs, resolution, pointsToKeep);
  }

  /** Accepted samples are at least `resolution` apart, and after the previous guard. */
  lemma {:induction false} ThrottleSpacing<T>(lastAccepted: Option<int>, xs: seq<Sample<T>>, resolution: int)
    ensures var a := Throttle(lastAccepted, xs, resolution);
      && (lastAccepted.Some? && |a| > 0 ==> a[0].time - lastAccepted.value >= resolution)
      && forall i :: 0 <= i < |a| - 1 ==> a[i + 1].time - a[i].time >= resolution
    decreases |xs|
  {
    if xs != [] {
      if Accepts(lastAccepted, xs[0].time, resolution) {
        ThrottleSpacing(Some(xs[0].time), xs[1..], resolution);
      } else {
        ThrottleSpacing(lastAccepted, xs[1..], resolution);
      }
    }
  }

  /** The accepted samples are raw inputs, kept in arrival order. */
  lemma {:induction false} ThrottleIsSubsequence<T>(lastAccepted: Option<int>, xs: seq<Sample<T>>, resolution: int)
    ensures Subsequence(Throttle(lastAccepted, xs, resolution), xs)
    decreases |xs|
  {
    if xs != [] {
      var a := Throttle(lastAccepted, xs, resolution);
      if Accepts(lastAccepted, xs[0].time, resolution) {
        ThrottleIsSubsequence(Some(xs[0].time), xs[1..], resolution);
        assert a[0] == xs[0] && a[1..] == Throttle(Some(xs[0].time), xs[1..], resolution);
      } else {
        ThrottleIsSubsequence(lastAccepted, xs[1..], resolution);
        SubsequenceSkip(a, xs);
      }
    }
  }

  lemma {:induction false} SubsequenceSkip<T>(a: seq<T>, b: seq<T>)
    requires |b| > 0 && Subsequence(a, b[1..])
    ensures Subsequence(a, b)
    decreases |a| + |b|
  {
    if a != [] && a[0] == b[0] {
      // a[1..] is a subsequence of a, which is a subsequence of b[1..]
      SubsequenceTail(a, b[1..]);
    }
  }

  lemma {:induction false} SubsequenceTail<T>(a: seq<T>, b: seq<T>)
    requires a != [] && Subsequence(a, b)
    ensures Subsequence(a[1..], b)
    decreases |a| + |b|
  {
    if b != [] {
      if a[0] == b[0] {
        assert Subsequence(a[1..], b[1..]);
        SubsequenceSkip(a[1..], b);
      } else {
        SubsequenceTail(a, b[1..]);
        SubsequenceSkip(a[1..], b);
      }
    }
  }

  /**
   * The end-to-end scenario: resolution 1000 ms, capacity 3, raw inputs at
   * 0, 500, 1100, 1600 and 2200 ms. The inputs at 500 and 1600 fall inside a
   * window and are dropped; the buffer holds the three accepted ones.
   */
  lemma EndToEnd()
    ensures var xs := [Sample(0, 10), Sample(500, 11), Sample(1100, 12), Sample(1600, 13), Sample(2200, 14)];
      && Throttle(None, xs, 1000) == [xs[0], xs[2], xs[4]]
      && Run(Idle(), xs, 1000, 3) == Sampler([10, 12, 14], Some(2200))
  {
    var xs := [Sample(0, 10), Sample(500, 11), Sample(1100, 12), Sample(1600, 13), Sample(2200, 14)];
    var s1 := Step(Idle(), xs[0], 1000, 3);
    assert s1 == Sampler([10], Some(0));
    var s2 := Step(s1, xs[1], 1000, 3);
    assert s2 == s1;
    var s3 := Step(s2, xs[2], 1000, 3);
    assert s3 == Sampler([10, 12], Some(1100));
    var s4 := Step(s3, xs[3], 1000, 3);
    assert s4 == s3;
    var s5 := Step(s4, xs[4], 1000, 3);
    assert s5 == Sampler([10, 12, 14], Some(2200));
    assert xs[1..][1..][1..][1..][1..] == [];
    assert Run(Idle(), xs, 1000, 3) == Run(s1, xs[1..], 1000, 3);
    assert Run(s1, xs[1..], 1000, 3) == Run(s2, xs[1..][1..], 1000, 3);
    assert Run(s2, xs[1..][1..], 1000, 3) == Run(s3, xs[1..][1..][1..], 1000, 3);
    assert Run(s3, xs[1..][1..][1..], 1000, 3) == Run(s4, xs[1..][1..][1..][1..], 1000, 3);
    assert Run(s4, xs[1..][1..][1..][1..], 1000, 3) == Run(s5, xs[1..][1..][1..][1..][1..], 1000, 3);
  }
}
