/** Integer grids laid over source time: the 2 FPS grounding anchors and the sampling window before a
    contact (scripts/annotate_videos.py), and the 5 Hz history of a learner (scripts/cpa_student_video.py). */
module FrameGrids {
  import opened Numeric

  datatype Option<+T> = None | Some(value: T)

  const EPSILON: real := 0.000000001

  /* ---------- 2 FPS anchors ---------- */

  const ANCHOR_FPS: real := 2.0

  /** The first grid index that is not before `time`, up to the epsilon. */
  function GridIndex(time: real): int { Ceil(time * ANCHOR_FPS - EPSILON) }

  function Max0(n: int): nat { if n > 0 then n else 0 }

  /** `range(first, final)`. */
  function Indices(first: int, final: int): (r: seq<int>)
    ensures |r| == Max0(final - first)
    ensures forall k :: 0 <= k < |r| ==> r[k] == first + k
  {
    seq(Max0(final - first), k requires 0 <= k < Max0(final - first) => first + k)
  }

  /** The comprehension's two extra upper bounds. */
  function Filtered(indices: seq<int>, stepEnd: real, duration: real): seq<int>
  {
    if indices == [] then []
    else
      var front, i := Filtered(indices[..|indices| - 1], stepEnd, duration), indices[|indices| - 1];
      if i as real / ANCHOR_FPS < stepEnd && i as real / ANCHOR_FPS < duration then front + [i] else front
  }

  /** `grd_anchor_times`, as grid indices; the anchor time is the index over two. */
  function Anchors(start: real, end: real, duration: real): seq<int>
  {
    var stepEnd := MinReal(end, duration);
    Filtered(Indices(Max0(GridIndex(start)), GridIndex(MinReal(stepEnd, duration))), stepEnd, duration)
  }

  lemma {:induction false} FilterRemovesNothing(indices: seq<int>, stepEnd: real, duration: real)
    requires stepEnd <= duration && forall k :: 0 <= k < |indices| ==> indices[k] < GridIndex(stepEnd)
    ensures Filtered(indices, stepEnd, duration) == indices
    decreases |indices|
  {
    if indices != [] {
      FilterRemovesNothing(indices[..|indices| - 1], stepEnd, duration);
      BelowGridIndex(indices[|indices| - 1], stepEnd);
    }
  }

  lemma BelowGridIndex(i: int, time: real)
    requires i < GridIndex(time)
    ensures i as real / ANCHOR_FPS < time
  {
    assert i + 1 <= GridIndex(time);
    assert i as real + 1.0 <= GridIndex(time) as real;
  }

  lemma GridIndexIsMonotone(a: real, b: real)
    requires a <= b
    ensures GridIndex(a) <= GridIndex(b)
  {
    assert GridIndex(a) as real < a * ANCHOR_FPS - EPSILON + 1.0;
    assert GridIndex(b) as real >= b * ANCHOR_FPS - EPSILON;
  }

  /** The extra bounds of the comprehension never drop an index. */
  lemma AnchorsAreARange(start: real, end: real, duration: real)
    ensures Anchors(start, end, duration) == Indices(Max0(GridIndex(start)), GridIndex(MinReal(end, duration)))
  {
    hide GridIndex;
    FilterRemovesNothing(Indices(Max0(GridIndex(start)), GridIndex(MinReal(end, duration))), MinReal(end, duration), duration);
  }

  /** The boundaries of an exact timeline: `cuts[i]` to `cuts[i + 1]` is subtask `i`. */
  predicate Cuts(cuts: seq<real>, duration: real)
  {
    && |cuts| >= 2 && cuts[0] == 0.0 && cuts[|cuts| - 1] == duration
    && forall i :: 0 <= i < |cuts| - 1 ==> cuts[i] <= cuts[i + 1]
  }

  /** All anchors of the first `n` subtasks, in order. */
  function AllAnchors(cuts: seq<real>, duration: real, n: nat): seq<int>
    requires n < |cuts|
  {
    if n == 0 then [] else AllAnchors(cuts, duration, n - 1) + Anchors(cuts[n - 1], cuts[n], duration)
  }

  lemma {:induction false} CutsRise(cuts: seq<real>, duration: real, i: nat)
    requires Cuts(cuts, duration) && i < |cuts|
    ensures 0.0 <= cuts[i] <= duration
  {
    CutsRiseFrom(cuts, duration, i);
    CutsRiseTo(cuts, duration, i);
  }

  lemma {:induction false} CutsRiseFrom(cuts: seq<real>, duration: real, i: nat)
    requires Cuts(cuts, duration) && i < |cuts|
    ensures 0.0 <= cuts[i]
  {
    if i > 0 { CutsRiseFrom(cuts, duration, i - 1); }
  }

  lemma {:induction false} CutsRiseTo(cuts: seq<real>, duration: real, i: nat)
    requires Cuts(cuts, duration) && i < |cuts|
    ensures cuts[i] <= duration
    decreases |cuts| - i
  {
    if i < |cuts| - 1 { CutsRiseTo(cuts, duration, i + 1); }
  }

  lemma {:induction false} AnchorsUpTo(cuts: seq<real>, duration: real, n: nat)
    requires Cuts(cuts, duration) && n < |cuts|
    ensures AllAnchors(cuts, duration, n) == Indices(0, GridIndex(cuts[n]))
  {
    hide GridIndex;
    if n == 0 {
      NothingBeforeZero();
    } else {
      AnchorsUpTo(cuts, duration, n - 1);
      CutsRise(cuts, duration, n - 1);
      CutsRise(cuts, duration, n);
      AnchorsAreARange(cuts[n - 1], cuts[n], duration);
      GridIndexIsMonotone(cuts[n - 1], cuts[n]);
      Joined(GridIndex(cuts[n - 1]), GridIndex(cuts[n]));
    }
  }

  lemma NothingBeforeZero()
    ensures GridIndex(0.0) <= 0
  {
  }

  lemma Joined(a: int, b: int)
    requires a <= b
    ensures Indices(0, a) + Indices(Max0(a), b) == Indices(0, b)
  {
  }

  /** Every grid point below the duration is an anchor of exactly one subtask, in increasing order:
      the subtasks' anchors laid end to end are 0, 1, ... up to the last one. */
  lemma AnchorsPartitionTheGrid(cuts: seq<real>, duration: real)
    requires Cuts(cuts, duration)
    ensures AllAnchors(cuts, duration, |cuts| - 1) == Indices(0, GridIndex(duration))
  {
    AnchorsUpTo(cuts, duration, |cuts| - 1);
  }

  lemma {:induction false} OwnerIsUnique(cuts: seq<real>, duration: real, i: nat, j: nat, index: int)
    requires Cuts(cuts, duration) && i < j < |cuts| - 1
    requires index in Anchors(cuts[i], cuts[i + 1], duration)
    ensures index !in Anchors(cuts[j], cuts[j + 1], duration)
  {
    hide GridIndex;
    CutsRise(cuts, duration, i + 1);
    AnchorsAreARange(cuts[i], cuts[i + 1], duration);
    AnchorsAreARange(cuts[j], cuts[j + 1], duration);
    CutsBetween(cuts, duration, i + 1, j);
    GridIndexIsMonotone(cuts[i + 1], cuts[j]);
  }

  lemma {:induction false} CutsBetween(cuts: seq<real>, duration: real, i: nat, j: nat)
    requires Cuts(cuts, duration) && i <= j < |cuts|
    ensures cuts[i] <= cuts[j]
    decreases j
  {
    if i < j { CutsBetween(cuts, duration, i, j - 1); }
  }

  /* ---------- 5 Hz history ---------- */

  const STUDENT_FPS: real := 5.0

  /** How many steps back from the query fit. */
  function HistoryCount(start: int, query: int, fps: real): int
    requires fps >= STUDENT_FPS
  {
    Floor((query - start) as real * STUDENT_FPS / fps)
  }

  function Back(k: int, fps: real): int { Round(k as real * fps / STUDENT_FPS) }

  /** `student_frame_indices`; None is the ValueError. */
  function History(start: int, query: int, fps: real): Option<seq<int>>
  {
    if start < 0 || query < start || fps < STUDENT_FPS then None
    else
      var n := HistoryCount(start, query, fps);
      if n < 0 then None else Some(seq(n + 1, i requires 0 <= i <= n => query - Back(n - i, fps)))
  }

  lemma BackIsStrict(k: int, fps: real)
    requires fps >= STUDENT_FPS && k >= 0
    ensures Back(k, fps) < Back(k + 1, fps)
  {
    var x := k as real * fps / STUDENT_FPS;
    var y := (k + 1) as real * fps / STUDENT_FPS;
    assert y == x + fps / STUDENT_FPS;
    if fps == STUDENT_FPS {
      assert x == k as real && y == (k + 1) as real;
      RoundOfInteger(k);
      RoundOfInteger(k + 1);
    } else {
      RoundSeparates(x, y);
    }
  }

  lemma CountFits(start: int, query: int, fps: real)
    requires start <= query && fps >= STUDENT_FPS
    ensures
      var n := HistoryCount(start, query, fps);
      && 0 <= n
      && n as real * fps / STUDENT_FPS <= (query - start) as real
      && (n + 1) as real * fps / STUDENT_FPS > (query - start) as real
  {
    var n := HistoryCount(start, query, fps);
    QuotientBelow((query - start) as real, n as real, fps);
    QuotientAbove((query - start) as real, n as real + 1.0, fps);
    assert (n + 1) as real == n as real + 1.0;
  }

  lemma QuotientBelow(d: real, m: real, fps: real)
    requires d >= 0.0 && fps >= STUDENT_FPS && m <= d * STUDENT_FPS / fps
    ensures m * fps / STUDENT_FPS <= d && d * STUDENT_FPS / fps >= 0.0
  {
    var q := d * STUDENT_FPS / fps;
    assert q * fps == d * STUDENT_FPS;
    Multiply(m, q, fps);
  }

  lemma QuotientAbove(d: real, m: real, fps: real)
    requires d >= 0.0 && fps >= STUDENT_FPS && m > d * STUDENT_FPS / fps
    ensures m * fps / STUDENT_FPS > d
  {
    var q := d * STUDENT_FPS / fps;
    assert q * fps == d * STUDENT_FPS;
    ScaleIsStrict(q, m, fps);
  }

  lemma Multiply(a: real, b: real, k: real)
    requires a <= b && k > 0.0
    ensures a * k <= b * k
  {
  }

  lemma BackBound(k: int, fps: real, limit: int)
    requires k as real * fps / STUDENT_FPS <= limit as real
    ensures Back(k, fps) <= limit
  {
    RoundIsMonotone(k as real * fps / STUDENT_FPS, limit as real);
    RoundOfInteger(limit);
  }

  /** The history ends at the query frame, never starts before the segment, rises strictly even where rounding
      goes to the even neighbour, and one step more would leave the segment. */
  lemma HistoryIsExact(start: int, query: int, fps: real)
    requires 0 <= start <= query && fps >= STUDENT_FPS
    ensures History(start, query, fps).Some?
    ensures
      var h := History(start, query, fps).value;
      && h != [] && h[|h| - 1] == query && h[0] >= start
      && (forall i :: 0 <= i < |h| - 1 ==> h[i] < h[i + 1])
      && |h| as real * fps / STUDENT_FPS > (query - start) as real
  {
    hide Back, HistoryCount;
    var n := HistoryCount(start, query, fps);
    CountFits(start, query, fps);
    BackBound(n, fps, query - start);
    BackOfZero(fps);
    var h := History(start, query, fps).value;
    forall i | 0 <= i < |h| - 1 ensures h[i] < h[i + 1] { BackIsStrict(n - i - 1, fps); }
  }

  lemma BackOfZero(fps: real)
    ensures Back(0, fps) == 0
  {
    RoundOfInteger(0);
  }

  /** The guard on the source rate is exact: at every slower rate some two neighbours of a long enough history are
      the same frame. */
  lemma SlowerVideosRepeatFrames(fps: real) returns (k: nat)
    requires 0.0 < fps < STUDENT_FPS
    ensures Back(k, fps) == Back(k + 1, fps)
  {
    hide Back;
    var ratio := fps / STUDENT_FPS;
    var n := Floor(1.0 / (1.0 - ratio)) + 1;
    TooFew(ratio, n);
    BackIsBelow(n, fps);
    k := 0;
    BackOfZero(fps);
    while k < n && Back(k, fps) != Back(k + 1, fps)
      invariant k <= n && Back(k, fps) >= k
      decreases n - k
    {
      BackRises(k, fps);
      k := k + 1;
    }
  }

  lemma TooFew(ratio: real, n: int)
    requires 0.0 < ratio < 1.0 && n == Floor(1.0 / (1.0 - ratio)) + 1
    ensures n > 0 && n as real * ratio + 0.5 < n as real
  {
    var q := 1.0 / (1.0 - ratio);
    Inverse(1.0 - ratio);
    Enough(n as real, q, ratio);
  }

  lemma Enough(x: real, q: real, ratio: real)
    requires ratio < 1.0 && q * (1.0 - ratio) == 1.0 && 0.0 < q < x
    ensures x * ratio + 0.5 < x
  {
    ScaleIsStrict(q, x, 1.0 - ratio);
    Distributes(x, ratio);
  }

  lemma Inverse(gap: real)
    requires gap > 0.0
    ensures (1.0 / gap) * gap == 1.0 && 1.0 / gap > 0.0
  {
  }

  lemma Distributes(n: real, ratio: real)
    ensures n * (1.0 - ratio) == n - n * ratio
  {
  }

  lemma BackIsBelow(n: nat, fps: real)
    requires n as real * (fps / STUDENT_FPS) + 0.5 < n as real
    ensures Back(n, fps) < n
  {
    assert n as real * fps / STUDENT_FPS == n as real * (fps / STUDENT_FPS);
  }

  lemma BackRises(k: nat, fps: real)
    requires 0.0 < fps
    ensures Back(k, fps) <= Back(k + 1, fps)
  {
    assert (k + 1) as real * fps / STUDENT_FPS == k as real * fps / STUDENT_FPS + fps / STUDENT_FPS;
    RoundIsMonotone(k as real * fps / STUDENT_FPS, (k + 1) as real * fps / STUDENT_FPS);
  }
}

/** Every grounding frame of an exact subtask timeline belongs to exactly one of its subtasks. */
module AnchoredTimeline {
  import T = Timeline
  import S = TimelineSources
  import G = FrameGrids

  /** The anchors of the first `n` subtasks, in order. */
  function StepAnchors(steps: seq<T.Step>, duration: real, n: nat): seq<int>
    requires n <= |steps| && S.Forward(steps, true)
  {
    if n == 0 then []
    else StepAnchors(steps, duration, n - 1) + G.Anchors(steps[n - 1].start.value, steps[n - 1].end.value, duration)
  }

  function CutsOf(steps: seq<T.Step>): (r: seq<real>)
    requires steps != [] && S.Forward(steps, true)
    ensures |r| == |steps| + 1
    ensures forall i :: 0 <= i < |steps| ==> r[i] == steps[i].start.value
    ensures r[|steps|] == steps[|steps| - 1].end.value
  {
    seq(|steps|, i requires 0 <= i < |steps| => steps[i].start.value) + [steps[|steps| - 1].end.value]
  }

  lemma {:induction false} SameAnchors(steps: seq<T.Step>, duration: real, n: nat)
    requires S.Covers(steps, true, 0.0, duration) && n <= |steps|
    ensures StepAnchors(steps, duration, n) == G.AllAnchors(CutsOf(steps), duration, n)
  {
    hide G.Anchors;
    if n > 0 {
      SameAnchors(steps, duration, n - 1);
      if n < |steps| { assert steps[n - 1].end == steps[n].start; }
    }
  }

  lemma AnchorsOfATimeline(steps: seq<T.Step>, duration: real)
    requires S.Covers(steps, true, 0.0, duration)
    ensures StepAnchors(steps, duration, |steps|) == G.Indices(0, G.GridIndex(duration))
  {
    var cuts := CutsOf(steps);
    forall i | 0 <= i < |cuts| - 1 ensures cuts[i] <= cuts[i + 1] {
      if i < |steps| - 1 { assert steps[i].end == steps[i + 1].start; }
    }
    SameAnchors(steps, duration, |steps|);
    G.AnchorsPartitionTheGrid(cuts, duration);
  }
}
