/** Sampling of query frames before a contact: the frame window of scripts/annotate_videos.py and the
    gap check of its caller in scripts/cpa_downstream.py. */
module ContactSampling {
  import opened Numeric

  datatype Option<+T> = None | Some(value: T)

  const EPSILON: real := 0.000000001

  /** Contacts closer together than this in time count as the same one. */
  const SAME: real := 0.000001

  /** An event's contact time and source frame, either of which may be missing. */
  datatype Event = Event(time: Option<real>, frame: Option<int>)

  datatype Video = Video(fps: real, frames: nat)

  datatype Policy = Policy(lookback: real, gap: real)

  datatype Segment = Segment(start: real, end: real)

  function MaxInt(a: int, b: int): int { if a > b then a else b }

  function MinInt(a: int, b: int): int { if a < b then a else b }

  /* ---------- the window ---------- */

  predicate Earlier(e: Event, contact: real)
  {
    e.time.Some? && e.time.value < contact - SAME
  }

  /** The latest earlier contact, the first of them when several share the time. */
  function Previous(events: seq<Event>, contact: real): (r: Option<Event>)
    ensures r.Some? ==> r.value in events && Earlier(r.value, contact)
    ensures forall e :: e in events && Earlier(e, contact) ==> r.Some? && e.time.value <= r.value.time.value
    decreases |events|
  {
    if events == [] then None
    else
      var front, e := Previous(events[..|events| - 1], contact), events[|events| - 1];
      assert events == events[..|events| - 1] + [e];
      if Earlier(e, contact) && (front.None? || e.time.value > front.value.time.value) then Some(e) else front
  }

  function ContactFrame(v: Video, contact: real, frame: Option<int>): int
  {
    MinInt(v.frames - 1, MaxInt(0, if frame.Some? then frame.value else Round(contact * v.fps)))
  }

  /** The first frame not before a time, and the last one not after it, up to the epsilon. */
  function AtOrAfter(time: real, fps: real): int { Ceil(time * fps - EPSILON) }

  function AtOrBefore(time: real, fps: real): int { Floor(time * fps + EPSILON) }

  function FirstFrame(v: Video, p: Policy, s: Segment, contact: real, previous: Option<Event>): int
  {
    var lower := MaxReal(s.start, contact - p.lookback);
    var first := MaxInt(0, AtOrAfter(lower, v.fps));
    if previous.None? || previous.value.time.None? then first
    else
      var after := MaxInt(first, AtOrBefore(previous.value.time.value, v.fps) + 1);
      if previous.value.frame.Some? then MaxInt(after, previous.value.frame.value + 1) else after
  }

  function LastFrame(v: Video, p: Policy, s: Segment, contact: real, contactFrame: int): int
  {
    MinInt(MinInt(v.frames - 1, contactFrame - 1),
           MinInt(AtOrBefore(contact - p.gap, v.fps), AtOrAfter(s.end, v.fps) - 1))
  }

  function FrameOf(e: Event, fps: real): int
    requires e.time.Some?
  {
    if e.frame.Some? then e.frame.value else Round(e.time.value * fps)
  }

  function ContactFrames(events: seq<Event>, fps: real): set<int>
  {
    set e | e in events && e.time.Some? :: FrameOf(e, fps)
  }

  /** What every chosen frame must satisfy. */
  predicate Eligible(v: Video, p: Policy, s: Segment, events: seq<Event>, contact: real, frame: Option<int>, i: int)
  {
    && FirstFrame(v, p, s, contact, Previous(events, contact)) <= i
    && i <= LastFrame(v, p, s, contact, ContactFrame(v, contact, frame))
    && i !in ContactFrames(events, v.fps)
  }

  /** A reproducible sample: distinct members of the population, sorted, as many as asked for or all of them. */
  predicate SampleOf(population: seq<int>, count: int, chosen: seq<int>)
  {
    && (forall i :: 0 <= i < |chosen| - 1 ==> chosen[i] < chosen[i + 1])
    && (forall x :: x in chosen ==> x in population)
    && |chosen| == if count <= 0 then 0 else MinInt(count, |population|)
  }

  /* ---------- arithmetic of one frame ---------- */

  lemma ProductOrder(a: real, b: real, k: real)
    requires k > 0.0 && a * k < b * k
    ensures a < b
  {
  }

  lemma InFrames(i: int, time: real, fps: real)
    requires fps > 0.0
    ensures (i as real / fps) * fps == i as real && (EPSILON / fps) * fps == EPSILON
    ensures (time + EPSILON / fps) * fps == time * fps + EPSILON
    ensures (time - EPSILON / fps) * fps == time * fps - EPSILON
  {
  }

  /** A frame past the floor of a time is later than it. */
  lemma LaterThan(i: int, time: real, fps: real)
    requires fps > 0.0 && i >= AtOrBefore(time, fps) + 1
    ensures i as real / fps > time
  {
    InFrames(i, time, fps);
    ProductOrder(time, i as real / fps, fps);
  }

  lemma NotAfter(i: int, time: real, fps: real)
    requires fps > 0.0 && i <= AtOrBefore(time, fps)
    ensures i as real / fps <= time + EPSILON / fps
  {
    InFrames(i, time, fps);
    if i as real / fps > time + EPSILON / fps { ScaleIsStrict(time + EPSILON / fps, i as real / fps, fps); }
  }

  lemma NotBefore(i: int, time: real, fps: real)
    requires fps > 0.0 && i >= AtOrAfter(time, fps)
    ensures i as real / fps >= time - EPSILON / fps
  {
    InFrames(i, time, fps);
    if i as real / fps < time - EPSILON / fps { ScaleIsStrict(i as real / fps, time - EPSILON / fps, fps); }
  }

  lemma BeforeEnd(i: int, time: real, fps: real)
    requires fps > 0.0 && i <= AtOrAfter(time, fps) - 1
    ensures i as real / fps < time
  {
    InFrames(i, time, fps);
    ProductOrder(i as real / fps, time, fps);
  }

  /* ---------- the guarantees ---------- */

  /** Every eligible frame lies in the video and the segment, strictly after every earlier contact and before the
      target's frame, is no contact's frame, and keeps the configured gap and lookback up to 1e-9 frames. */
  lemma EligibleFrames(v: Video, p: Policy, s: Segment, events: seq<Event>, contact: real, frame: Option<int>, i: int)
    requires v.fps > 0.0 && v.frames > 0 && Eligible(v, p, s, events, contact, frame, i)
    ensures 0 <= i < v.frames && i < ContactFrame(v, contact, frame) && i !in ContactFrames(events, v.fps)
    ensures
      var t := i as real / v.fps;
      && (forall e :: e in events && Earlier(e, contact) ==> e.time.value < t)
      && t <= contact - p.gap + EPSILON / v.fps
      && t >= contact - p.lookback - EPSILON / v.fps && t >= s.start - EPSILON / v.fps
      && t < s.end
  {
    hide Previous, AtOrAfter, AtOrBefore, ContactFrames;
    var previous := Previous(events, contact);
    var lower := MaxReal(s.start, contact - p.lookback);
    NotBefore(i, lower, v.fps);
    NotAfter(i, contact - p.gap, v.fps);
    BeforeEnd(i, s.end, v.fps);
    if previous.Some? { LaterThan(i, previous.value.time.value, v.fps); }
  }

  /** `[index for index in range(from, to) if index not in taken]`. */
  function Free(taken: set<int>, from: int, to: int): (r: seq<int>)
    ensures forall i :: i in r <==> from <= i < to && i !in taken
    decreases if to > from then to - from else 0
  {
    if from >= to then []
    else
      var front := Free(taken, from, to - 1);
      if to - 1 in taken then front else front + [to - 1]
  }

  /** The population the sample is drawn from. */
  function Population(v: Video, p: Policy, s: Segment, events: seq<Event>, contact: real, frame: Option<int>): (r: seq<int>)
    ensures forall i :: i in r <==> Eligible(v, p, s, events, contact, frame, i)
  {
    Free(ContactFrames(events, v.fps), FirstFrame(v, p, s, contact, Previous(events, contact)),
         LastFrame(v, p, s, contact, ContactFrame(v, contact, frame)) + 1)
  }

  datatype Outcome = Sampled(frames: seq<int>) | NoContactTime | Intervening

  /** The selection loop of `sta_random_observation_frames`.  `chosen` is the deterministic sample; the error for
      an intervening contact can never be returned. */
  method ObservationFrames(v: Video, p: Policy, s: Segment, events: seq<Event>, event: Event, count: int, chosen: seq<int>)
    returns (r: Outcome)
    requires v.fps > 0.0 && v.frames > 0
    requires event.time.Some? ==> SampleOf(Population(v, p, s, events, event.time.value, event.frame), count, chosen)
    ensures r == if event.time.Some? then Sampled(chosen) else NoContactTime
  {
    if event.time.None? { return NoContactTime; }
    var contact := event.time.value;
    var earlier := EarlierTimes(events, contact);
    var samples: seq<int> := [];
    var intervening := false;
    var k := 0;
    while k < |chosen|
      invariant k <= |chosen| && samples == chosen[..k] && !intervening
    {
      var i := chosen[k];
      assert i in chosen;
      EligibleFrames(v, p, s, events, contact, event.frame, i);
      var timestamp := i as real / v.fps;
      forall j | 0 <= j < |earlier| ensures earlier[j] < timestamp { assert earlier[j] in earlier; }
      var blocked := AnyBetween(earlier, timestamp, contact - SAME);
      intervening := intervening || blocked;
      samples := samples + [i];
      k := k + 1;
    }
    assert chosen[..k] == chosen;
    return if intervening then Intervening else Sampled(samples);
  }

  method EarlierTimes(events: seq<Event>, contact: real) returns (times: seq<real>)
    ensures forall x :: x in times ==> exists e :: e in events && Earlier(e, contact) && e.time.value == x
    ensures forall e :: e in events && Earlier(e, contact) ==> e.time.value in times
  {
    times := [];
    var k := 0;
    while k < |events|
      invariant k <= |events|
      invariant forall x :: x in times ==> exists e :: e in events && Earlier(e, contact) && e.time.value == x
      invariant forall j :: 0 <= j < k && Earlier(events[j], contact) ==> events[j].time.value in times
    {
      if Earlier(events[k], contact) { times := times + [events[k].time.value]; }
      k := k + 1;
    }
  }

  method AnyBetween(times: seq<real>, low: real, high: real) returns (found: bool)
    ensures found <==> exists k :: 0 <= k < |times| && low < times[k] < high
  {
    found := false;
    var k := 0;
    while k < |times|
      invariant k <= |times| && (found <==> exists j :: 0 <= j < k && low < times[j] < high)
    {
      if low < times[k] < high { found := true; }
      k := k + 1;
    }
  }

  /* ---------- the caller's check ---------- */

  const SLACK: real := 0.00000001

  /** `minimum - 1e-8 <= gap <= lookback + 1e-8`, on the exact contact time of a frame. */
  predicate GapAccepted(v: Video, p: Policy, contactFrame: int, i: int)
    requires v.fps > 0.0
  {
    var gap := (contactFrame - i) as real / v.fps;
    p.gap - SLACK <= gap && gap <= p.lookback + SLACK
  }

  lemma GapOfFrames(contactFrame: int, i: int, fps: real)
    requires fps > 0.0
    ensures (contactFrame - i) as real / fps == contactFrame as real / fps - i as real / fps
  {
  }

  lemma EpsilonInSeconds(fps: real)
    requires fps > 0.0
    ensures EPSILON / fps <= SLACK <==> fps >= 0.1
  {
    QuotientAtMost(EPSILON, SLACK, fps);
    QuotientAtMost(EPSILON, fps, SLACK);
  }

  lemma QuotientAtMost(a: real, b: real, k: real)
    requires k > 0.0
    ensures a / k <= b <==> a <= b * k
  {
    assert (a / k) * k == a;
    if a <= b * k { if a / k > b { ScaleIsStrict(b, a / k, k); } } else { Product(a / k, b, k); }
  }

  lemma Product(a: real, b: real, k: real)
    requires k > 0.0
    ensures a <= b ==> a * k <= b * k
  {
  }

  /** The caller hands over the exact time of the contact's frame and may get `i` back. */
  predicate Queried(v: Video, p: Policy, s: Segment, events: seq<Event>, contactFrame: int, i: int)
  {
    v.fps > 0.0 && v.frames > 0 && Eligible(v, p, s, events, contactFrame as real / v.fps, Some(contactFrame), i)
  }

  /** The caller's gap check can never fail at 0.1 FPS or more. */
  lemma GapCheckPasses(v: Video, p: Policy, s: Segment, events: seq<Event>, contactFrame: int, i: int)
    requires v.fps >= 0.1 && Queried(v, p, s, events, contactFrame, i)
    ensures GapAccepted(v, p, contactFrame, i)
  {
    hide Eligible;
    EligibleFrames(v, p, s, events, contactFrame as real / v.fps, Some(contactFrame), i);
    GapOfFrames(contactFrame, i, v.fps);
    EpsilonInSeconds(v.fps);
  }

  /** ... and below that rate there are settings for which it does: the bound is exact. */
  lemma GapCheckIsSafeIff(fps: real)
    requires fps > 0.0
    ensures
      fps >= 0.1 <==>
      forall v: Video, p: Policy, s: Segment, events: seq<Event>, contactFrame: int, i: int ::
        v.fps == fps && Queried(v, p, s, events, contactFrame, i) ==> GapAccepted(v, p, contactFrame, i)
  {
    hide Queried, GapAccepted;
    if fps >= 0.1 {
      forall v: Video, p: Policy, s: Segment, events: seq<Event>, contactFrame: int, i: int |
        v.fps == fps && Queried(v, p, s, events, contactFrame, i)
        ensures GapAccepted(v, p, contactFrame, i)
      {
        GapCheckPasses(v, p, s, events, contactFrame, i);
      }
    } else {
      SlowVideoFails(fps);
    }
  }

  lemma SlowVideoFails(fps: real)
    requires 0.0 < fps < 0.1
    ensures
      var v, p := Video(fps, 2), Policy(2.0 / fps, 1.0 / fps + EPSILON / fps);
      var s := Segment(0.0, 2.0 / fps);
      Queried(v, p, s, [], 1, 0) && !GapAccepted(v, p, 1, 0)
  {
    EpsilonInSeconds(fps);
    InFrames(1, 0.0, fps);
    InFrames(2, 0.0, fps);
    var contact := 1.0 / fps;
    assert contact - (1.0 / fps + EPSILON / fps) == -(EPSILON / fps);
    assert (contact - (1.0 / fps + EPSILON / fps)) * fps + EPSILON == 0.0;
    assert (2.0 / fps) * fps == 2.0;
    assert MaxReal(0.0, contact - 2.0 / fps) == 0.0 by { Halves(fps); }
    assert 0.0 * fps == 0.0;
  }

  lemma Halves(fps: real)
    requires fps > 0.0
    ensures 1.0 / fps - 2.0 / fps <= 0.0
  {
    assert 2.0 / fps == 1.0 / fps + 1.0 / fps;
    assert 1.0 / fps > 0.0;
  }
}
