/** Where subtask timelines come from in scripts/annotate_videos.py: the operator's frame boundaries,
    the balanced chunks of a long video, and the merge of the chunks' results. */
module TimelineSources {
  import opened Numeric
  import opened Timeline

  /* ---------- exact timelines ---------- */

  /** Each step ends exactly where the next one starts. */
  predicate Linked(steps: seq<Step>)
  {
    forall i :: 0 <= i < |steps| - 1 ==> steps[i].end == steps[i + 1].start
  }

  /** Steps have both bounds; in a video each has a positive length, frame ranges may be single frames. */
  predicate Forward(steps: seq<Step>, video: bool)
  {
    forall i :: 0 <= i < |steps| ==>
      && steps[i].start.Some? && steps[i].end.Some?
      && (if video then steps[i].start.value < steps[i].end.value else steps[i].start.value <= steps[i].end.value)
  }

  /** An exact partition of `[from, to]`. */
  predicate Covers(steps: seq<Step>, video: bool, from: real, to: real)
  {
    && steps != [] && Linked(steps) && Forward(steps, video)
    && steps[0].start == Some(from) && steps[|steps| - 1].end == Some(to)
  }

  predicate Counted(steps: seq<Step>)
  {
    forall i :: 0 <= i < |steps| ==> steps[i].id == Some(i + 1)
  }

  predicate Described(steps: seq<Step>)
  {
    forall i :: 0 <= i < |steps| ==> Strip(steps[i].subtask) != ""
  }

  lemma {:induction false} StartsRise(steps: seq<Step>, video: bool, from: real, to: real, i: nat)
    requires Covers(steps, video, from, to) && i < |steps|
    ensures steps[i].start.value >= from
  {
    if i > 0 { StartsRise(steps, video, from, to, i - 1); }
  }

  /** Exact timelines pass validation, and no run of theirs is folded back. */
  lemma CoveringIsAccepted(steps: seq<Step>, media: Media, to: real)
    requires Covers(steps, media.Video?, 0.0, to) && Described(steps) && FinalOk(to, media)
    ensures Validate(steps, media).Ok? && RunsForward(Cleaned(steps), media)
    ensures Validate(Validate(steps, media).value, media) == Ok(Validate(steps, media).value)
  {
    hide Strip, FinalOk, Complaint, MergeRuns, Cleaned, RunsForward, Validate, Merged;
    CoveringIsOk(steps, media, to);
    NoComplaintIff(steps, media);
    CleanedCovers(steps, media, to);
    MergedSpans(Cleaned(steps), media, to);
    ValidateIs(steps, media);
    CoveringRunsForward(Cleaned(steps), media, to);
    ValidatesAgainIff(steps, media);
  }

  lemma ValidateIs(steps: seq<Step>, media: Media)
    requires Complaint(steps, media).None? && steps != [] && Spans(Merged(Cleaned(steps)), media)
    ensures Validate(steps, media).Ok?
  {
    hide Complaint, Spans, Merged, Close;
    CloseIs(Merged(Cleaned(steps)), media);
  }

  lemma CoveringIsOk(steps: seq<Step>, media: Media, to: real)
    requires Covers(steps, media.Video?, 0.0, to) && Described(steps)
    ensures AllOk(steps, media)
  {
    hide Strip;
    forall i | 0 <= i < |steps| ensures StepOk(steps[i], media) { StartsRise(steps, media.Video?, 0.0, to, i); }
    forall i | 0 <= i < |steps| - 1 ensures Near(steps[i], steps[i + 1]) { }
  }

  lemma CleanedCovers(steps: seq<Step>, media: Media, to: real)
    requires Covers(steps, media.Video?, 0.0, to)
    ensures Covers(Cleaned(steps), media.Video?, 0.0, to)
  {
    hide CleanSubtask, CleanField;
  }

  lemma MergedSpans(steps: seq<Step>, media: Media, to: real)
    requires Covers(steps, media.Video?, 0.0, to) && FinalOk(to, media)
    ensures Spans(Merged(steps), media)
  {
    hide Sign, FinalOk, Linked, Forward;
    MergedEnds(steps);
  }

  lemma MergedEnds(steps: seq<Step>)
    requires steps != []
    ensures Merged(steps) != [] && Merged(steps)[0].start == steps[0].start
    ensures Merged(steps)[|Merged(steps)| - 1].end == steps[|steps| - 1].end
  {
    hide Sign;
    if |MergeRuns(steps, true)| == |steps| { SameLengthIsSame(steps); }
  }

  lemma {:induction false} EndsRise(steps: seq<Step>, video: bool, from: real, to: real, i: nat, j: nat)
    requires Covers(steps, video, from, to) && i <= j < |steps|
    ensures steps[i].start.value <= steps[j].start.value
    ensures if video then steps[i].start.value < steps[j].end.value else steps[i].start.value <= steps[j].end.value
    decreases j
  {
    if i < j { EndsRise(steps, video, from, to, i, j - 1); }
  }

  lemma CoveringRunsForward(steps: seq<Step>, media: Media, to: real)
    requires Covers(steps, media.Video?, 0.0, to)
    ensures RunsForward(steps, media)
  {
    hide RunStart, Sign;
    forall j | 0 <= j < |steps| && RunEnds(steps, true, j) ensures BoundsOk(RunStep(steps, true, j), media) {
      EndsRise(steps, media.Video?, 0.0, to, RunStart(steps, true, j), j);
      StartsRise(steps, media.Video?, 0.0, to, RunStart(steps, true, j));
    }
  }

  /* ---------- the operator's boundaries ---------- */

  /** One annotated range; `action` is the already normalized skill. */
  datatype Item = Item(start: Option<real>, end: Option<real>, description: string, action: string)

  /** Steps closer together than this are skipped. */
  const MINIMUM: real := 0.000001

  function Clamp(x: real): real { MinReal(1.0, MaxReal(0.0, x)) }

  /** Where a raw frame number lies between the operator's outer ones. */
  function Relative(rawEnd: real, first: real, last: real): (r: real)
    requires first < last
    ensures 0.0 <= r <= 1.0
  {
    Clamp((rawEnd - first) / (last - first))
  }

  function Scaled(whole: real, relative: real): real { whole * relative }

  function Longest(media: Media): real
  {
    match media
    case Video(duration) => if duration.Some? then duration.value else 0.0
    case Frames(count) => if count > 0 then (count - 1) as real else 0.0
  }

  /** Where an item ends on the source's own scale. */
  function MappedEnd(rawEnd: real, first: real, last: real, isLast: bool, media: Media): real
    requires first < last
  {
    var end := Scaled(Longest(media), Relative(rawEnd, first, last));
    if isLast then Longest(media) else if media.Video? then end else Round(end) as real
  }

  predicate Skipped(end: real, previous: real, media: Media)
  {
    if media.Video? then end <= previous + MINIMUM else end < previous
  }

  function Previous(steps: seq<Step>): real
  {
    if steps == [] || steps[|steps| - 1].end.None? then 0.0 else steps[|steps| - 1].end.value
  }

  /** The loop over the first `n` items. */
  function Converted(items: seq<Item>, first: real, last: real, media: Media, n: nat): Result<seq<Step>>
    requires n <= |items| && first < last
  {
    if n == 0 then Ok([])
    else match Converted(items, first, last, media, n - 1)
      case Err(e) => Err(e)
      case Ok(steps) =>
        var item := items[n - 1];
        if item.end.None? then Err(BadEnd(n))
        else
          var end := MappedEnd(item.end.value, first, last, n == |items|, media);
          if Skipped(end, Previous(steps), media) then Ok(steps)
          else if Strip(item.description) == "" then Err(NoDescription(n))
          else Ok(steps + [Step(Some(|steps| + 1), Lower(Strip(item.description)), item.action, "None", "None", "None",
                                Some(Previous(steps)), Some(end))])
  }

  function FinalEnd(media: Media): real
  {
    match media
    case Video(_) => Longest(media)
    case Frames(count) => (count - 1) as real
  }

  /** `vla_anno_to_subtasks` on a parsed, nonempty array. */
  function Convert(items: seq<Item>, media: Media): Result<seq<Step>>
  {
    if items == [] || items[0].start.None? || items[|items| - 1].end.None?
       || items[|items| - 1].end.value <= items[0].start.value then Err(BadOuterRange)
    else match Converted(items, items[0].start.value, items[|items| - 1].end.value, media, |items|)
      case Err(e) => Err(e)
      case Ok(steps) =>
        if steps == [] then Err(NoRanges)
        else Ok(steps[|steps| - 1 := steps[|steps| - 1].(end := Some(FinalEnd(media)))])
  }

  lemma MappedEndBounds(rawEnd: real, first: real, last: real, isLast: bool, media: Media)
    requires first < last && Longest(media) >= 0.0
    ensures 0.0 <= MappedEnd(rawEnd, first, last, isLast, media) <= Longest(media)
  {
    hide Relative, Scaled, Clamp, Round;
    var end := Scaled(Longest(media), Relative(rawEnd, first, last));
    ScaledBelow(Longest(media), Relative(rawEnd, first, last));
    if media.Frames? { RoundWithin(end, if media.count > 0 then media.count - 1 else 0); }
  }

  lemma ScaledBelow(whole: real, relative: real)
    requires whole >= 0.0 && 0.0 <= relative <= 1.0
    ensures 0.0 <= Scaled(whole, relative) <= whole
  {
  }

  ghost predicate Sound(steps: seq<Step>, media: Media, n: nat, all: nat)
  {
    && Linked(steps) && Forward(steps, media.Video?) && Counted(steps) && Described(steps)
    && (steps != [] ==> steps[0].start == Some(0.0))
    && 0.0 <= Previous(steps) <= Longest(media)
    && (n == all && n > 0 && media.Video? ==> Longest(media) <= Previous(steps) + MINIMUM)
    && (n == all && n > 0 && media.Frames? ==> steps != [] && Previous(steps) == Longest(media))
  }

  lemma {:induction false} ConvertedIsSound(items: seq<Item>, first: real, last: real, media: Media, n: nat)
    requires n <= |items| && first < last && Longest(media) >= 0.0
    ensures Converted(items, first, last, media, n).Ok? ==> Sound(Converted(items, first, last, media, n).value, media, n, |items|)
  {
    hide Strip, MappedEnd;
    if n > 0 {
      ConvertedIsSound(items, first, last, media, n - 1);
      var before, item := Converted(items, first, last, media, n - 1), items[n - 1];
      if before.Ok? && item.end.Some? {
        var end := MappedEnd(item.end.value, first, last, n == |items|, media);
        MappedEndBounds(item.end.value, first, last, n == |items|, media);
        LastEnd(item.end.value, first, last, media);
        SoundStep(before.value, media, n, |items|, end, item);
      }
    }
  }

  lemma LastEnd(rawEnd: real, first: real, last: real, media: Media)
    requires first < last
    ensures MappedEnd(rawEnd, first, last, true, media) == Longest(media)
  {
  }

  lemma SoundStep(steps: seq<Step>, media: Media, n: nat, all: nat, end: real, item: Item)
    requires 0 < n <= all && Sound(steps, media, n - 1, all) && 0.0 <= end <= Longest(media)
    requires n == all ==> end == Longest(media)
    ensures Skipped(end, Previous(steps), media) ==> Sound(steps, media, n, all)
    ensures !Skipped(end, Previous(steps), media) && Strip(item.description) != "" ==>
      Sound(steps + [Step(Some(|steps| + 1), Lower(Strip(item.description)), item.action, "None", "None", "None",
                          Some(Previous(steps)), Some(end))], media, n, all)
  {
    if Strip(item.description) != "" { CleanStaysNonempty(item.description); }
    hide Strip;
  }

  /** The converter's result is an exact partition of the source, numbered from one: of `[0, duration]` by
      positive steps, or of the frames `0 .. count - 1`. */
  lemma ConversionCoversTheSource(items: seq<Item>, media: Media)
    requires Convert(items, media).Ok?
    requires match media case Video(duration) => duration.Some? && duration.value >= 0.0 case Frames(count) => count >= 1
    ensures
      var steps := Convert(items, media).value;
      Covers(steps, media.Video?, 0.0, Longest(media)) && Counted(steps) && Described(steps)
  {
    hide Strip, MappedEnd, Converted;
    ConvertedIsSound(items, items[0].start.value, items[|items| - 1].end.value, media, |items|);
  }

  predicate WellFormed(items: seq<Item>)
  {
    && items != [] && items[0].start.Some?
    && (forall i :: 0 <= i < |items| ==> items[i].end.Some? && Strip(items[i].description) != "")
    && items[0].start.value < items[|items| - 1].end.value
  }

  lemma {:induction false} ConvertedNeverFails(items: seq<Item>, first: real, last: real, media: Media, n: nat)
    requires n <= |items| && first < last && WellFormed(items)
    ensures Converted(items, first, last, media, n).Ok?
  {
    hide Strip, MappedEnd;
    if n > 0 { ConvertedNeverFails(items, first, last, media, n - 1); }
  }

  lemma {:induction false} ShortVideoSkipsAll(items: seq<Item>, first: real, last: real, media: Media, n: nat)
    requires n <= |items| && first < last && media.Video? && 0.0 <= Longest(media) <= MINIMUM
    ensures Converted(items, first, last, media, n).Ok? ==> Converted(items, first, last, media, n).value == []
  {
    hide Strip, MappedEnd;
    if n > 0 {
      ShortVideoSkipsAll(items, first, last, media, n - 1);
      if items[n - 1].end.Some? { MappedEndBounds(items[n - 1].end.value, first, last, n == |items|, media); }
    }
  }

  /** Well-formed annotations convert exactly when the video is longer than one microsecond;
      frame sequences always do. */
  lemma ConversionSucceedsIff(items: seq<Item>, media: Media)
    requires WellFormed(items)
    requires match media case Video(duration) => duration.Some? && duration.value >= 0.0 case Frames(count) => count >= 1
    ensures Convert(items, media).Ok? <==> (media.Video? ==> Longest(media) > MINIMUM)
  {
    hide Strip, MappedEnd, Converted;
    var first, last := items[0].start.value, items[|items| - 1].end.value;
    ConvertedNeverFails(items, first, last, media, |items|);
    ConvertedIsSound(items, first, last, media, |items|);
    if media.Video? && Longest(media) <= MINIMUM { ShortVideoSkipsAll(items, first, last, media, |items|); }
  }

  /** What the converter returns is accepted, and validation is idempotent on it. */
  lemma ConversionIsAccepted(items: seq<Item>, media: Media)
    requires Convert(items, media).Ok?
    requires match media case Video(duration) => duration.Some? && duration.value >= 0.0 case Frames(count) => count >= 1
    ensures
      var once := Validate(Convert(items, media).value, media);
      once.Ok? && Validate(once.value, media) == once
  {
    hide Convert, Validate, Covers, Described;
    ConversionCoversTheSource(items, media);
    CoveringIsAccepted(Convert(items, media).value, media, Longest(media));
  }

  /** The conversion loop. */
  method ConvertItems(items: seq<Item>, media: Media) returns (r: Result<seq<Step>>)
    ensures r == Convert(items, media)
  {
    hide Strip, MappedEnd, Skipped;
    if items == [] || items[0].start.None? || items[|items| - 1].end.None? { return Err(BadOuterRange); }
    var first, last := items[0].start.value, items[|items| - 1].end.value;
    if last <= first { return Err(BadOuterRange); }
    var steps: seq<Step> := [];
    var previous := 0.0;
    var i := 0;
    while i < |items|
      invariant i <= |items| && Converted(items, first, last, media, i) == Ok(steps)
      invariant previous == Previous(steps)
    {
      var item := items[i];
      if item.end.None? {
        ErrorsStay(items, first, last, media, i + 1);
        return Err(BadEnd(i + 1));
      }
      var end := MappedEnd(item.end.value, first, last, i == |items| - 1, media);
      if !Skipped(end, previous, media) {
        var description := Strip(item.description);
        if description == "" {
          ErrorsStay(items, first, last, media, i + 1);
          return Err(NoDescription(i + 1));
        }
        steps := steps + [Step(Some(|steps| + 1), Lower(description), item.action, "None", "None", "None", Some(previous), Some(end))];
        previous := end;
      }
      i := i + 1;
    }
    if steps == [] { return Err(NoRanges); }
    return Ok(steps[|steps| - 1 := steps[|steps| - 1].(end := Some(FinalEnd(media)))]);
  }

  lemma {:induction false} ErrorsStay(items: seq<Item>, first: real, last: real, media: Media, n: nat)
    requires n <= |items| && first < last && Converted(items, first, last, media, n).Err?
    ensures Converted(items, first, last, media, |items|) == Converted(items, first, last, media, n)
    decreases |items| - n
  {
    hide Strip, MappedEnd, Skipped;
    if n < |items| { ErrorsStay(items, first, last, media, n + 1); }
  }

  /* ---------- chunks ---------- */

  datatype Range = Range(start: real, span: real)

  /** The operator's limit on one request, in seconds. */
  const LIMIT: real := 300.0

  function ChunkCount(duration: real, chunkSeconds: real): (n: int)
    requires chunkSeconds > 0.0
    ensures n >= 2
  {
    var needed := Ceil(duration / chunkSeconds);
    if needed > 2 then needed else 2
  }

  /** Consecutive ranges from 0 that end exactly at `duration`. */
  predicate Tiles(ranges: seq<Range>, duration: real)
  {
    && ranges != [] && ranges[0].start == 0.0
    && (forall i :: 0 <= i < |ranges| - 1 ==> ranges[i].start + ranges[i].span == ranges[i + 1].start)
    && ranges[|ranges| - 1].start + ranges[|ranges| - 1].span == duration
  }

  /** An equal share of the duration. */
  function Share(duration: real, n: int): real
    requires n > 0
  {
    duration / n as real
  }

  lemma Shares(duration: real, n: int)
    requires n > 0
    ensures n as real * Share(duration, n) == duration
  {
  }

  lemma EnoughChunks(duration: real, chunkSeconds: real, n: int)
    requires duration > 0.0 && chunkSeconds > 0.0 && n > 0 && n as real >= duration / chunkSeconds
    ensures Share(duration, n) <= chunkSeconds
  {
    var wanted := duration / chunkSeconds;
    assert wanted * chunkSeconds == duration;
    ScaleUp(wanted, n as real, chunkSeconds);
    assert duration <= n as real * chunkSeconds;
    Shares(duration, n);
    if Share(duration, n) > chunkSeconds { ScaleIsStrict(chunkSeconds, Share(duration, n), n as real); }
  }

  lemma ScaleUp(a: real, b: real, k: real)
    requires a <= b && k > 0.0
    ensures a * k <= b * k
  {
  }

  /** `vla_chunk_ranges`. */
  method ChunkRanges(duration: real, chunkSeconds: real) returns (ranges: seq<Range>)
    requires chunkSeconds > 0.0
    ensures Tiles(ranges, duration)
    ensures duration <= LIMIT ==> ranges == [Range(0.0, duration)]
    ensures duration > LIMIT ==> |ranges| == ChunkCount(duration, chunkSeconds)
    ensures forall i :: 0 <= i < |ranges| ==> ranges[i].span == Share(duration, |ranges|)
    ensures duration > LIMIT ==> forall i :: 0 <= i < |ranges| ==> 0.0 < ranges[i].span <= chunkSeconds
  {
    hide Share, ChunkCount, Offset;
    WholeShare(duration);
    if duration <= LIMIT { return [Range(0.0, duration)]; }
    var count := ChunkCount(duration, chunkSeconds);
    var nominal := Share(duration, count);
    Balanced(duration, chunkSeconds, count);
    ranges := [];
    var start, i := 0.0, 0;
    OffsetNext(0, nominal);
    while i < count
      invariant 0 <= i <= count && |ranges| == i && start == Offset(i, nominal)
      invariant forall k :: 0 <= k < i ==> ranges[k] == Range(Offset(k, nominal), nominal)
    {
      OffsetNext(i, nominal);
      var span := if i == count - 1 then duration - start else nominal;
      ranges := ranges + [Range(start, span)];
      start := start + span;
      i := i + 1;
    }
    forall k | 0 <= k < count ensures Offset(k + 1, nominal) == Offset(k, nominal) + nominal { OffsetNext(k, nominal); }
  }

  /** Where the `k`-th of equal chunks starts. */
  function Offset(k: nat, span: real): real { if k == 0 then 0.0 else Offset(k - 1, span) + span }

  lemma OffsetNext(k: nat, span: real)
    ensures Offset(0, span) == 0.0 && Offset(k + 1, span) == Offset(k, span) + span
  {
  }

  lemma WholeShare(duration: real)
    ensures Share(duration, 1) == duration
  {
  }

  lemma {:induction false} OffsetIs(k: nat, span: real)
    ensures Offset(k, span) == k as real * span
  {
    if k > 0 {
      OffsetIs(k - 1, span);
      OneMore((k - 1) as real, span);
    }
  }

  lemma OneMore(x: real, y: real)
    ensures x * y + y == (x + 1.0) * y
  {
  }

  lemma Balanced(duration: real, chunkSeconds: real, count: int)
    requires chunkSeconds > 0.0 && count == ChunkCount(duration, chunkSeconds) && duration > 0.0
    ensures Offset(count - 1, Share(duration, count)) + Share(duration, count) == duration
    ensures 0.0 < Share(duration, count) <= chunkSeconds
  {
    OffsetIs(count, Share(duration, count));
    Shares(duration, count);
    EnoughChunks(duration, chunkSeconds, count);
    PositiveShare(duration, count);
  }

  lemma PositiveShare(duration: real, n: int)
    requires duration > 0.0 && n > 0
    ensures Share(duration, n) > 0.0
  {
  }

  /** The limit the chunks exist for is kept; the chunk length itself is exceeded by exactly the videos
      that fit into one request but not into one chunk. */
  method ChunksFit(duration: real, chunkSeconds: real) returns (ranges: seq<Range>)
    requires 0.0 < chunkSeconds <= LIMIT && duration > 0.0
    ensures Tiles(ranges, duration)
    ensures forall i :: 0 <= i < |ranges| ==> 0.0 < ranges[i].span <= LIMIT
    ensures (forall i :: 0 <= i < |ranges| ==> ranges[i].span <= chunkSeconds) <==> !(chunkSeconds < duration <= LIMIT)
  {
    ranges := ChunkRanges(duration, chunkSeconds);
    if duration <= LIMIT { assert ranges[0].span == duration; }
  }

  /* ---------- merging chunk results ---------- */

  /** A chunk's validated steps, the duration they were made for, and the chunk's place in the source. */
  datatype Chunk = Chunk(steps: seq<Step>, local: real, start: real, span: real)

  function ScaleOf(c: Chunk): real
  {
    var local := if c.local != 0.0 then c.local else c.span;
    if local > 0.0 then c.span / local else 1.0
  }

  function Shift(x: Option<real>, start: real, scale: real): Option<real>
  {
    if x.Some? then Some(Place(x.value, start, scale)) else None
  }

  function Place(x: real, start: real, scale: real): real { start + x * scale }

  /** A chunk's steps on the source's scale; its outer ends are pinned to the chunk's range. */
  function Mapped(c: Chunk): (r: seq<Step>)
    ensures |r| == |c.steps|
  {
    var n := |c.steps|;
    seq(n, i requires 0 <= i < n =>
      c.steps[i].(start := if i == 0 then Some(c.start) else Shift(c.steps[i].start, c.start, ScaleOf(c)),
                  end := if i == n - 1 then Some(c.start + c.span) else Shift(c.steps[i].end, c.start, ScaleOf(c))))
  }

  function AllMapped(chunks: seq<Chunk>): seq<Step>
  {
    if chunks == [] then [] else AllMapped(chunks[..|chunks| - 1]) + Mapped(chunks[|chunks| - 1])
  }

  /** Numbers from one, starts where the previous step ends, and the source's outer ends. */
  function Sealed(steps: seq<Step>, duration: real): (r: seq<Step>)
    ensures |r| == |steps|
  {
    var n := |steps|;
    seq(n, i requires 0 <= i < n =>
      steps[i].(id := Some(i + 1), start := if i == 0 then Some(0.0) else steps[i - 1].end,
                end := if i == n - 1 then Some(duration) else steps[i].end))
  }

  predicate Timed(steps: seq<Step>)
  {
    forall step :: step in steps ==> step.start.Some? && step.end.Some?
  }

  predicate AllTimed(chunks: seq<Chunk>)
  {
    forall c :: c in chunks ==> Timed(c.steps)
  }

  /** `merge_vla_chunk_results`; a step without its bounds is a lookup error. */
  function Merge(chunks: seq<Chunk>, duration: real): Result<seq<Step>>
  {
    var merged := MergeRuns(AllMapped(chunks), false);
    if !AllTimed(chunks) then Err(MissingBound) else if merged == [] then Err(NothingMerged) else Ok(Sealed(merged, duration))
  }

  /** The merge succeeds exactly when every step has both bounds and some chunk has a step. */
  lemma MergeSucceedsIff(chunks: seq<Chunk>, duration: real)
    ensures Merge(chunks, duration).Ok? <==> AllTimed(chunks) && exists c :: c in chunks && c.steps != []
  {
    hide AllTimed, Mapped, Sealed;
    MappedSomething(chunks);
    MergedSomething(AllMapped(chunks));
  }

  lemma {:induction false} MappedSomething(chunks: seq<Chunk>)
    ensures AllMapped(chunks) == [] <==> forall c :: c in chunks ==> c.steps == []
    decreases |chunks|
  {
    hide Mapped;
    if chunks != [] {
      var front, last := chunks[..|chunks| - 1], chunks[|chunks| - 1];
      MappedSomething(front);
      assert chunks == front + [last];
    }
  }

  lemma {:induction false} MergedSomething(steps: seq<Step>)
    ensures MergeRuns(steps, false) == [] <==> steps == []
  {
    hide Sign;
  }

  /** Whatever the chunks contain, the merged timeline is linked from 0 to the duration, numbered from one,
      and has no two neighbours with the same labels. */
  lemma MergeIsLinked(chunks: seq<Chunk>, duration: real)
    requires Merge(chunks, duration).Ok?
    ensures
      var r := Merge(chunks, duration).value;
      && r != [] && Linked(r) && Counted(r) && Distinct(r, false)
      && r[0].start == Some(0.0) && r[|r| - 1].end == Some(duration)
  {
    hide MergeRuns, AllTimed;
    MergeIsDistinct(AllMapped(chunks), false);
  }

  /** Chunks whose own timelines partition their own durations, laid side by side over the source. */
  ghost predicate Partitions(chunks: seq<Chunk>, duration: real)
  {
    && Tiles(seq(|chunks|, i requires 0 <= i < |chunks| => Range(chunks[i].start, chunks[i].span)), duration)
    && forall i :: 0 <= i < |chunks| ==> Whole(chunks[i])
  }

  predicate Whole(c: Chunk)
  {
    c.span > 0.0 && c.local > 0.0 && Covers(c.steps, true, 0.0, c.local) && Described(c.steps)
  }

  lemma ScaleFits(c: Chunk)
    requires Whole(c)
    ensures ScaleOf(c) > 0.0 && c.local * ScaleOf(c) == c.span
  {
  }

  lemma MappedCovers(c: Chunk)
    requires Whole(c)
    ensures Covers(Mapped(c), true, c.start, c.start + c.span) && Described(Mapped(c))
    ensures forall i :: 0 <= i < |c.steps| ==> Mapped(c)[i].start == Shift(c.steps[i].start, c.start, ScaleOf(c))
    ensures forall i :: 0 <= i < |c.steps| ==> Mapped(c)[i].end == Shift(c.steps[i].end, c.start, ScaleOf(c))
  {
    hide ScaleOf, Strip, Shift;
    ScaleFits(c);
    var scale, r := ScaleOf(c), Mapped(c);
    forall i | 0 <= i < |r|
      ensures r[i].start == Shift(c.steps[i].start, c.start, scale) && r[i].end == Shift(c.steps[i].end, c.start, scale)
      ensures r[i].start.Some? && r[i].end.Some? && r[i].start.value < r[i].end.value
    {
      ShiftedEnds(c.start, c.local, c.span, scale);
      ShiftedOrder(c.start, c.steps[i].start.value, c.steps[i].end.value, scale);
    }
    forall i | 0 <= i < |r| - 1 ensures r[i].end == r[i + 1].start { assert c.steps[i].end == c.steps[i + 1].start; }
  }

  lemma ShiftedEnds(start: real, local: real, span: real, scale: real)
    requires local * scale == span
    ensures Shift(Some(0.0), start, scale) == Some(start) && Shift(Some(local), start, scale) == Some(start + span)
  {
    PlaceEnds(start, local, span, scale);
    hide Place;
  }

  lemma PlaceEnds(start: real, local: real, span: real, scale: real)
    requires local * scale == span
    ensures Place(0.0, start, scale) == start && Place(local, start, scale) == start + span
  {
  }

  lemma ShiftedOrder(start: real, a: real, b: real, scale: real)
    requires a < b && scale > 0.0
    ensures Shift(Some(a), start, scale).Some? && Shift(Some(b), start, scale).Some?
    ensures Shift(Some(a), start, scale).value < Shift(Some(b), start, scale).value
  {
    PlaceOrder(start, a, b, scale);
    hide Place;
  }

  lemma PlaceOrder(start: real, a: real, b: real, scale: real)
    requires a < b && scale > 0.0
    ensures Place(a, start, scale) < Place(b, start, scale)
  {
    ScaleIsStrict(a, b, scale);
  }

  lemma JoinCovers(a: seq<Step>, b: seq<Step>, from: real, mid: real, to: real)
    requires (a == [] && from == mid) || Covers(a, true, from, mid)
    requires Covers(b, true, mid, to) && Described(a) && Described(b)
    ensures Covers(a + b, true, from, to) && Described(a + b)
  {
    hide Strip;
    var r := a + b;
    forall i | 0 <= i < |r| - 1 ensures r[i].end == r[i + 1].start {
      if i >= |a| { assert b[i - |a|].end == b[i - |a| + 1].start; }
    }
  }

  lemma {:induction false} AllMappedCovers(chunks: seq<Chunk>, duration: real, n: nat)
    requires Partitions(chunks, duration) && 0 < n <= |chunks|
    ensures Covers(AllMapped(chunks[..n]), true, 0.0, chunks[n - 1].start + chunks[n - 1].span)
    ensures Described(AllMapped(chunks[..n]))
  {
    hide Covers, Described, Mapped;
    var c := chunks[n - 1];
    assert Whole(c);
    MappedCovers(c);
    assert chunks[..n][..n - 1] == chunks[..n - 1];
    PartitionFacts(chunks, duration, n - 1);
    if n == 1 {
      NothingDescribed();
      JoinCovers([], Mapped(c), 0.0, 0.0, c.start + c.span);
    } else {
      AllMappedCovers(chunks, duration, n - 1);
      JoinCovers(AllMapped(chunks[..n - 1]), Mapped(c), 0.0, c.start, c.start + c.span);
    }
  }

  lemma NothingDescribed()
    ensures Described([])
  {
  }

  lemma PartitionFacts(chunks: seq<Chunk>, duration: real, i: nat)
    requires Partitions(chunks, duration) && i < |chunks|
    ensures i == 0 ==> chunks[0].start == 0.0
    ensures i > 0 ==> chunks[i].start == chunks[i - 1].start + chunks[i - 1].span
    ensures i == |chunks| - 1 ==> chunks[i].start + chunks[i].span == duration
  {
    var ranges := seq(|chunks|, i requires 0 <= i < |chunks| => Range(chunks[i].start, chunks[i].span));
    assert ranges[i] == Range(chunks[i].start, chunks[i].span);
    if i > 0 { assert ranges[i - 1].start + ranges[i - 1].span == ranges[i].start; }
  }

  lemma {:induction false} MergeRunsCovers(steps: seq<Step>, from: real, to: real)
    requires Covers(steps, true, from, to) && Described(steps)
    ensures Covers(MergeRuns(steps, false), true, from, to) && Described(MergeRuns(steps, false))
    decreases |steps|
  {
    hide Strip, Sign, Covers, Described;
    CoversPrefix(steps, from, to);
    var n := |steps| - 1;
    if n > 0 {
      var mid := steps[n].start.value;
      MergeRunsCovers(steps[..n], from, mid);
      CoversNext(MergeRuns(steps[..n], false), steps[n], from, mid, to);
    } else {
      assert steps[..0] == [];
      assert MergeRuns(steps, false) == steps;
    }
  }

  lemma CoversPrefix(steps: seq<Step>, from: real, to: real)
    requires Covers(steps, true, from, to) && Described(steps)
    ensures
      var n := |steps| - 1;
      && n >= 0 && steps[n].start.Some? && steps[n].end == Some(to) && steps[n].start.value < to && Strip(steps[n].subtask) != ""
      && (n > 0 ==> Covers(steps[..n], true, from, steps[n].start.value) && Described(steps[..n]))
  {
    hide Strip;
    var n := |steps| - 1;
    if n > 0 { assert steps[n - 1].end == steps[n].start; }
  }

  /** One more step either joins the last one or follows it. */
  lemma CoversNext(before: seq<Step>, next: Step, from: real, mid: real, to: real)
    requires Covers(before, true, from, mid) && Described(before)
    requires next.start == Some(mid) && next.end == Some(to) && mid < to && Strip(next.subtask) != ""
    ensures Covers(before[|before| - 1 := before[|before| - 1].(end := next.end)], true, from, to)
    ensures Described(before[|before| - 1 := before[|before| - 1].(end := next.end)])
    ensures Covers(before + [next], true, from, to) && Described(before + [next])
  {
    hide Strip;
  }

  lemma SealedIsSame(steps: seq<Step>, duration: real)
    requires Covers(steps, true, 0.0, duration) && Described(steps)
    ensures Covers(Sealed(steps, duration), true, 0.0, duration) && Described(Sealed(steps, duration))
    ensures forall i :: 0 <= i < |steps| ==> Sealed(steps, duration)[i] == steps[i].(id := Some(i + 1))
  {
    hide Strip, Described;
    forall i | 0 <= i < |steps| ensures Sealed(steps, duration)[i] == steps[i].(id := Some(i + 1)) {
      if i > 0 { assert steps[i - 1].end == steps[i].start; }
    }
    RenumberedCovers(steps, Sealed(steps, duration), duration);
  }

  lemma RenumberedCovers(steps: seq<Step>, r: seq<Step>, duration: real)
    requires Covers(steps, true, 0.0, duration) && Described(steps) && |r| == |steps|
    requires forall i :: 0 <= i < |steps| ==> r[i] == steps[i].(id := r[i].id)
    ensures Covers(r, true, 0.0, duration) && Described(r)
  {
    hide Strip;
  }

  /** Chunk timelines that partition their chunks merge into one exact partition of the source, which
      validation accepts, and accepts again unchanged. */
  lemma MergeCoversTheSource(chunks: seq<Chunk>, duration: real)
    requires Partitions(chunks, duration)
    ensures Merge(chunks, duration).Ok?
    ensures Covers(Merge(chunks, duration).value, true, 0.0, duration) && Counted(Merge(chunks, duration).value)
    ensures
      var media := Video(Some(duration));
      var once := Validate(Merge(chunks, duration).value, media);
      once.Ok? && Validate(once.value, media) == once
  {
    hide AllMapped, MergeRuns, Covers, Described, Validate, Sealed, Counted, Partitions, AllTimed;
    PartitionsAreTimed(chunks, duration);
    assert |chunks| > 0 by { PartitionsSomething(chunks, duration); }
    AllMappedCovers(chunks, duration, |chunks|);
    assert chunks[..|chunks|] == chunks;
    PartitionFacts(chunks, duration, |chunks| - 1);
    var all := AllMapped(chunks);
    MergeRunsCovers(all, 0.0, duration);
    CoversSomething(MergeRuns(all, false), 0.0, duration);
    SealedIsSame(MergeRuns(all, false), duration);
    MergeIsLinked(chunks, duration);
    CoveringIsAccepted(Merge(chunks, duration).value, Video(Some(duration)), duration);
  }

  /** End to end: annotate every chunk with the operator, convert each answer, merge: the long video gets one
      exact timeline that validation accepts. */
  lemma ChunkedAnnotationIsAccepted(chunks: seq<Chunk>, answers: seq<seq<Item>>, duration: real)
    requires |answers| == |chunks|
    requires Tiles(seq(|chunks|, i requires 0 <= i < |chunks| => Range(chunks[i].start, chunks[i].span)), duration)
    requires forall i :: 0 <= i < |chunks| ==>
      chunks[i].span > 0.0 && chunks[i].local > 0.0 && Convert(answers[i], Video(Some(chunks[i].local))) == Ok(chunks[i].steps)
    ensures Merge(chunks, duration).Ok? && Covers(Merge(chunks, duration).value, true, 0.0, duration)
    ensures Validate(Merge(chunks, duration).value, Video(Some(duration))).Ok?
  {
    hide Convert, Merge, Validate, Covers, Described, Tiles;
    forall i | 0 <= i < |chunks| ensures Whole(chunks[i]) {
      ConversionCoversTheSource(answers[i], Video(Some(chunks[i].local)));
    }
    MergeCoversTheSource(chunks, duration);
  }

  lemma PartitionsAreTimed(chunks: seq<Chunk>, duration: real)
    requires Partitions(chunks, duration)
    ensures AllTimed(chunks)
  {
    hide Tiles;
    forall c | c in chunks ensures Timed(c.steps) {
      var i :| 0 <= i < |chunks| && chunks[i] == c;
      assert Whole(chunks[i]);
    }
  }

  lemma PartitionsSomething(chunks: seq<Chunk>, duration: real)
    requires Partitions(chunks, duration)
    ensures |chunks| > 0
  {
  }

  lemma CoversSomething(steps: seq<Step>, from: real, to: real)
    requires Covers(steps, true, from, to)
    ensures steps != []
  {
  }

  /** The merging loop, chunk by chunk. */
  method MergeChunks(chunks: seq<Chunk>, duration: real) returns (r: Result<seq<Step>>)
    ensures r == Merge(chunks, duration)
  {
    hide Sign, Mapped, Sealed, AllMapped, MergeRuns, Timed;
    var merged: seq<Step> := [];
    var c := 0;
    NothingMapped(chunks);
    while c < |chunks|
      invariant c <= |chunks| && merged == MergeRuns(AllMapped(chunks[..c]), false)
      invariant forall k :: 0 <= k < c ==> Timed(chunks[k].steps)
    {
      var timed := HasBounds(chunks[c].steps);
      assert chunks[c] in chunks;
      if !timed { return Err(MissingBound); }
      MappedMore(chunks, c);
      merged := AppendSteps(merged, Mapped(chunks[c]), AllMapped(chunks[..c]));
      c := c + 1;
    }
    assert chunks[..c] == chunks;
    if merged == [] { return Err(NothingMerged); }
    return Ok(Sealed(merged, duration));
  }

  method HasBounds(steps: seq<Step>) returns (timed: bool)
    ensures timed <==> Timed(steps)
  {
    var i := 0;
    while i < |steps|
      invariant i <= |steps| && forall k :: 0 <= k < i ==> steps[k].start.Some? && steps[k].end.Some?
    {
      if steps[i].start.None? || steps[i].end.None? { return false; }
      i := i + 1;
    }
    return true;
  }

  /** A chunk's steps, one by one: one like the last only moves its end. */
  method AppendSteps(before: seq<Step>, mapped: seq<Step>, ghost base: seq<Step>) returns (merged: seq<Step>)
    requires before == MergeRuns(base, false)
    ensures merged == MergeRuns(base + mapped, false)
  {
    hide Sign, MergeRuns;
    merged := before;
    var i := 0;
    assert mapped[..0] == [] && base + [] == base;
    while i < |mapped|
      invariant i <= |mapped| && merged == MergeRuns(base + mapped[..i], false)
    {
      var step := mapped[i];
      assert base + mapped[..i + 1] == base + mapped[..i] + [step];
      MergeOne(base + mapped[..i], step);
      if merged != [] && Sign(merged[|merged| - 1], false) == Sign(step, false) {
        merged := merged[|merged| - 1 := merged[|merged| - 1].(end := step.end)];
      } else {
        merged := merged + [step];
      }
      i := i + 1;
    }
    assert mapped[..i] == mapped;
  }

  lemma MergeOne(steps: seq<Step>, step: Step)
    ensures
      var before := MergeRuns(steps, false);
      MergeRuns(steps + [step], false) ==
        (if before != [] && Sign(before[|before| - 1], false) == Sign(step, false)
         then before[|before| - 1 := before[|before| - 1].(end := step.end)] else before + [step])
  {
    hide Sign;
    assert (steps + [step])[..|steps|] == steps;
  }

  lemma NothingMapped(chunks: seq<Chunk>)
    ensures AllMapped(chunks[..0]) == [] && MergeRuns([], false) == []
  {
  }

  lemma MappedMore(chunks: seq<Chunk>, c: nat)
    requires c < |chunks|
    ensures AllMapped(chunks[..c + 1]) == AllMapped(chunks[..c]) + Mapped(chunks[c])
  {
    assert chunks[..c + 1][..c] == chunks[..c];
  }
}
