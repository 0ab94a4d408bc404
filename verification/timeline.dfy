/** Subtask timelines of scripts/annotate_videos.py: `validate_subtasks` with its label clean-up,
    its tolerances and its merging of equal neighbours.  Case folding is the ASCII one. */
module Timeline {
  import opened Numeric

  datatype Option<+T> = None | Some(value: T)

  datatype Result<+T> = Ok(value: T) | Err(error: Error)

  datatype Error = Empty | Invalid(index: nat) | BadBounds(index: nat) | Gap(index: nat) | FirstNotZero | FinalMismatch
                 | BadOuterRange | BadEnd(index: nat) | NoDescription(index: nat) | NoRanges | NothingMerged | MissingBound

  /** An empty string stands for a missing field, None for a missing or non-numeric bound. */
  datatype Step = Step(id: Option<int>, subtask: string, action: string, obj: string, source: string, target: string,
                       start: Option<real>, end: Option<real>)

  /** A video with its duration in seconds, if known, or a number of ordered frames. */
  datatype Media = Video(duration: Option<real>) | Frames(count: int)

  const NEAR: real := 0.0001

  /** `max(0.05, 1 / GRD_FRAME_FPS)`. */
  const FINAL_TOLERANCE: real := 0.5

  /* ---------- labels ---------- */

  predicate Space(c: char) { c == ' ' || c == '\t' || c == '\n' || c == '\r' }

  function LowerChar(c: char): char { if 'A' <= c <= 'Z' then c - 'A' + 'a' else c }

  function Lower(s: string): (r: string)
    ensures |r| == |s| && forall i :: 0 <= i < |s| ==> r[i] == LowerChar(s[i])
  {
    seq(|s|, i requires 0 <= i < |s| => LowerChar(s[i]))
  }

  predicate Stripped(s: string)
  {
    s != "" ==> !Space(s[0]) && !Space(s[|s| - 1])
  }

  function Strip(s: string): (r: string)
    ensures Stripped(r)
    ensures Stripped(s) ==> r == s
  {
    if s == "" then ""
    else if Space(s[0]) then Strip(s[1..])
    else if Space(s[|s| - 1]) then Strip(s[..|s| - 1])
    else s
  }

  /** `' '.join(s.split())` on a stripped string. */
  function Collapse(s: string, gap: bool): string
  {
    if s == "" then ""
    else if Space(s[0]) then Collapse(s[1..], true)
    else (if gap then " " else "") + [s[0]] + Collapse(s[1..], false)
  }

  function CleanSubtask(s: string): string { Lower(Strip(s)) }

  function CleanField(s: string): string
  {
    var t := Strip(s);
    if t == "" || t == "None" then "None" else Lower(t)
  }

  lemma CleanSubtaskTwice(s: string)
    ensures CleanSubtask(CleanSubtask(s)) == CleanSubtask(s)
    ensures Strip(s) != "" ==> CleanSubtask(s) != ""
  {
    var t := Strip(s);
    assert Stripped(Lower(t));
    assert Lower(Lower(t)) == Lower(t);
  }

  lemma CleanFieldTwice(s: string)
    ensures CleanField(CleanField(s)) == CleanField(s)
  {
    var t := Strip(s);
    assert Stripped(Lower(t));
    assert Lower(Lower(t)) == Lower(t);
    assert t != "" ==> Lower(t)[0] == LowerChar(t[0]) != 'N';
  }

  function Clean(s: Step): Step
  {
    s.(subtask := CleanSubtask(s.subtask), action := CleanField(s.action), obj := CleanField(s.obj),
       source := CleanField(s.source), target := CleanField(s.target))
  }

  lemma CleanTwice(s: Step)
    ensures Clean(Clean(s)) == Clean(s)
  {
    hide CleanSubtask, CleanField;
    CleanSubtaskTwice(s.subtask);
    CleanFieldTwice(s.action);
    CleanFieldTwice(s.obj);
    CleanFieldTwice(s.source);
    CleanFieldTwice(s.target);
  }

  datatype Signature = Signature(subtask: string, action: string, obj: string, source: string, target: string)

  function Key(s: string): string { Lower(Collapse(Strip(s), false)) }

  /** What makes two steps the same: their labels, up to spacing and case when `folded`. */
  function Sign(s: Step, folded: bool): Signature
  {
    if folded then Signature(Key(s.subtask), Key(s.action), Key(s.obj), Key(s.source), Key(s.target))
    else Signature(s.subtask, s.action, s.obj, s.source, s.target)
  }

  /* ---------- merging equal neighbours ---------- */

  /** A step like the previous one only moves that one's end. */
  function MergeRuns(steps: seq<Step>, folded: bool): (r: seq<Step>)
    ensures r == [] <==> steps == []
    ensures |r| <= |steps|
    ensures steps != [] ==> r[0].start == steps[0].start && r[|r| - 1].end == steps[|steps| - 1].end
  {
    if steps == [] then []
    else
      var front, next := MergeRuns(steps[..|steps| - 1], folded), steps[|steps| - 1];
      if front != [] && Sign(front[|front| - 1], folded) == Sign(next, folded)
        then front[|front| - 1 := front[|front| - 1].(end := next.end)]
        else front + [next]
  }

  predicate Distinct(steps: seq<Step>, folded: bool)
  {
    forall i :: 0 <= i < |steps| - 1 ==> Sign(steps[i], folded) != Sign(steps[i + 1], folded)
  }

  /** First index of the run of equal steps that `j` belongs to. */
  function RunStart(steps: seq<Step>, folded: bool, j: nat): (i: nat)
    requires j < |steps|
    ensures i <= j
  {
    if j == 0 || Sign(steps[j - 1], folded) != Sign(steps[j], folded) then j else RunStart(steps, folded, j - 1)
  }

  predicate RunEnds(steps: seq<Step>, folded: bool, j: nat)
    requires j < |steps|
  {
    j == |steps| - 1 || Sign(steps[j], folded) != Sign(steps[j + 1], folded)
  }

  /** The step that a run ending at `j` is merged into. */
  function RunStep(steps: seq<Step>, folded: bool, j: nat): Step
    requires j < |steps|
  {
    steps[RunStart(steps, folded, j)].(end := steps[j].end)
  }

  lemma {:induction false} RunStartInPrefix(steps: seq<Step>, folded: bool, n: nat, j: nat)
    requires j < n <= |steps|
    ensures RunStart(steps[..n], folded, j) == RunStart(steps, folded, j)
    ensures RunStep(steps[..n], folded, j) == RunStep(steps, folded, j)
    decreases j
  {
    if j > 0 { RunStartInPrefix(steps, folded, n, j - 1); }
  }

  lemma {:induction false} RunIsUniform(steps: seq<Step>, folded: bool, j: nat)
    requires j < |steps|
    ensures Sign(steps[RunStart(steps, folded, j)], folded) == Sign(steps[j], folded)
    decreases j
  {
    if j > 0 && Sign(steps[j - 1], folded) == Sign(steps[j], folded) { RunIsUniform(steps, folded, j - 1); }
  }

  /** The indices where runs end, in order. */
  function Ends(steps: seq<Step>, folded: bool): seq<nat>
  {
    if steps == [] then []
    else
      var n := |steps| - 1;
      var front := Ends(steps[..n], folded);
      if n > 0 && front != [] && Sign(steps[n - 1], folded) == Sign(steps[n], folded) then front[|front| - 1 := n] else front + [n]
  }

  ghost predicate EndsOf(steps: seq<Step>, folded: bool, ends: seq<nat>)
  {
    && (steps != [] ==> ends != [] && ends[|ends| - 1] == |steps| - 1)
    && (forall k :: 0 <= k < |ends| ==> ends[k] < |steps| && RunEnds(steps, folded, ends[k]))
    && (forall k :: 0 <= k < |ends| - 1 ==> ends[k] < ends[|ends| - 1])
    && (forall j :: 0 <= j < |steps| && RunEnds(steps, folded, j) ==> j in ends)
  }

  lemma {:induction false} EndsAreRunEnds(steps: seq<Step>, folded: bool)
    ensures EndsOf(steps, folded, Ends(steps, folded))
    decreases |steps|
  {
    hide Sign, EndsOf;
    if steps == [] {
      NoEnds(folded);
    } else {
      var n := |steps| - 1;
      EndsAreRunEnds(steps[..n], folded);
      EndsNext(steps, folded, Ends(steps[..n], folded));
    }
  }

  lemma NoEnds(folded: bool)
    ensures EndsOf([], folded, [])
  {
  }

  lemma EndsNext(steps: seq<Step>, folded: bool, before: seq<nat>)
    requires steps != [] && EndsOf(steps[..|steps| - 1], folded, before)
    ensures
      var n := |steps| - 1;
      var joins := n > 0 && before != [] && Sign(steps[n - 1], folded) == Sign(steps[n], folded);
      EndsOf(steps, folded, if joins then before[|before| - 1 := n] else before + [n])
  {
    hide Sign;
    var n := |steps| - 1;
    var front := steps[..n];
    var joins := n > 0 && before != [] && Sign(steps[n - 1], folded) == Sign(steps[n], folded);
    var ends := if joins then before[|before| - 1 := n] else before + [n];
    forall j | 0 <= j < n - 1 ensures RunEnds(steps, folded, j) <==> RunEnds(front, folded, j) { }
    forall j | 0 <= j < |steps| && RunEnds(steps, folded, j) ensures j in ends {
      if j == n {
        assert ends[|ends| - 1] == n;
      } else {
        assert RunEnds(front, folded, j) && j in before;
        var k :| 0 <= k < |before| && before[k] == j;
        assert ends[k] == j;
      }
    }
  }

  lemma RunStepNext(steps: seq<Step>, folded: bool, n: nat)
    requires n < |steps|
    ensures n > 0 && Sign(steps[n - 1], folded) == Sign(steps[n], folded) ==>
      RunStep(steps, folded, n) == RunStep(steps, folded, n - 1).(end := steps[n].end)
    ensures n == 0 || Sign(steps[n - 1], folded) != Sign(steps[n], folded) ==> RunStep(steps, folded, n) == steps[n]
    ensures Sign(RunStep(steps, folded, n), folded) == Sign(steps[n], folded)
  {
    RunIsUniform(steps, folded, n);
    SignIgnoresEnd(steps[RunStart(steps, folded, n)], folded, steps[n].end);
    hide Sign;
  }

  /** `merged[k]` is the run that ends at `ends[k]`. */
  ghost predicate StepsOfRuns(steps: seq<Step>, folded: bool, merged: seq<Step>, ends: seq<nat>)
  {
    && |merged| == |ends|
    && forall k :: 0 <= k < |ends| ==> ends[k] < |steps| && merged[k] == RunStep(steps, folded, ends[k])
  }

  lemma RunsInPrefix(steps: seq<Step>, folded: bool, merged: seq<Step>, ends: seq<nat>)
    requires steps != [] && StepsOfRuns(steps[..|steps| - 1], folded, merged, ends)
    ensures StepsOfRuns(steps, folded, merged, ends)
  {
    hide RunStep;
    forall k | 0 <= k < |ends| ensures merged[k] == RunStep(steps, folded, ends[k]) {
      RunStartInPrefix(steps, folded, |steps| - 1, ends[k]);
    }
  }

  /** Merging keeps exactly one step for each maximal run: the first one, with the last one's end. */
  lemma {:induction false} MergeIsOneStepPerRun(steps: seq<Step>, folded: bool)
    ensures StepsOfRuns(steps, folded, MergeRuns(steps, folded), Ends(steps, folded))
    decreases |steps|
  {
    hide Sign, EndsOf, StepsOfRuns, RunStep;
    if steps == [] {
      NoRuns(folded);
    } else {
      var front := steps[..|steps| - 1];
      MergeIsOneStepPerRun(front, folded);
      EndsInRange(front, folded);
      RunsInPrefix(steps, folded, MergeRuns(front, folded), Ends(front, folded));
      RunsNext(steps, folded, MergeRuns(front, folded), Ends(front, folded));
    }
  }

  lemma NoRuns(folded: bool)
    ensures StepsOfRuns([], folded, [], [])
  {
  }

  lemma RunsNext(steps: seq<Step>, folded: bool, merged: seq<Step>, ends: seq<nat>)
    requires steps != [] && StepsOfRuns(steps, folded, merged, ends)
    requires |steps| > 1 ==> ends != [] && ends[|ends| - 1] == |steps| - 2
    requires |steps| == 1 ==> ends == []
    ensures
      var n := |steps| - 1;
      && ((n > 0 && Sign(steps[n - 1], folded) == Sign(steps[n], folded)) <==>
          (merged != [] && Sign(merged[|merged| - 1], folded) == Sign(steps[n], folded)))
      && (n > 0 && Sign(steps[n - 1], folded) == Sign(steps[n], folded) ==>
          StepsOfRuns(steps, folded, merged[|merged| - 1 := merged[|merged| - 1].(end := steps[n].end)], ends[|ends| - 1 := n]))
      && (!(n > 0 && Sign(steps[n - 1], folded) == Sign(steps[n], folded)) ==> StepsOfRuns(steps, folded, merged + [steps[n]], ends + [n]))
  {
    hide Sign, RunStep;
    var n := |steps| - 1;
    RunStepNext(steps, folded, n);
    if n > 0 { RunStepNext(steps, folded, n - 1); }
  }

  lemma SignIgnoresEnd(s: Step, folded: bool, end: Option<real>)
    ensures Sign(s.(end := end), folded) == Sign(s, folded)
  {
  }

  lemma EndsInRange(steps: seq<Step>, folded: bool)
    ensures steps != [] ==> Ends(steps, folded) != [] && Ends(steps, folded)[|Ends(steps, folded)| - 1] == |steps| - 1
    ensures forall k :: 0 <= k < |Ends(steps, folded)| ==> Ends(steps, folded)[k] < |steps|
  {
    hide Ends;
    EndsAreRunEnds(steps, folded);
  }

  lemma {:induction false} MergeIsDistinct(steps: seq<Step>, folded: bool)
    ensures Distinct(MergeRuns(steps, folded), folded)
    decreases |steps|
  {
    if steps != [] {
      var front, next := steps[..|steps| - 1], steps[|steps| - 1];
      MergeIsDistinct(front, folded);
      var before := MergeRuns(front, folded);
      if before != [] { SignIgnoresEnd(before[|before| - 1], folded, next.end); }
      hide Sign;
      assert Distinct(MergeRuns(steps, folded), folded);
    }
  }

  /** Steps without equal neighbours stay as they are. */
  lemma {:induction false} DistinctIsMerged(steps: seq<Step>, folded: bool)
    requires Distinct(steps, folded)
    ensures MergeRuns(steps, folded) == steps
    decreases |steps|
  {
    hide Sign;
    if steps != [] { DistinctIsMerged(steps[..|steps| - 1], folded); }
  }

  /* ---------- validation ---------- */

  predicate BoundsOk(s: Step, media: Media)
  {
    && s.start.Some? && s.end.Some? && s.start.value >= 0.0
    && (if media.Video? then s.end.value > s.start.value else s.end.value >= s.start.value)
  }

  /** The loop of `validate_subtasks`: the first complaint it raises, if any. */
  function Complaint(steps: seq<Step>, media: Media): Option<Error>
  {
    if steps == [] then None
    else
      var n := |steps| - 1;
      match Complaint(steps[..n], media)
      case Some(e) => Some(e)
      case None =>
        if Strip(steps[n].subtask) == "" then Some(Invalid(n + 1))
        else if !BoundsOk(steps[n], media) then Some(BadBounds(n + 1))
        else if n > 0 && steps[n - 1].end.Some? && Abs(steps[n].start.value - steps[n - 1].end.value) > NEAR then Some(Gap(n + 1))
        else None
  }

  function Cleaned(steps: seq<Step>): (r: seq<Step>)
    ensures |r| == |steps|
    ensures forall i :: 0 <= i < |r| ==>
      r[i] == Clean(steps[i]).(id := if steps[i].id.Some? then steps[i].id else Some(i + 1))
  {
    seq(|steps|, i requires 0 <= i < |steps| =>
      Clean(steps[i]).(id := if steps[i].id.Some? then steps[i].id else Some(i + 1)))
  }

  function Numbered(steps: seq<Step>): (r: seq<Step>)
    ensures |r| == |steps| && forall i :: 0 <= i < |r| ==> r[i] == steps[i].(id := Some(i + 1))
  {
    seq(|steps|, i requires 0 <= i < |steps| => steps[i].(id := Some(i + 1)))
  }

  /** Equal neighbours are merged; only then are the steps numbered again. */
  function Merged(steps: seq<Step>): seq<Step>
  {
    var merged := MergeRuns(steps, true);
    if |merged| != |steps| then Numbered(merged) else steps
  }

  function FinalOk(end: real, media: Media): bool
  {
    match media
    case Video(duration) => duration.Some? ==> Abs(end - duration.value) <= FINAL_TOLERANCE
    case Frames(count) => Floor(end) == count - 1
  }

  /** The two outer ends, checked after merging. */
  function Close(merged: seq<Step>, media: Media): Result<seq<Step>>
  {
    if merged == [] || merged[0].start.None? || merged[|merged| - 1].end.None? then Err(Empty)
    else if Abs(merged[0].start.value) > NEAR then Err(FirstNotZero)
    else if !FinalOk(merged[|merged| - 1].end.value, media) then Err(FinalMismatch)
    else Ok(merged)
  }

  /** `validate_subtasks`. */
  function Validate(steps: seq<Step>, media: Media): Result<seq<Step>>
  {
    if steps == [] then Err(Empty)
    else match Complaint(steps, media)
      case Some(e) => Err(e)
      case None => Close(Merged(Cleaned(steps)), media)
  }

  predicate StepOk(s: Step, media: Media)
  {
    Strip(s.subtask) != "" && BoundsOk(s, media)
  }

  predicate Near(a: Step, b: Step)
  {
    a.end.Some? && b.start.Some? && Abs(b.start.value - a.end.value) <= NEAR
  }

  /** Every step starts where the previous one ended, up to 1e-4. */
  predicate Chained(steps: seq<Step>)
  {
    forall i :: 0 <= i < |steps| - 1 ==> Near(steps[i], steps[i + 1])
  }

  predicate AllOk(steps: seq<Step>, media: Media)
  {
    (forall i :: 0 <= i < |steps| ==> StepOk(steps[i], media)) && Chained(steps)
  }

  lemma AllOkSnoc(steps: seq<Step>, media: Media)
    requires steps != []
    ensures
      var n := |steps| - 1;
      AllOk(steps, media) <==>
        AllOk(steps[..n], media) && StepOk(steps[n], media) && (n > 0 ==> Near(steps[n - 1], steps[n]))
  {
    hide Near, StepOk;
    var n := |steps| - 1;
    var front := steps[..n];
    if AllOk(front, media) && StepOk(steps[n], media) && (n > 0 ==> Near(steps[n - 1], steps[n])) {
      forall i | 0 <= i < |steps| ensures StepOk(steps[i], media) { if i < n { assert StepOk(front[i], media); } }
      forall i | 0 <= i < |steps| - 1 ensures Near(steps[i], steps[i + 1]) {
        if i < n - 1 { assert Near(front[i], front[i + 1]); }
      }
    }
  }

  lemma {:induction false} NoComplaintIff(steps: seq<Step>, media: Media)
    ensures Complaint(steps, media).None? <==> AllOk(steps, media)
    decreases |steps|
  {
    hide Abs, Strip, AllOk;
    if steps == [] {
      NothingToComplain(media);
    } else {
      var n := |steps| - 1;
      NoComplaintIff(steps[..n], media);
      AllOkSnoc(steps, media);
      if n > 0 { AllOkSnoc(steps[..n], media); }
    }
  }

  lemma NothingToComplain(media: Media)
    ensures AllOk([], media)
  {
  }

  /* ---------- what an accepted timeline looks like ---------- */

  lemma {:induction false} MergeKeepsNeighbours(steps: seq<Step>, folded: bool)
    requires Chained(steps)
    ensures Chained(MergeRuns(steps, folded))
    decreases |steps|
  {
    hide Sign, Near;
    if steps != [] {
      var n := |steps| - 1;
      var front := steps[..n];
      forall i | 0 <= i < |front| - 1 ensures Near(front[i], front[i + 1]) { assert Near(steps[i], steps[i + 1]); }
      MergeKeepsNeighbours(front, folded);
      var before, r := MergeRuns(front, folded), MergeRuns(steps, folded);
      if n > 0 {
        assert Near(steps[n - 1], steps[n]);
        NearByTimes(steps[n - 1], steps[n], before[|before| - 1], steps[n]);
      }
      forall i | 0 <= i < |r| - 1 ensures Near(r[i], r[i + 1]) {
        if i < |before| - 1 {
          assert Near(before[i], before[i + 1]);
          NearByTimes(before[i], before[i + 1], r[i], r[i + 1]);
        }
      }
    }
  }

  lemma NearByTimes(a: Step, b: Step, a': Step, b': Step)
    requires Near(a, b) && a'.end == a.end && b'.start == b.start
    ensures Near(a', b')
  {
  }

  /** Both outer ends lie where the media starts and ends. */
  predicate Spans(steps: seq<Step>, media: Media)
  {
    && steps != [] && steps[0].start.Some? && 0.0 <= steps[0].start.value <= NEAR
    && steps[|steps| - 1].end.Some? && FinalOk(steps[|steps| - 1].end.value, media)
  }

  lemma CloseIs(steps: seq<Step>, media: Media)
    ensures Close(steps, media).Ok? ==> Close(steps, media).value == steps
    ensures Close(steps, media).Ok? && steps[0].start.value >= 0.0 ==> Spans(steps, media)
    ensures Spans(steps, media) ==> Close(steps, media) == Ok(steps)
  {
    hide FinalOk;
  }

  predicate CleanStep(s: Step)
  {
    Clean(s) == s && s.id.Some? && Strip(s.subtask) != ""
  }

  predicate AllClean(steps: seq<Step>)
  {
    forall i :: 0 <= i < |steps| ==> CleanStep(steps[i])
  }

  lemma CleanByLabels(s: Step, end: Option<real>, id: int)
    requires CleanStep(s)
    ensures CleanStep(s.(end := end)) && CleanStep(s.(id := Some(id)))
  {
    hide CleanSubtask, CleanField, Strip;
  }

  lemma {:induction false} MergeKeepsClean(steps: seq<Step>, folded: bool)
    requires AllClean(steps)
    ensures AllClean(MergeRuns(steps, folded))
    decreases |steps|
  {
    hide Sign, CleanStep;
    if steps != [] {
      var front, next := steps[..|steps| - 1], steps[|steps| - 1];
      MergeKeepsClean(front, folded);
      var before := MergeRuns(front, folded);
      if before != [] { CleanByLabels(before[|before| - 1], next.end, 0); }
    }
  }

  /** The timeline a successful validation returns: clean labels, no equal neighbours, gaps of at most
      1e-4, from 0 to the end of the media. */
  ghost predicate Accepted(steps: seq<Step>, media: Media)
  {
    Spans(steps, media) && Distinct(steps, true) && AllClean(steps) && Chained(steps)
  }

  lemma CleanedOk(steps: seq<Step>, media: Media)
    requires AllOk(steps, media)
    ensures AllOk(Cleaned(steps), media) && Chained(Cleaned(steps)) && AllClean(Cleaned(steps))
  {
    hide Abs, CleanField, CleanSubtask, Strip;
    var r := Cleaned(steps);
    forall i | 0 <= i < |r| ensures StepOk(r[i], media) && CleanStep(r[i]) {
      assert StepOk(steps[i], media);
      CleanTwice(steps[i]);
      CleanStaysNonempty(steps[i].subtask);
    }
    forall i | 0 <= i < |r| - 1 ensures Near(r[i], r[i + 1]) { assert Near(steps[i], steps[i + 1]); }
  }

  lemma CleanStaysNonempty(s: string)
    requires Strip(s) != ""
    ensures Strip(CleanSubtask(s)) != ""
  {
    assert Stripped(Lower(Strip(s)));
  }

  lemma NumberedIsSame(steps: seq<Step>)
    requires Distinct(steps, true) && AllClean(steps) && Chained(steps)
    ensures Distinct(Numbered(steps), true) && AllClean(Numbered(steps)) && Chained(Numbered(steps))
    ensures steps != [] ==> Numbered(steps)[0].start == steps[0].start && Numbered(steps)[|steps| - 1].end == steps[|steps| - 1].end
  {
    hide Key, CleanStep, Near;
    var r := Numbered(steps);
    forall i | 0 <= i < |r| ensures CleanStep(r[i]) { CleanByLabels(steps[i], None, i + 1); }
    forall i | 0 <= i < |r| - 1 ensures Near(r[i], r[i + 1]) {
      assert Near(steps[i], steps[i + 1]);
      NearByTimes(steps[i], steps[i + 1], r[i], r[i + 1]);
    }
  }

  lemma ValidatedIsAccepted(steps: seq<Step>, media: Media)
    requires Validate(steps, media).Ok?
    ensures Accepted(Validate(steps, media).value, media)
    ensures
      var r := Validate(steps, media).value;
      |r| == |steps| || forall i :: 0 <= i < |r| ==> r[i].id == Some(i + 1)
  {
    hide Close, MergeRuns, Complaint, Distinct, AllClean, Chained, Cleaned, Spans, AllOk;
    NoComplaintIff(steps, media);
    CloseIs(Merged(Cleaned(steps)), media);
    CleanedOk(steps, media);
    var clean := Cleaned(steps);
    MergeKeepsNeighbours(clean, true);
    MergeKeepsClean(clean, true);
    MergeIsDistinct(clean, true);
    NumberedIsSame(MergeRuns(clean, true));
    StartsNonNegative(steps, media);
    if |MergeRuns(clean, true)| == |clean| { SameLengthIsSame(clean); }
  }

  lemma StartsNonNegative(steps: seq<Step>, media: Media)
    requires AllOk(steps, media) && steps != []
    ensures Cleaned(steps)[0].start.Some? && Cleaned(steps)[0].start.value >= 0.0
  {
    assert StepOk(steps[0], media);
  }

  /** Without a merge nothing is dropped and nothing changes. */
  lemma {:induction false} SameLengthIsSame(steps: seq<Step>)
    requires |MergeRuns(steps, true)| == |steps|
    ensures MergeRuns(steps, true) == steps
    decreases |steps|
  {
    hide Sign;
    if steps != [] { SameLengthIsSame(steps[..|steps| - 1]); }
  }

  /* ---------- validating twice ---------- */

  /** Every maximal run of equal steps, taken as one step, has proper bounds. */
  predicate RunsForward(steps: seq<Step>, media: Media)
  {
    forall j :: 0 <= j < |steps| && RunEnds(steps, true, j) ==> BoundsOk(RunStep(steps, true, j), media)
  }

  /** A validated timeline validates again, to itself, exactly when no run of equal steps was folded back
      on itself: its last end lies after its first start. */
  lemma ValidatesAgainIff(steps: seq<Step>, media: Media)
    requires Validate(steps, media).Ok?
    ensures
      var once := Validate(steps, media).value;
      && (Validate(once, media) == Ok(once) <==> RunsForward(Cleaned(steps), media))
      && (Validate(once, media).Ok? ==> Validate(once, media) == Ok(once))
  {
    hide Abs, FinalOk, Sign, Near, StepOk, MergeRuns, Complaint, Accepted, RunsForward, Cleaned, AllBounds, AllOk;
    var once := Validate(steps, media).value;
    ValidatedIsAccepted(steps, media);
    NoComplaintIff(once, media);
    AcceptedAgain(once, media);
    BoundsOfMerged(steps, media);
  }

  predicate AllBounds(steps: seq<Step>, media: Media)
  {
    forall i :: 0 <= i < |steps| ==> BoundsOk(steps[i], media)
  }

  lemma AcceptedAgain(once: seq<Step>, media: Media)
    requires Accepted(once, media)
    ensures AllOk(once, media) <==> AllBounds(once, media)
    ensures AllOk(once, media) ==> Validate(once, media) == Ok(once)
  {
    hide Close, MergeRuns, Complaint, Distinct, AllClean, Chained, Cleaned, Spans, AllOk, AllBounds;
    NoComplaintIff(once, media);
    CleanIsClean(once);
    DistinctIsMerged(once, true);
    CloseIs(once, media);
    SpansSomething(once, media);
    if AllOk(once, media) { StepsHaveBounds(once, media); }
    if AllBounds(once, media) { BoundedIsOk(once, media); }
  }

  lemma SpansSomething(steps: seq<Step>, media: Media)
    requires Spans(steps, media)
    ensures steps != []
  {
  }

  lemma BoundedIsOk(steps: seq<Step>, media: Media)
    requires AllBounds(steps, media) && AllClean(steps) && Chained(steps)
    ensures AllOk(steps, media)
  {
    hide BoundsOk, Strip, Clean, Near;
    forall i | 0 <= i < |steps| ensures StepOk(steps[i], media) { assert CleanStep(steps[i]); }
  }

  lemma StepsHaveBounds(steps: seq<Step>, media: Media)
    requires AllOk(steps, media)
    ensures AllBounds(steps, media)
  {
    hide BoundsOk, Strip;
    forall i | 0 <= i < |steps| ensures BoundsOk(steps[i], media) { assert StepOk(steps[i], media); }
  }

  lemma CleanIsClean(steps: seq<Step>)
    requires AllClean(steps)
    ensures Cleaned(steps) == steps
  {
    hide Clean, Strip;
    forall i | 0 <= i < |steps| ensures Cleaned(steps)[i] == steps[i] { assert CleanStep(steps[i]); }
  }

  lemma BoundsOfMerged(steps: seq<Step>, media: Media)
    requires Validate(steps, media).Ok?
    ensures AllBounds(Validate(steps, media).value, media) <==> RunsForward(Cleaned(steps), media)
  {
    hide Abs, FinalOk, MergeRuns, Complaint, Cleaned, RunsForward, AllBounds;
    var clean := Cleaned(steps);
    MergedBounds(clean, media);
    if |MergeRuns(clean, true)| == |clean| {
      SameLengthIsSame(clean);
    } else {
      NumberedBounds(MergeRuns(clean, true), media);
    }
  }

  lemma NumberedBounds(steps: seq<Step>, media: Media)
    ensures AllBounds(Numbered(steps), media) <==> AllBounds(steps, media)
  {
    forall i | 0 <= i < |steps| ensures BoundsOk(Numbered(steps)[i], media) <==> BoundsOk(steps[i], media) { }
    hide BoundsOk;
    if AllBounds(Numbered(steps), media) {
      forall i | 0 <= i < |steps| ensures BoundsOk(steps[i], media) { assert BoundsOk(Numbered(steps)[i], media); }
    }
  }

  lemma MergedBounds(steps: seq<Step>, media: Media)
    ensures AllBounds(MergeRuns(steps, true), media) <==> RunsForward(steps, media)
  {
    hide MergeRuns, RunStep, RunEnds, Ends, BoundsOk;
    var merged, ends := MergeRuns(steps, true), Ends(steps, true);
    EndsFacts(steps);
    MergeIsOneStepPerRun(steps, true);
    if AllBounds(merged, media) {
      forall j | 0 <= j < |steps| && RunEnds(steps, true, j) ensures BoundsOk(RunStep(steps, true, j), media) {
        var k :| 0 <= k < |ends| && ends[k] == j;
        assert BoundsOk(merged[k], media);
      }
    }
  }

  lemma EndsFacts(steps: seq<Step>)
    ensures forall k :: 0 <= k < |Ends(steps, true)| ==> Ends(steps, true)[k] < |steps| && RunEnds(steps, true, Ends(steps, true)[k])
    ensures forall j :: 0 <= j < |steps| && RunEnds(steps, true, j) ==> j in Ends(steps, true)
  {
    hide Ends, RunEnds;
    EndsAreRunEnds(steps, true);
  }

  function Backward(start: real, end: real): Step
  {
    Step(Some(1), "a", "b", "c", "d", "e", Some(start), Some(end))
  }

  /** The failure is real: two equal steps inside the tolerance that run backwards together. */
  lemma BackwardRunIsRejectedTheSecondTime()
    ensures Validate([Backward(0.0001, 0.00011), Backward(0.00005, 0.00008)], Video(Some(0.3))) == Ok([Backward(0.0001, 0.00008)])
    ensures Validate([Backward(0.0001, 0.00008)], Video(Some(0.3))) == Err(BadBounds(1))
  {
    var a, b, folded, media := Backward(0.0001, 0.00011), Backward(0.00005, 0.00008), Backward(0.0001, 0.00008), Video(Some(0.3));
    NoComplaints(a, b, folded, media);
    hide Complaint, Cleaned, MergeRuns, Clean, Sign;
    LettersAreClean(a);
    LettersAreClean(b);
    TwoAreClean(a, b);
    SignIgnoresTimes(a, b);
    MergeOfTwo(a, b);
    assert Numbered([folded]) == [folded];
  }

  lemma SignIgnoresTimes(a: Step, b: Step)
    requires b == a.(start := b.start, end := b.end)
    ensures Sign(a, true) == Sign(b, true)
  {
  }

  lemma NoComplaints(a: Step, b: Step, folded: Step, media: Media)
    requires a == Backward(0.0001, 0.00011) && b == Backward(0.00005, 0.00008) && folded == Backward(0.0001, 0.00008) && media.Video?
    ensures Complaint([a, b], media) == None && Complaint([folded], media) == Some(BadBounds(1))
  {
    LettersAreClean(a);
    hide Strip, Clean;
    assert [a, b][..1] == [a] && [a][..0] == [] && [folded][..0] == [];
    assert Complaint([a], media) == None;
  }

  lemma TwoAreClean(a: Step, b: Step)
    requires Clean(a) == a && Clean(b) == b && a.id.Some? && b.id.Some?
    ensures Cleaned([a, b]) == [a, b]
  {
    hide Clean;
  }

  lemma MergeOfTwo(a: Step, b: Step)
    requires Sign(a, true) == Sign(b, true)
    ensures MergeRuns([a, b], true) == [a.(end := b.end)]
  {
    hide Sign;
    assert [a, b][..1] == [a] && [a][..0] == [];
    assert MergeRuns([a], true) == [a];
  }

  lemma LettersAreClean(s: Step)
    requires s.subtask == "a" && s.action == "b" && s.obj == "c" && s.source == "d" && s.target == "e"
    ensures Clean(s) == s && Strip(s.subtask) != ""
  {
    assert Strip("a") == "a" && Strip("b") == "b" && Strip("c") == "c" && Strip("d") == "d" && Strip("e") == "e";
    assert Lower("a") == "a" && Lower("b") == "b" && Lower("c") == "c" && Lower("d") == "d" && Lower("e") == "e";
  }

  /* ---------- the program ---------- */

  lemma ComplaintGrows(steps: seq<Step>, media: Media, i: nat)
    requires i < |steps| && Complaint(steps[..i], media).None?
    ensures Complaint(steps[..i + 1], media) ==
      (if Strip(steps[i].subtask) == "" then Some(Invalid(i + 1))
       else if !BoundsOk(steps[i], media) then Some(BadBounds(i + 1))
       else if i > 0 && steps[i - 1].end.Some? && Abs(steps[i].start.value - steps[i - 1].end.value) > NEAR then Some(Gap(i + 1))
       else None)
  {
    hide BoundsOk, Strip, Abs;
    assert steps[..i + 1][..i] == steps[..i];
  }

  lemma {:induction false} ComplaintStays(steps: seq<Step>, media: Media, i: nat)
    requires i <= |steps| && Complaint(steps[..i], media).Some?
    ensures Complaint(steps, media) == Complaint(steps[..i], media)
    decreases |steps| - i
  {
    if i < |steps| {
      assert steps[..i + 1][..i] == steps[..i];
      ComplaintStays(steps, media, i + 1);
    } else {
      assert steps[..i] == steps;
    }
  }

  /** The checking loop, then the merging loop, then the two outer ends. */
  method ValidateSubtasks(steps: seq<Step>, media: Media) returns (r: Result<seq<Step>>)
    ensures r == Validate(steps, media)
  {
    hide Strip, BoundsOk, Clean, Complaint, Close, MergeRuns;
    if steps == [] { return Err(Empty); }
    var clean: seq<Step> := [];
    var previousEnd: Option<real> := None;
    var i := 0;
    NoneYet(steps, media);
    while i < |steps|
      invariant i <= |steps| && Complaint(steps[..i], media).None?
      invariant clean == Cleaned(steps)[..i]
      invariant previousEnd == if i > 0 then steps[i - 1].end else None
    {
      var step := steps[i];
      ComplaintGrows(steps, media, i);
      if Strip(step.subtask) == "" {
        ComplaintStays(steps, media, i + 1);
        return Err(Invalid(i + 1));
      }
      if !BoundsOk(step, media) {
        ComplaintStays(steps, media, i + 1);
        return Err(BadBounds(i + 1));
      }
      BoundsArePresent(step, media);
      if previousEnd.Some? && Abs(step.start.value - previousEnd.value) > NEAR {
        ComplaintStays(steps, media, i + 1);
        return Err(Gap(i + 1));
      }
      clean := clean + [Clean(step).(id := if step.id.Some? then step.id else Some(i + 1))];
      previousEnd := step.end;
      i := i + 1;
    }
    assert steps[..i] == steps && clean == Cleaned(steps);
    var merged := MergeLoop(clean, true);
    if |merged| != |clean| { merged := Numbered(merged); } else { SameLengthIsSame(clean); }
    assert merged == Merged(Cleaned(steps));
    return Close(merged, media);
  }

  lemma NoneYet(steps: seq<Step>, media: Media)
    ensures Complaint(steps[..0], media).None?
  {
  }

  lemma BoundsArePresent(s: Step, media: Media)
    requires BoundsOk(s, media)
    ensures s.start.Some? && s.end.Some?
  {
  }

  method MergeLoop(steps: seq<Step>, folded: bool) returns (merged: seq<Step>)
    ensures merged == MergeRuns(steps, folded)
  {
    hide Sign;
    merged := [];
    var i := 0;
    assert steps[..0] == [];
    while i < |steps|
      invariant i <= |steps| && merged == MergeRuns(steps[..i], folded)
    {
      var step := steps[i];
      assert steps[..i + 1][..i] == steps[..i];
      if merged != [] && Sign(merged[|merged| - 1], folded) == Sign(step, folded) {
        merged := merged[|merged| - 1 := merged[|merged| - 1].(end := step.end)];
      } else {
        merged := merged + [step];
      }
      i := i + 1;
    }
    assert steps[..i] == steps;
  }
}
