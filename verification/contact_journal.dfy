/** The contact-point submission journal of scripts/cpa_las_points.py: one identity directory,
    one process at a time below its lock, a crash possible after every single file operation. */
module ContactJournal {

  datatype Option<+T> = None | Some(value: T)

  datatype Status = Completed | Failed | TimedOut | Cancelled | Running | Absent

  datatype Code = Zero | ModelFailed | OtherCode

  datatype Answer = Answer(taskId: Option<string>, status: Status, code: Code)

  datatype Submission = Submission(taskId: Option<string>)

  /** `response.json`, `submit.json`, `submission-started.json`, `poll.json`, and the task ids
      under `failed-submissions/`, whose file names are injective in them. */
  datatype Files = Files(response: Option<Answer>, submit: Option<Submission>, started: bool, poll: Option<Answer>,
                         archived: set<string>)

  datatype Result = Stopped | Returned(answer: Answer) | OutcomeUnknown | TooManyFailures | TaskFailed | NoTaskId
                  | RequestFailed | BadCompletion

  /** Where `_resolve` stands between two file operations or requests. */
  datatype Pc =
    | Out(result: Result)
    | Head
    | Prepared
    | Marked
    | Sent
    | Received(sub: Submission)
    | Polling(sub: Submission)
    | Polled(sub: Submission, answer: Answer)
    | Archiving(sub: Submission)
    | Unlinking(stage: nat)

  datatype Post = Unanswered | Answered(taskId: Option<string>)

  /** `posts`, `failures`, `marks` and `recorded` are histories: the submit requests sent, the task
      ids the service reported as failed models, and the writes of the start marker and of `submit.json`. */
  datatype World = World(files: Files, pc: Pc, posts: seq<Post>, failures: set<string>, marks: nat, recorded: nat)

  const INITIAL: World := World(Files(None, None, false, None, {}), Out(Stopped), [], {}, 0, 0)

  datatype Event = Begin | Crash | Tick | Reply(sub: Submission) | Fail(transient: bool) | Poll(answer: Answer)

  predicate Named(taskId: Option<string>)
  {
    taskId.Some? && taskId.value != ""
  }

  /** The one outcome that may be retried. */
  predicate Retryable(a: Answer)
  {
    a.taskId.Some? && a.status == Failed && a.code == ModelFailed
  }

  /** The decision of `_retire_failed_submission`, before it touches a file. */
  function Retire(w: World, sub: Submission, afterPoll: bool): Pc
  {
    if !Named(sub.taskId) then (if afterPoll then Out(TaskFailed) else Polling(sub))
    else if sub.taskId.value in w.files.archived then Unlinking(0)
    else if w.files.poll.None? || !Retryable(w.files.poll.value) || w.files.poll.value.taskId != sub.taskId
      then (if afterPoll then Out(TaskFailed) else Polling(sub))
    else if |w.files.archived| >= 2 then Out(TooManyFailures)
    else Archiving(sub)
  }

  function AtHead(w: World): World
  {
    if w.files.response.Some? then w.(pc := Out(Returned(w.files.response.value)))
    else match w.files.submit
      case Some(sub) => w.(pc := Retire(w, sub, false))
      case None => w.(pc := if w.files.started then Out(OutcomeUnknown) else Prepared)
  }

  function AfterPoll(w: World, sub: Submission, a: Answer): World
  {
    match a.status
    case Completed =>
      if a.code != Zero then w.(pc := Out(BadCompletion))
      else w.(files := w.files.(response := Some(a)), pc := Out(Returned(a)))
    case Running => w.(pc := Polling(sub))
    case Absent => w.(pc := Out(RequestFailed))
    case _ => w.(pc := Retire(w, sub, true))
  }

  function Learn(w: World, a: Answer): World
  {
    w.(files := w.files.(poll := Some(a)),
       failures := if Retryable(a) then w.failures + {a.taskId.value} else w.failures)
  }

  function AtTick(w: World): World
  {
    match w.pc
    case Head => AtHead(w)
    case Prepared => w.(files := w.files.(started := true), marks := w.marks + 1, pc := Marked)
    case Marked => w.(posts := w.posts + [Unanswered], pc := Sent)
    case Received(sub) => w.(files := w.files.(submit := Some(sub)), recorded := w.recorded + 1, pc := Polling(sub))
    case Polling(sub) => if Named(sub.taskId) then w else w.(pc := Out(NoTaskId))
    case Polled(sub, a) => AfterPoll(w, sub, a)
    case Archiving(sub) =>
      if sub.taskId.None? then w
      else w.(files := w.files.(archived := w.files.archived + {sub.taskId.value}), pc := Unlinking(0))
    case Unlinking(stage) =>
      if stage == 0 then w.(files := w.files.(poll := None), pc := Unlinking(1))
      else if stage == 1 then w.(files := w.files.(started := false), pc := Unlinking(2))
      else w.(files := w.files.(submit := None), pc := Head)
    case _ => w
  }

  /** One event; one that does not fit the current point changes nothing. */
  function Next(w: World, e: Event): World
  {
    match e
    case Crash => w.(pc := Out(Stopped))
    case Begin => if w.pc.Out? then w.(pc := Head) else w
    case Tick => AtTick(w)
    case Reply(sub) =>
      if w.pc.Sent? && w.posts != [] then w.(posts := w.posts[|w.posts| - 1 := Answered(sub.taskId)], pc := Received(sub))
      else w
    case Fail(transient) =>
      if w.pc.Sent? || w.pc.Prepared? || (w.pc.Polling? && Named(w.pc.sub.taskId) && !transient)
        then w.(pc := Out(RequestFailed)) else w
    case Poll(a) =>
      if w.pc.Polling? && Named(w.pc.sub.taskId) then Learn(w, a).(pc := Polled(w.pc.sub, a)) else w
  }

  function Run(w: World, events: seq<Event>): World
  {
    if events == [] then w else Next(Run(w, events[..|events| - 1]), events[|events| - 1])
  }

  /* ---------- the invariant ---------- */

  /** An earlier submission whose failure is proven and filed. */
  predicate Settled(post: Post, archived: set<string>)
  {
    post.Answered? && Named(post.taskId) && post.taskId.value in archived
  }

  predicate AllSettled(posts: seq<Post>, archived: set<string>)
  {
    forall i :: 0 <= i < |posts| ==> Settled(posts[i], archived)
  }

  ghost predicate Open(w: World, last: Post)
  {
    w.posts != [] && w.posts[|w.posts| - 1] == last && AllSettled(w.posts[..|w.posts| - 1], w.files.archived)
  }

  ghost predicate Filed(w: World)
  {
    && |w.files.archived| <= 2 && w.files.archived <= w.failures
    && (w.files.poll.Some? && Retryable(w.files.poll.value) ==> w.files.poll.value.taskId.value in w.failures)
  }

  /** The start marker and `submit.json` say how the last submission stands. */
  ghost predicate Marks(w: World)
  {
    && (w.files.submit.Some? ==> Open(w, Answered(w.files.submit.value.taskId)) && w.marks == w.recorded)
    && (w.files.submit.None? && !w.files.started ==> AllSettled(w.posts, w.files.archived) && w.marks == w.recorded)
    && (w.files.submit.None? && w.files.started ==>
          w.marks == w.recorded + 1 && (w.posts != [] ==> AllSettled(w.posts[..|w.posts| - 1], w.files.archived)))
  }

  ghost predicate Position(w: World)
  {
    match w.pc
    case Out(_) => true
    case Head => true
    case Prepared => w.files.response.None? && w.files.submit.None? && !w.files.started
    case Marked => w.files.response.None? && w.files.submit.None? && w.files.started && AllSettled(w.posts, w.files.archived)
    case Sent => w.files.response.None? && w.files.submit.None? && w.files.started && Open(w, Unanswered)
    case Received(sub) => w.files.response.None? && w.files.submit.None? && w.files.started && Open(w, Answered(sub.taskId))
    case Polling(sub) => w.files.response.None? && w.files.submit == Some(sub)
    case Polled(sub, a) => w.files.response.None? && w.files.submit == Some(sub) && w.files.poll == Some(a) && Named(sub.taskId)
    case Archiving(sub) =>
      && w.files.response.None? && w.files.submit == Some(sub) && Named(sub.taskId)
      && |w.files.archived| <= 1 && sub.taskId.value in w.failures
    case Unlinking(stage) => Retiring(w) && stage <= 2 && (stage == 2 ==> !w.files.started) && (stage >= 1 ==> w.files.poll.None?)
  }

  ghost predicate Valid(w: World)
  {
    Filed(w) && Marks(w) && Position(w)
  }

  /** The failed task is archived, its current pointers are not all gone yet. */
  ghost predicate Retiring(w: World)
  {
    && w.files.response.None? && w.files.submit.Some? && Named(w.files.submit.value.taskId)
    && w.files.submit.value.taskId.value in w.files.archived
    && (w.pc.Out? || w.pc.Head? || w.pc.Unlinking?)
  }

  lemma MoreArchived(posts: seq<Post>, archived: set<string>, more: set<string>)
    requires AllSettled(posts, archived) && archived <= more
    ensures AllSettled(posts, more)
  {
  }

  lemma PrefixSettled(posts: seq<Post>, archived: set<string>)
    requires posts != [] && AllSettled(posts, archived)
    ensures AllSettled(posts[..|posts| - 1], archived)
  {
  }

  lemma SettledSnoc(posts: seq<Post>, archived: set<string>)
    requires posts != [] && AllSettled(posts[..|posts| - 1], archived) && Settled(posts[|posts| - 1], archived)
    ensures AllSettled(posts, archived)
  {
    forall i | 0 <= i < |posts| ensures Settled(posts[i], archived) {
      if i < |posts| - 1 { assert posts[..|posts| - 1][i] == posts[i]; }
    }
  }

  lemma NextKeeps(w: World, e: Event)
    requires Valid(w)
    ensures Valid(Next(w, e))
  {
    hide AllSettled, Retryable, Named;
    var w' := Next(w, e);
    match e
    case Tick => TickKeeps(w);
    case Reply(sub) =>
      if w.pc.Sent? && w.posts != [] { assert w'.posts[..|w'.posts| - 1] == w.posts[..|w.posts| - 1]; }
    case _ =>
  }

  lemma TickKeeps(w: World)
    requires Valid(w)
    ensures Valid(AtTick(w))
  {
    match w.pc
    case Archiving(sub) => ArchiveKeeps(w, sub);
    case Unlinking(stage) => UnlinkKeeps(w, stage);
    case Head => DecideKeeps(w);
    case Polled(sub, a) => DecideKeeps(w);
    case _ => SubmitKeeps(w);
  }

  lemma ArchiveKeeps(w: World, sub: Submission)
    requires Valid(w) && w.pc == Archiving(sub)
    ensures Valid(AtTick(w))
  {
    hide AllSettled, Retryable;
    MoreArchived(w.posts[..|w.posts| - 1], w.files.archived, AtTick(w).files.archived);
  }

  lemma UnlinkKeeps(w: World, stage: nat)
    requires Valid(w) && w.pc == Unlinking(stage)
    ensures Valid(AtTick(w))
  {
    hide AllSettled, Retryable, Named;
    if stage == 2 { SettledSnoc(w.posts, w.files.archived); }
  }

  lemma DecideKeeps(w: World)
    requires Valid(w) && (w.pc.Head? || w.pc.Polled?)
    ensures Valid(AtTick(w))
  {
    hide AllSettled, Retryable, Named;
  }

  lemma SubmitKeeps(w: World)
    requires Valid(w) && !w.pc.Archiving? && !w.pc.Unlinking? && !w.pc.Head? && !w.pc.Polled?
    ensures Valid(AtTick(w))
  {
    hide AllSettled, Retryable, Named;
    var w' := AtTick(w);
    if w.pc.Prepared? && w.posts != [] { PrefixSettled(w.posts, w.files.archived); }
    if w.pc.Marked? { assert w'.posts[..|w'.posts| - 1] == w.posts; }
  }

  lemma {:induction false} RunIsValid(events: seq<Event>)
    ensures Valid(Run(INITIAL, events))
    decreases |events|
  {
    hide Valid, Next;
    if events == [] {
      InitialIsValid();
    } else {
      RunIsValid(events[..|events| - 1]);
      NextKeeps(Run(INITIAL, events[..|events| - 1]), events[|events| - 1]);
    }
  }

  lemma InitialIsValid()
    ensures Valid(INITIAL)
  {
  }

  /* ---------- the guarantees ---------- */

  predicate DistinctIds(posts: seq<Post>)
  {
    forall i, j :: 0 <= i < j < |posts| && posts[i].Answered? && posts[j].Answered? && Named(posts[i].taskId) ==>
      posts[i].taskId != posts[j].taskId
  }

  function Ids(posts: seq<Post>): set<string>
  {
    set p | p in posts && p.Answered? && p.taskId.Some? :: p.taskId.value
  }

  lemma {:induction false} DistinctIdsCount(posts: seq<Post>, archived: set<string>)
    requires AllSettled(posts, archived) && DistinctIds(posts)
    ensures |Ids(posts)| == |posts| && Ids(posts) <= archived
  {
    if posts != [] {
      var front, last := posts[..|posts| - 1], posts[|posts| - 1];
      DistinctIdsCount(front, archived);
      assert posts == front + [last];
      assert Settled(last, archived);
      assert last.taskId.value !in Ids(front);
      assert Ids(posts) == Ids(front) + {last.taskId.value};
    }
  }

  lemma SubsetSize<T>(small: set<T>, big: set<T>)
    requires small <= big
    ensures |small| <= |big|
  {
    assert big == small + (big - small);
  }

  /** Whatever the schedule of crashes and restarts: as long as the service hands out fresh task ids,
      one image costs at most three submissions. */
  lemma AtMostThreeSubmissions(events: seq<Event>)
    requires DistinctIds(Run(INITIAL, events).posts)
    ensures |Run(INITIAL, events).posts| <= 3
  {
    hide Run;
    RunIsValid(events);
    var w := Run(INITIAL, events);
    if w.posts != [] {
      var earlier := w.posts[..|w.posts| - 1];
      EarlierAreSettled(w);
      assert DistinctIds(earlier);
      DistinctIdsCount(earlier, w.files.archived);
      SubsetSize(Ids(earlier), w.files.archived);
    }
  }

  lemma {:induction false} SettledIds(posts: seq<Post>, archived: set<string>)
    requires AllSettled(posts, archived)
    ensures Ids(posts) <= archived
  {
    forall p | p in posts ensures Settled(p, archived) {
      var i :| 0 <= i < |posts| && posts[i] == p;
    }
  }

  /** With no assumption on the service: at most three different tasks are ever paid for. */
  lemma AtMostThreeTasks(events: seq<Event>)
    ensures |Ids(Run(INITIAL, events).posts)| <= 3
  {
    hide Run;
    RunIsValid(events);
    var w := Run(INITIAL, events);
    if w.posts == [] {
      assert Ids(w.posts) == {};
    } else {
      var earlier, last := w.posts[..|w.posts| - 1], w.posts[|w.posts| - 1];
      EarlierAreSettled(w);
      SettledIds(earlier, w.files.archived);
      assert w.posts == earlier + [last];
      var most := w.files.archived + if last.Answered? && last.taskId.Some? then {last.taskId.value} else {};
      assert Ids(w.posts) <= most;
      SubsetSize(Ids(w.posts), most);
    }
  }

  lemma EarlierAreSettled(w: World)
    requires Valid(w) && w.posts != []
    ensures AllSettled(w.posts[..|w.posts| - 1], w.files.archived)
  {
  }

  /** A submit request goes out only when every earlier one was answered, its model failure was
      reported by the service itself, and its record is archived. */
  lemma NeverSubmitsOverAnOpenOutcome(events: seq<Event>, e: Event)
    requires Next(Run(INITIAL, events), e).posts != Run(INITIAL, events).posts && !e.Reply?
    ensures
      var w := Run(INITIAL, events);
      && Next(w, e).posts == w.posts + [Unanswered]
      && w.files.started
      && forall p :: p in w.posts ==> Settled(p, w.files.archived) && p.taskId.value in w.failures
  {
    hide Run;
    RunIsValid(events);
  }

  /** The unknown-outcome error is raised only over a start marker whose answer was never recorded. */
  lemma UnknownMeansUnrecorded(events: seq<Event>)
    requires Next(Run(INITIAL, events), Tick).pc == Out(OutcomeUnknown) && Run(INITIAL, events).pc != Out(OutcomeUnknown)
    ensures Run(INITIAL, events).marks == Run(INITIAL, events).recorded + 1
  {
    hide Run;
    RunIsValid(events);
  }

  /** While a retirement is under way every event either leaves it under way or finishes it,
      and no request is sent. */
  lemma RetirementIsNeverLost(events: seq<Event>, e: Event)
    requires Retiring(Run(INITIAL, events))
    ensures
      var w, w' := Run(INITIAL, events), Next(Run(INITIAL, events), e);
      && w'.posts == w.posts
      && (w'.pc.Out? ==> w'.pc == w.pc || w'.pc == Out(Stopped))
      && (Retiring(w') || (w'.pc == Head && w'.files == w.files.(submit := None, started := false, poll := None)))
  {
    hide Run;
    RunIsValid(events);
  }

  /** Killed after any of its file operations, a retirement is completed by the next start. */
  lemma RetirementIsReplayed(events: seq<Event>)
    requires Retiring(Run(INITIAL, events))
    ensures
      var w := Run(INITIAL, events);
      Run(w, [Crash, Begin, Tick, Tick, Tick, Tick])
        == w.(pc := Head, files := w.files.(submit := None, started := false, poll := None))
  {
    var w := Run(INITIAL, events);
    hide Run;
    RunIsValid(events);
    RunSix(w, Crash, Begin, Tick, Tick, Tick, Tick);
  }

  lemma RunOne(w: World, events: seq<Event>, e: Event)
    ensures Run(w, events + [e]) == Next(Run(w, events), e)
  {
    hide Next;
    assert (events + [e])[..|events|] == events;
  }

  lemma RunThree(w: World, a: Event, b: Event, c: Event)
    ensures Run(w, [a, b, c]) == Next(Next(Next(w, a), b), c)
  {
    hide Next;
    RunOne(w, [], a);
    RunOne(w, [a], b);
    RunOne(w, [a, b], c);
    assert [] + [a] == [a] && [a] + [b] == [a, b] && [a, b] + [c] == [a, b, c];
  }

  lemma RunSix(w: World, a: Event, b: Event, c: Event, d: Event, e: Event, f: Event)
    ensures Run(w, [a, b, c, d, e, f]) == Next(Next(Next(Next(Next(Next(w, a), b), c), d), e), f)
  {
    hide Next, Run;
    RunThree(w, a, b, c);
    RunThree(Run(w, [a, b, c]), d, e, f);
    RunSplit(w, [a, b, c], [d, e, f]);
    assert [a, b, c] + [d, e, f] == [a, b, c, d, e, f];
  }

  lemma {:induction false} RunSplit(w: World, a: seq<Event>, b: seq<Event>)
    ensures Run(w, a + b) == Run(Run(w, a), b)
    decreases |b|
  {
    hide Next;
    if b == [] {
      assert a + b == a;
    } else {
      assert (a + b)[..|a + b| - 1] == a + b[..|b| - 1];
      RunSplit(w, a, b[..|b| - 1]);
    }
  }

  /** A stored answer is final: nothing is ever submitted again. */
  lemma {:induction false} CompletedIsFinal(events: seq<Event>, more: seq<Event>)
    requires Run(INITIAL, events).files.response.Some?
    ensures Run(INITIAL, events + more).posts == Run(INITIAL, events).posts
    ensures Run(INITIAL, events + more).files.response == Run(INITIAL, events).files.response
    decreases |more|
  {
    hide Run;
    if more == [] {
      assert events + more == events;
    } else {
      var front, all := more[..|more| - 1], events + more;
      CompletedIsFinal(events, front);
      assert all == (events + front) + [more[|more| - 1]];
      RunOne(INITIAL, events + front, more[|more| - 1]);
      RunIsValid(events + front);
    }
  }

  /* ---------- the bound needs fresh ids ---------- */

  function Failing(id: string): Answer
  {
    Answer(Some(id), Failed, ModelFailed)
  }

  /** Idle at the loop head, `id` archived, nothing current. */
  ghost predicate Cleared(w: World, id: string)
  {
    w.pc == Head && w.files == Files(None, None, false, None, {id})
  }

  function OneMore(w: World, id: string): World
  {
    var sent := Next(Next(Next(w, Tick), Tick), Tick);
    var saved := Next(Next(sent, Reply(Submission(Some(id)))), Tick);
    var polled := Next(Next(saved, Poll(Failing(id))), Tick);
    Next(Next(Next(polled, Tick), Tick), Tick)
  }

  function OneMoreEvents(id: string): seq<Event>
  {
    [Tick, Tick, Tick] + [Reply(Submission(Some(id)))] + [Tick] + [Poll(Failing(id))] + [Tick, Tick, Tick, Tick]
  }

  lemma OneMoreRuns(w: World, id: string)
    ensures Run(w, OneMoreEvents(id)) == OneMore(w, id)
  {
    hide Next;
    var a, b := Reply(Submission(Some(id))), Poll(Failing(id));
    RunSix(w, Tick, Tick, Tick, a, Tick, b);
    var six := [Tick, Tick, Tick, a, Tick, b];
    var w6 := Run(w, six);
    RunOne(w, six, Tick);
    RunOne(w, six + [Tick], Tick);
    RunOne(w, six + [Tick] + [Tick], Tick);
    RunOne(w, six + [Tick] + [Tick] + [Tick], Tick);
    assert OneMoreEvents(id) == six + [Tick] + [Tick] + [Tick] + [Tick];
  }

  lemma OneMoreSubmission(w: World, id: string)
    requires Cleared(w, id) && id != ""
    ensures Cleared(OneMore(w, id), id) && OneMore(w, id).posts == w.posts + [Answered(Some(id))]
  {
    var sent := Next(Next(Next(w, Tick), Tick), Tick);
    assert sent.posts == w.posts + [Unanswered];
  }

  /** A service that answers with the same task id makes the program pay without any bound. */
  lemma {:induction false} RepeatedIdHasNoBound(n: nat, id: string) returns (events: seq<Event>)
    requires id != "" && n > 0
    ensures |Run(INITIAL, events).posts| == n
    ensures forall p :: p in Run(INITIAL, events).posts ==> p == Answered(Some(id))
    ensures Cleared(Run(INITIAL, events), id)
  {
    hide Run, OneMore, OneMoreEvents;
    if n == 1 {
      events := FirstFailure(id);
    } else {
      var before := RepeatedIdHasNoBound(n - 1, id);
      events := before + OneMoreEvents(id);
      RunSplit(INITIAL, before, OneMoreEvents(id));
      OneMoreRuns(Run(INITIAL, before), id);
      OneMoreSubmission(Run(INITIAL, before), id);
    }
  }

  lemma FirstFailure(id: string) returns (events: seq<Event>)
    requires id != ""
    ensures Run(INITIAL, events).posts == [Answered(Some(id))] && Cleared(Run(INITIAL, events), id)
  {
    hide Run, Next;
    var a, b := Reply(Submission(Some(id))), Poll(Failing(id));
    RunThree(INITIAL, Begin, Tick, Tick);
    RunThree(Run(INITIAL, [Begin, Tick, Tick]), Tick, a, Tick);
    RunSplit(INITIAL, [Begin, Tick, Tick], [Tick, a, Tick]);
    var six := [Begin, Tick, Tick] + [Tick, a, Tick];
    RunSix(Run(INITIAL, six), b, Tick, Tick, Tick, Tick, Tick);
    events := six + [b, Tick, Tick, Tick, Tick, Tick];
    RunSplit(INITIAL, six, [b, Tick, Tick, Tick, Tick, Tick]);
    FirstFailureState(id);
  }

  /** The first task, just submitted and recorded. */
  function FirstPolling(id: string): World
  {
    World(Files(None, Some(Submission(Some(id))), true, None, {}), Polling(Submission(Some(id))), [Answered(Some(id))], {}, 1, 1)
  }

  lemma FirstSubmission(id: string)
    ensures
      var a := Reply(Submission(Some(id)));
      Next(Next(Next(Next(Next(Next(INITIAL, Begin), Tick), Tick), Tick), a), Tick) == FirstPolling(id)
  {
    var sent := Next(Next(Next(Next(INITIAL, Begin), Tick), Tick), Tick);
    assert sent.posts == [Unanswered];
    assert Next(sent, Reply(Submission(Some(id)))).posts == [Answered(Some(id))];
  }

  lemma FirstFailureState(id: string)
    requires id != ""
    ensures
      var a, b := Reply(Submission(Some(id))), Poll(Failing(id));
      var polling := Next(Next(Next(Next(Next(Next(INITIAL, Begin), Tick), Tick), Tick), a), Tick);
      var w := Next(Next(Next(Next(Next(Next(polling, b), Tick), Tick), Tick), Tick), Tick);
      w.posts == [Answered(Some(id))] && Cleared(w, id)
  {
    FirstSubmission(id);
    FirstRetirement(id);
    hide Next, Cleared, FirstPolling;
  }

  lemma FirstRetirement(id: string)
    requires id != ""
    ensures
      var w := Next(Next(Next(Next(Next(Next(FirstPolling(id), Poll(Failing(id))), Tick), Tick), Tick), Tick), Tick);
      w.posts == [Answered(Some(id))] && Cleared(w, id)
  {
    FirstArchived(id);
    var archived := Next(Next(Next(FirstPolling(id), Poll(Failing(id))), Tick), Tick);
    UnlinksAll(archived);
    hide Next;
  }

  lemma FirstArchived(id: string)
    requires id != ""
    ensures
      var sub, a := Submission(Some(id)), Failing(id);
      Next(Next(Next(FirstPolling(id), Poll(a)), Tick), Tick)
        == World(Files(None, Some(sub), true, Some(a), {id}), Unlinking(0), [Answered(Some(id))], {id}, 1, 1)
  {
    var sub, a := Submission(Some(id)), Failing(id);
    var polled := Next(FirstPolling(id), Poll(a));
    assert polled == World(Files(None, Some(sub), true, Some(a), {}), Polled(sub, a), [Answered(Some(id))], {id}, 1, 1);
    assert Next(polled, Tick) == polled.(pc := Archiving(sub));
  }

  lemma UnlinksAll(w: World)
    requires w.pc == Unlinking(0)
    ensures Next(Next(Next(w, Tick), Tick), Tick) == w.(pc := Head, files := w.files.(poll := None, started := false, submit := None))
  {
  }

  lemma RunEmpty(w: World)
    ensures Run(w, []) == w
  {
  }

  /* ---------- the program ---------- */

  /** What one HTTP exchange yields: nothing, or a body read as a submission or as a poll answer. */
  datatype Exchange = Lost(transient: bool) | Got(sub: Submission, answer: Answer)

  /** The journal directory.  Every method returns, as a ghost, the events of the state machine it went
      through, one per file operation, so a kill between two of its statements is a `Crash` in some run. */
  class Journal {
    var response: Option<Answer>
    var submit: Option<Submission>
    var started: bool
    var poll: Option<Answer>
    var archived: set<string>
    ghost var posts: seq<Post>
    ghost var failures: set<string>
    ghost var marks: nat
    ghost var recorded: nat

    ghost function At(pc: Pc): World
      reads this
    {
      World(Files(response, submit, started, poll, archived), pc, posts, failures, marks, recorded)
    }

    /** `_retire_failed_submission`, called at the loop head or after a terminal poll. */
    method RetireFailedSubmission(sub: Submission, ghost from: Pc) returns (retired: bool, exhausted: bool, ghost trace: seq<Event>)
      requires (from == Head && response.None? && submit == Some(sub))
            || (from.Polled? && from.sub == sub && from.answer.status in {Failed, TimedOut, Cancelled})
      modifies this`archived, this`poll, this`started, this`submit
      ensures Run(old(At(from)), trace) ==
        At(if exhausted then Out(TooManyFailures) else if retired then Head else if from.Polled? then Out(TaskFailed) else Polling(sub))
      ensures retired ==> submit.None? && !started && poll.None? && Named(sub.taskId) && sub.taskId.value in archived
      ensures exhausted ==> !retired
      ensures !retired ==> At(from) == old(At(from))
    {
      hide Run;
      ghost var w := At(from);
      RunEmpty(w);
      retired, exhausted := false, false;
      RunOne(w, [], Tick);
      trace := [] + [Tick];
      if !Named(sub.taskId) { return; }
      var id := sub.taskId.value;
      if id !in archived {
        if poll.None? || !Retryable(poll.value) || poll.value.taskId != sub.taskId { return; }
        if |archived| >= 2 {
          exhausted := true;
          return;
        }
        archived := archived + {id};
        RunOne(w, trace, Tick);
        trace := trace + [Tick];
      }
      assert Run(w, trace) == At(Unlinking(0));
      var more := UnlinkPointers();
      RunSplit(w, trace, more);
      trace := trace + more;
      retired := true;
    }

    /** `poll.json`, then the start marker, then `submit.json`: the order a replay depends on. */
    method UnlinkPointers() returns (ghost trace: seq<Event>)
      modifies this`poll, this`started, this`submit
      ensures Run(old(At(Unlinking(0))), trace) == At(Head)
      ensures submit.None? && !started && poll.None?
    {
      hide Run;
      ghost var w := At(Unlinking(0));
      RunThree(w, Tick, Tick, Tick);
      poll := None;
      assert Next(w, Tick) == At(Unlinking(1));
      started := false;
      assert Next(Next(w, Tick), Tick) == At(Unlinking(2));
      submit := None;
      trace := [Tick, Tick, Tick];
    }

    /** The submit half of `_resolve`: the marker is on disk before the request leaves. */
    method Submit(exchange: Exchange) returns (sub: Submission, ok: bool, ghost trace: seq<Event>)
      requires response.None? && submit.None? && !started
      modifies this`submit, this`started, this`posts, this`marks, this`recorded
      ensures Run(old(At(Head)), trace) == At(if ok then Polling(sub) else Out(RequestFailed))
      ensures ok ==> exchange.Got? && submit == Some(sub)
    {
      hide Run;
      ghost var w := At(Head);
      RunThree(w, Tick, Tick, Tick);
      trace := [Tick, Tick, Tick];
      started, marks := true, marks + 1;
      posts := posts + [Unanswered];
      assert Run(w, trace) == At(Sent);
      if exchange.Lost? {
        RunOne(w, trace, Fail(false));
        trace := trace + [Fail(false)];
        return Submission(None), false, trace;
      }
      sub, ok := exchange.sub, true;
      RunOne(w, trace, Reply(sub));
      RunOne(w, trace + [Reply(sub)], Tick);
      trace := trace + [Reply(sub)] + [Tick];
      posts := posts[|posts| - 1 := Answered(sub.taskId)];
      submit, recorded := Some(sub), recorded + 1;
    }

    /** The poll loop: true when the task was retired and the outer loop must go round again. */
    method PollUntilSettled(sub: Submission, replies: seq<Exchange>, from: nat)
      returns (again: bool, result: Result, used: nat, ghost trace: seq<Event>)
      requires response.None? && submit == Some(sub) && Named(sub.taskId) && from <= |replies|
      modifies this`response, this`archived, this`poll, this`started, this`submit, this`failures
      ensures from <= used <= |replies| && (again ==> from < used && submit.None? && !started && response.None?)
      ensures Run(old(At(Polling(sub))), trace) == At(if again then Head else Out(result))
    {
      hide Run;
      ghost var w := At(Polling(sub));
      used, again, result, trace := from, false, Stopped, [];
      RunEmpty(w);
      while used < |replies|
        invariant from <= used <= |replies| && response.None? && submit == Some(sub) && !again && result == Stopped
        invariant Run(w, trace) == At(Polling(sub))
      {
        var exchange := replies[used];
        used := used + 1;
        if exchange.Lost? {
          RunOne(w, trace, Fail(exchange.transient));
          trace := trace + [Fail(exchange.transient)];
          if !exchange.transient {
            result := RequestFailed;
            return;
          }
        } else {
          var a := exchange.answer;
          RunOne(w, trace, Poll(a));
          trace := trace + [Poll(a)];
          poll := Some(a);
          failures := if Retryable(a) then failures + {a.taskId.value} else failures;
          assert Run(w, trace) == At(Polled(sub, a));
          ghost var more;
          var settled;
          settled, again, result, more := Settle(sub, a);
          RunSplit(w, trace, more);
          trace := trace + more;
          if settled { return; }
        }
      }
      RunOne(w, trace, Crash);
      trace := trace + [Crash];
    }

    /** What one poll answer decides. */
    method Settle(sub: Submission, a: Answer) returns (settled: bool, again: bool, result: Result, ghost trace: seq<Event>)
      requires response.None? && submit == Some(sub) && Named(sub.taskId)
      modifies this`response, this`archived, this`poll, this`started, this`submit
      ensures Run(old(At(Polled(sub, a))), trace) == At(if !settled then Polling(sub) else if again then Head else Out(result))
      ensures !settled ==> response.None? && submit == Some(sub) && !again && result == Stopped
      ensures again ==> submit.None? && !started && response.None?
    {
      hide Run;
      ghost var w := At(Polled(sub, a));
      RunEmpty(w);
      RunOne(w, [], Tick);
      settled, again, result, trace := true, false, Stopped, [] + [Tick];
      assert Run(w, trace) == AfterPoll(w, sub, a);
      match a.status {
        case Completed =>
          if a.code != Zero {
            result := BadCompletion;
          } else {
            response := Some(a);
            result := Returned(a);
          }
        case Running => settled := false;
        case Absent => result := RequestFailed;
        case _ =>
          var exhausted;
          again, exhausted, trace := RetireFailedSubmission(sub, Polled(sub, a));
          result := if exhausted then TooManyFailures else TaskFailed;
      }
    }

    /** `_resolve`: reuse an answer, finish a retirement, poll a live task, or submit. */
    method Resolve(replies: seq<Exchange>) returns (result: Result, ghost trace: seq<Event>)
      modifies this
      ensures Run(old(At(Head)), trace) == At(Out(result))
    {
      hide Run, Retire, Next;
      ghost var w := At(Head);
      RunEmpty(w);
      trace, result := [], Stopped;
      var used := 0;
      ghost var more: seq<Event> := [];
      while true
        invariant used <= |replies| && Run(w, trace) == At(Head)
        decreases |replies| - used, submit.Some?
      {
        ghost var sofar := trace;
        RunOne(w, trace, Tick);
        HeadTick(At(Head));
        if response.Some? { return Returned(response.value), trace + [Tick]; }
        var sub;
        if submit.Some? {
          sub := submit.value;
          var retired, exhausted;
          retired, exhausted, more := RetireFailedSubmission(sub, Head);
          RunSplit(w, trace, more);
          trace := trace + more;
          if exhausted { return TooManyFailures, trace; }
          if retired { continue; }
        } else {
          if started { return OutcomeUnknown, trace + [Tick]; }
          if used == |replies| { break; }
          var ok;
          sub, ok, more := Submit(replies[used]);
          used := used + 1;
          RunSplit(w, trace, more);
          trace := trace + more;
          if !ok { return RequestFailed, trace; }
        }
        if !Named(sub.taskId) {
          RunOne(w, trace, Tick);
          UnnamedTick(At(Polling(sub)));
          return NoTaskId, trace + [Tick];
        }
        var again;
        again, result, used, more := PollUntilSettled(sub, replies, used);
        RunSplit(w, trace, more);
        trace := trace + more;
        if !again { return; }
      }
      RunOne(w, trace, Crash);
      CrashTick(At(Head));
      return Stopped, trace + [Crash];
    }
  }

  lemma HeadTick(w: World)
    requires w.pc == Head
    ensures w.files.response.Some? ==> Next(w, Tick) == w.(pc := Out(Returned(w.files.response.value)))
    ensures w.files.response.None? && w.files.submit.None? && w.files.started ==> Next(w, Tick) == w.(pc := Out(OutcomeUnknown))
  {
  }

  lemma UnnamedTick(w: World)
    requires w.pc.Polling? && !Named(w.pc.sub.taskId)
    ensures Next(w, Tick) == w.(pc := Out(NoTaskId))
  {
  }

  lemma CrashTick(w: World)
    ensures Next(w, Crash) == w.(pc := Out(Stopped))
  {
  }
}
