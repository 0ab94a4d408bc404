/** The resizable semaphore of scripts/annotate_videos.py as the sequence of its critical sections,
    with the threads that wait on its condition made explicit. */
module Limiter {

  datatype Option<+T> = None | Some(value: T)

  type Thread = nat

  /** `waiting` sleep on the condition, oldest first; `notified` were woken and have not yet run;
      `inside` were admitted.  `active` is the counter the program keeps. */
  datatype State = State(maximum: int, fixed: bool, limit: int, active: int, streak: nat, lastReduction: real,
                         waiting: seq<Thread>, notified: set<Thread>, inside: set<Thread>)

  datatype Step = Arrive(t: Thread) | Wake(t: Thread) | Leave(t: Thread) | Success | Throttled(now: real) | Cap(ceiling: int)

  function Min(a: int, b: int): int { if a < b then a else b }

  function Max(a: int, b: int): int { if a > b then a else b }

  function New(maximum: int, initial: Option<int>, fixed: bool): State
  {
    var wanted := if initial.Some? && initial.value != 0 then initial.value else maximum;
    State(maximum, fixed, if fixed then maximum else Min(maximum, Max(1, wanted)), 0, 0, 0.0, [], {}, {})
  }

  function NotifyOne(s: State): State
  {
    if s.waiting == [] then s else s.(waiting := s.waiting[1..], notified := s.notified + {s.waiting[0]})
  }

  function NotifyAll(s: State): State
  {
    s.(waiting := [], notified := s.notified + set t | t in s.waiting)
  }

  /** The `while` test of `__enter__`: go in, or sleep. */
  function Admit(s: State, t: Thread): State
  {
    if s.active >= s.limit then s.(waiting := s.waiting + [t])
    else s.(active := s.active + 1, inside := s.inside + {t})
  }

  function Exit(s: State, t: Thread): State
  {
    var left := s.(active := s.active - 1, inside := s.inside - {t});
    if left.active < left.limit then NotifyOne(left) else left
  }

  function Succeed(s: State): State
  {
    if s.fixed then s
    else
      var counted := s.(streak := s.streak + 1);
      if s.limit < s.maximum && counted.streak >= Max(256, s.limit * 4)
        then NotifyOne(counted.(limit := s.limit + 1, streak := 0)) else counted
  }

  /** 64 at once from above, otherwise four fifths, never below one. */
  function Reduced(limit: int): int
  {
    if limit > 64 then 64 else Max(1, limit * 4 / 5)
  }

  function Throttle(s: State, now: real): State
  {
    if s.fixed || now - s.lastReduction < 5.0 then s
    else NotifyAll(s.(limit := Min(s.limit, Reduced(s.limit)), lastReduction := now, streak := 0))
  }

  function CapAt(s: State, ceiling: int): State
  {
    var maximum := Min(s.maximum, ceiling);
    NotifyAll(s.(maximum := maximum, limit := Min(s.limit, maximum)))
  }

  predicate Enabled(s: State, step: Step)
  {
    match step
    case Arrive(t) => t !in s.waiting && t !in s.notified && t !in s.inside
    case Wake(t) => t in s.notified
    case Leave(t) => t in s.inside
    case _ => true
  }

  function Do(s: State, step: Step): State
  {
    if !Enabled(s, step) then s
    else match step
      case Arrive(t) => Admit(s, t)
      case Wake(t) => Admit(s.(notified := s.notified - {t}), t)
      case Leave(t) => Exit(s, t)
      case Success => Succeed(s)
      case Throttled(now) => Throttle(s, now)
      case Cap(ceiling) => CapAt(s, ceiling)
  }

  function Run(s: State, steps: seq<Step>): State
  {
    if steps == [] then s else Do(Run(s, steps[..|steps| - 1]), steps[|steps| - 1])
  }

  ghost predicate Apart(s: State)
  {
    && (forall i, j :: 0 <= i < j < |s.waiting| ==> s.waiting[i] != s.waiting[j])
    && (forall t :: t in s.waiting ==> t !in s.notified && t !in s.inside)
    && s.notified !! s.inside
  }

  /** No wakeup is lost: while someone sleeps, every free slot has a woken thread on its way to it. */
  predicate Awake(s: State)
  {
    s.waiting != [] ==> s.limit - s.active <= |s.notified|
  }

  ghost predicate Valid(s: State)
  {
    && 1 <= s.limit <= s.maximum && s.active == |s.inside|
    && (s.fixed ==> s.limit == s.maximum)
    && Apart(s) && Awake(s)
  }

  lemma StepKeeps(s: State, step: Step)
    requires Valid(s) && (step.Cap? ==> step.ceiling >= 1)
    ensures Valid(Do(s, step))
  {
    hide Valid, Admit, Exit, Succeed, Throttle, CapAt;
    if Enabled(s, step) {
      match step
      case Arrive(t) => ArriveKeeps(s, t);
      case Wake(t) => WakeKeeps(s, t);
      case Leave(t) => LeaveKeeps(s, t);
      case Success => SucceedKeeps(s);
      case Throttled(now) => ThrottleKeeps(s, now);
      case Cap(ceiling) => CapAtKeeps(s, ceiling);
    }
  }

  lemma ArriveKeeps(s: State, t: Thread)
    requires Valid(s) && t !in s.waiting && t !in s.notified && t !in s.inside
    ensures Valid(Admit(s, t))
  {
  }

  lemma WakeKeeps(s: State, t: Thread)
    requires Valid(s) && t in s.notified
    ensures Valid(Admit(s.(notified := s.notified - {t}), t))
  {
    assert |s.notified - {t}| == |s.notified| - 1;
    assert t !in s.waiting && t !in s.inside;
  }

  lemma LeaveKeeps(s: State, t: Thread)
    requires Valid(s) && t in s.inside
    ensures Valid(Exit(s, t))
  {
    hide Apart;
    var left := s.(active := s.active - 1, inside := s.inside - {t});
    assert |s.inside - {t}| == |s.inside| - 1;
    LeftApart(s, t);
    NotifyOneApart(left);
  }

  lemma LeftApart(s: State, t: Thread)
    requires Apart(s)
    ensures Apart(s.(active := s.active - 1, inside := s.inside - {t}))
  {
  }

  lemma SucceedKeeps(s: State)
    requires Valid(s)
    ensures Valid(Succeed(s))
  {
    hide Apart;
    var grown := s.(streak := 0, limit := s.limit + 1);
    assert Apart(grown) && Apart(s.(streak := s.streak + 1)) by { SameThreads(s, grown); SameThreads(s, s.(streak := s.streak + 1)); }
    NotifyOneApart(grown);
  }

  lemma SameThreads(s: State, s': State)
    requires Apart(s) && s'.waiting == s.waiting && s'.notified == s.notified && s'.inside == s.inside
    ensures Apart(s')
  {
  }

  lemma NotifyAllApart(s: State)
    requires Apart(s)
    ensures Apart(NotifyAll(s))
  {
  }

  lemma ThrottleKeeps(s: State, now: real)
    requires Valid(s)
    ensures Valid(Throttle(s, now))
  {
    hide Apart, Reduced;
    ReducedBounds(s.limit);
    var lower := s.(limit := Min(s.limit, Reduced(s.limit)), lastReduction := now, streak := 0);
    SameThreads(s, lower);
    NotifyAllApart(lower);
  }

  lemma CapAtKeeps(s: State, ceiling: int)
    requires Valid(s) && ceiling >= 1
    ensures Valid(CapAt(s, ceiling))
  {
    hide Apart;
    var maximum := Min(s.maximum, ceiling);
    var lower := s.(maximum := maximum, limit := Min(s.limit, maximum));
    SameThreads(s, lower);
    NotifyAllApart(lower);
  }

  lemma NotifyOneApart(s: State)
    requires Apart(s)
    ensures Apart(NotifyOne(s))
    ensures s.waiting != [] ==> |NotifyOne(s).notified| == |s.notified| + 1
  {
    if s.waiting != [] {
      assert s.waiting[0] in s.waiting;
      forall t | t in s.waiting[1..] ensures t in s.waiting && t != s.waiting[0] {
        var i :| 0 <= i < |s.waiting[1..]| && s.waiting[1..][i] == t;
        assert s.waiting[i + 1] == t;
      }
    }
  }

  lemma ReducedBounds(limit: int)
    requires limit >= 1
    ensures 1 <= Reduced(limit) <= limit
  {
  }

  predicate Positive(steps: seq<Step>)
  {
    forall step :: step in steps ==> step.Cap? ==> step.ceiling >= 1
  }

  lemma {:induction false} RunKeeps(s: State, steps: seq<Step>)
    requires Valid(s) && Positive(steps)
    ensures Valid(Run(s, steps))
    decreases |steps|
  {
    hide Valid, Do;
    if steps != [] {
      var front := steps[..|steps| - 1];
      assert forall step :: step in front ==> step in steps;
      assert steps[|steps| - 1] in steps;
      RunKeeps(s, front);
      StepKeeps(Run(s, front), steps[|steps| - 1]);
    }
  }

  /** Every run of every number of threads: the limit stays between one and the maximum, the counter is
      exact, and while anyone sleeps every free slot has a woken thread on its way to it. */
  lemma NeverStalls(maximum: int, initial: Option<int>, fixed: bool, steps: seq<Step>)
    requires maximum >= 1 && Positive(steps)
    ensures
      var s := Run(New(maximum, initial, fixed), steps);
      && 1 <= s.limit <= s.maximum <= maximum && s.active == |s.inside|
      && (s.waiting != [] ==> s.limit - s.active <= |s.notified|)
      && (s.waiting != [] && s.notified == {} ==> s.active >= s.limit)
      && (fixed ==> s.limit == s.maximum)
  {
    hide Run;
    RunKeeps(New(maximum, initial, fixed), steps);
    MaximumOnlyFalls(New(maximum, initial, fixed), steps);
  }

  /** A limit below one comes only from a ceiling or a maximum below one. */
  lemma LimitIsPositiveIff(maximum: int, initial: Option<int>, fixed: bool, ceiling: int)
    ensures CapAt(New(maximum, initial, fixed), ceiling).limit >= 1 <==> maximum >= 1 && ceiling >= 1
  {
  }

  lemma {:induction false} MaximumOnlyFalls(s: State, steps: seq<Step>)
    ensures Run(s, steps).maximum <= s.maximum && Run(s, steps).fixed == s.fixed
    decreases |steps|
  {
    if steps != [] { MaximumOnlyFalls(s, steps[..|steps| - 1]); }
  }

  /** Nobody is admitted at or above the limit, and one step admits at most one thread. */
  lemma AdmitsBelowTheLimit(s: State, step: Step, t: Thread)
    requires Valid(s) && t !in s.inside && t in Do(s, step).inside
    ensures s.active < s.limit && Do(s, step).active == s.active + 1 && Do(s, step).inside == s.inside + {t}
  {
  }

  /** The object: each method is one section under its condition's lock. */
  class AdaptiveConcurrencyLimiter {
    const fixed: bool
    var maximum: int
    var limit: int
    var active: int
    var streak: nat
    var lastReduction: real
    var waiting: seq<Thread>
    var notified: set<Thread>
    ghost var inside: set<Thread>

    ghost function Value(): State
      reads this
    {
      State(maximum, fixed, limit, active, streak, lastReduction, waiting, notified, inside)
    }

    constructor (maximum: int, initial: Option<int>, fixed: bool)
      ensures Value() == New(maximum, initial, fixed)
    {
      this.maximum, this.fixed := maximum, fixed;
      var wanted := if initial.Some? && initial.value != 0 then initial.value else maximum;
      limit := if fixed then maximum else Min(maximum, Max(1, wanted));
      active, streak, lastReduction, waiting, notified, inside := 0, 0, 0.0, [], {}, {};
    }

    method Notify()
      modifies this`waiting, this`notified
      ensures Value() == NotifyOne(old(Value()))
    {
      if waiting != [] { waiting, notified := waiting[1..], notified + {waiting[0]}; }
    }

    method NotifyEveryone()
      modifies this`waiting, this`notified
      ensures Value() == NotifyAll(old(Value()))
    {
      while waiting != []
        invariant notified + (set t | t in waiting) == old(notified) + set t | t in old(waiting)
        decreases |waiting|
      {
        assert waiting == [waiting[0]] + waiting[1..];
        waiting, notified := waiting[1..], notified + {waiting[0]};
      }
    }

    /** One evaluation of the `while` in `__enter__`, on arrival or after a wakeup. */
    method TryEnter(t: Thread) returns (entered: bool)
      modifies this`active, this`waiting, this`notified, this`inside
      ensures Value() == Admit(old(Value()).(notified := old(notified) - {t}), t)
      ensures entered <==> old(active) < limit
    {
      notified := notified - {t};
      entered := active < limit;
      if entered { active, inside := active + 1, inside + {t}; } else { waiting := waiting + [t]; }
    }

    method Release(t: Thread)
      modifies this`active, this`waiting, this`notified, this`inside
      ensures Value() == Exit(old(Value()), t)
    {
      active, inside := active - 1, inside - {t};
      if active < limit { Notify(); }
    }

    method RecordSuccess()
      modifies this`limit, this`streak, this`waiting, this`notified
      ensures Value() == Succeed(old(Value()))
    {
      if fixed { return; }
      streak := streak + 1;
      if limit < maximum && streak >= Max(256, limit * 4) {
        limit, streak := limit + 1, 0;
        Notify();
      }
    }

    method ReduceAfterThrottle(now: real) returns (changed: bool)
      modifies this`limit, this`streak, this`lastReduction, this`waiting, this`notified
      ensures Value() == Throttle(old(Value()), now)
      ensures changed <==> limit < old(limit)
    {
      changed := false;
      if fixed { return; }
      if now - lastReduction >= 5.0 {
        var next := if limit > 64 then 64 else Max(1, limit * 4 / 5);
        if next < limit { limit, changed := next, true; }
        lastReduction, streak := now, 0;
        NotifyEveryone();
      }
    }

    /** `BurstFailureBackoff.cap`. */
    method Ceil(ceiling: int)
      modifies this`maximum, this`limit, this`waiting, this`notified
      ensures Value() == CapAt(old(Value()), ceiling)
    {
      maximum := Min(maximum, ceiling);
      limit := Min(limit, maximum);
      NotifyEveryone();
    }
  }
}

/** The sticky burst controller: its own lock is held while it caps the registered limiters one by one,
    and every limiter keeps running in between. */
module BurstBackoff {
  import opened Limiter

  datatype Target = Target(limiter: nat, ceiling: int)

  /** `capped` counts the targets already capped since the trip, `written` says that the attempt to write the state
      file is over, and `saved` is the state file. */
  datatype World = World(threshold: nat, window: real, limiters: seq<State>, targets: seq<Target>, events: seq<real>,
                         conservative: bool, capped: nat, written: bool, saved: bool)

  /** After the last cap the state file is written, or writing it fails; the lock is released either way. */
  datatype Event =
    | Build(maximum: int, initial: Option<int>, fixed: bool)
    | Local(limiter: nat, step: Step)
    | Register(limiter: nat, ceiling: int)
    | Failure(now: real)
    | CapNext
    | Save
    | SaveFails
    | Restart

  /** Whether the controller's lock is free. */
  predicate Free(w: World)
  {
    w.conservative ==> w.capped >= |w.targets| && w.written
  }

  /** `while events and events[0] < now - window: popleft()`. */
  function Recent(events: seq<real>, since: real): seq<real>
  {
    if events == [] || events[0] >= since then events else Recent(events[1..], since)
  }

  function Fail(w: World, now: real): World
  {
    if w.threshold == 0 || w.conservative then w
    else
      var events := Recent(w.events + [now], now - w.window);
      if |events| < w.threshold then w.(events := events)
      else w.(events := events, conservative := true, capped := 0, written := false)
  }

  predicate Enabled(w: World, e: Event)
  {
    match e
    case Build(maximum, _, _) => maximum >= 1
    case Local(i, step) => i < |w.limiters| && !step.Cap?
    case Register(i, ceiling) => i < |w.limiters| && ceiling >= 1 && Free(w)
    case Failure(_) => Free(w)
    case CapNext => w.conservative && w.capped < |w.targets| && w.targets[w.capped].limiter < |w.limiters|
    case Save => w.conservative && w.capped >= |w.targets| && !w.written
    case SaveFails => w.conservative && w.capped >= |w.targets| && !w.written
    case Restart => true
  }

  function Do(w: World, e: Event): World
  {
    if !Enabled(w, e) then w
    else match e
      case Build(maximum, initial, fixed) => w.(limiters := w.limiters + [New(maximum, initial, fixed)])
      case Local(i, step) => w.(limiters := w.limiters[i := Limiter.Do(w.limiters[i], step)])
      case Register(i, ceiling) =>
        w.(targets := w.targets + [Target(i, ceiling)], capped := w.capped + 1,
           limiters := if w.conservative then w.limiters[i := CapAt(w.limiters[i], ceiling)] else w.limiters)
      case Failure(now) => Fail(w, now)
      case CapNext =>
        var target := w.targets[w.capped];
        w.(limiters := w.limiters[target.limiter := CapAt(w.limiters[target.limiter], target.ceiling)], capped := w.capped + 1)
      case Save => w.(written := true, saved := true)
      case SaveFails => w.(written := true)
      case Restart => World(w.threshold, w.window, [], [], [], w.saved, 0, w.saved, w.saved)
  }

  function Run(w: World, events: seq<Event>): World
  {
    if events == [] then w else Do(Run(w, events[..|events| - 1]), events[|events| - 1])
  }

  function Opened(threshold: nat, window: real, saved: bool): World
  {
    World(threshold, window, [], [], [], saved, 0, saved, saved)
  }

  ghost predicate Valid(w: World)
  {
    && (forall i :: 0 <= i < |w.limiters| ==> Limiter.Valid(w.limiters[i]))
    && (forall j :: 0 <= j < |w.targets| ==> w.targets[j].limiter < |w.limiters| && w.targets[j].ceiling >= 1)
    && (w.conservative ==> forall j :: 0 <= j < |w.targets| && j < w.capped ==>
          w.limiters[w.targets[j].limiter].maximum <= w.targets[j].ceiling)
    && (w.saved ==> w.conservative)
  }

  lemma {:induction false} RunKeeps(threshold: nat, window: real, saved: bool, events: seq<Event>)
    ensures Valid(Run(Opened(threshold, window, saved), events))
    decreases |events|
  {
    hide Valid, Do;
    var w := Opened(threshold, window, saved);
    if events == [] {
      OpenedIsValid(threshold, window, saved);
    } else {
      RunKeeps(threshold, window, saved, events[..|events| - 1]);
      StepKeeps(Run(w, events[..|events| - 1]), events[|events| - 1]);
    }
  }

  lemma OpenedIsValid(threshold: nat, window: real, saved: bool)
    ensures Valid(Opened(threshold, window, saved))
  {
  }

  lemma StepKeeps(w: World, e: Event)
    requires Valid(w)
    ensures Valid(Do(w, e))
  {
    hide Limiter.Valid, Limiter.Do, CapAt, Recent;
    if Enabled(w, e) {
      match e
      case Build(maximum, initial, fixed) => NewIsValid(maximum, initial, fixed);
      case Local(i, step) => LocalKeeps(w.limiters[i], step);
      case Register(i, ceiling) => CapKeeps(w.limiters[i], ceiling);
      case CapNext => CapKeeps(w.limiters[w.targets[w.capped].limiter], w.targets[w.capped].ceiling);
      case _ =>
    }
  }

  lemma NewIsValid(maximum: int, initial: Option<int>, fixed: bool)
    requires maximum >= 1
    ensures Limiter.Valid(New(maximum, initial, fixed))
  {
  }

  lemma LocalKeeps(s: State, step: Step)
    requires Limiter.Valid(s) && !step.Cap?
    ensures Limiter.Valid(Limiter.Do(s, step)) && Limiter.Do(s, step).maximum == s.maximum
  {
    hide Limiter.Valid;
    Limiter.StepKeeps(s, step);
  }

  lemma CapKeeps(s: State, ceiling: int)
    requires Limiter.Valid(s) && ceiling >= 1
    ensures Limiter.Valid(CapAt(s, ceiling)) && CapAt(s, ceiling).maximum == Min(s.maximum, ceiling)
  {
    Limiter.StepKeeps(s, Cap(ceiling));
  }

  /** Once the run is conservative and the controller's lock is free, every limiter registered before
      or after the trip stays at or under its ceiling, whatever its threads and feedback do. */
  lemma StaysUnderTheCeiling(threshold: nat, window: real, saved: bool, events: seq<Event>, j: nat)
    requires
      var w := Run(Opened(threshold, window, saved), events);
      w.conservative && Free(w) && j < |w.targets|
    ensures
      var w := Run(Opened(threshold, window, saved), events);
      && w.targets[j].limiter < |w.limiters|
      && 1 <= w.limiters[w.targets[j].limiter].limit <= w.targets[j].ceiling
  {
    hide Run;
    RunKeeps(threshold, window, saved, events);
    var w := Run(Opened(threshold, window, saved), events);
    assert Limiter.Valid(w.limiters[w.targets[j].limiter]);
  }

  /** The cap is sticky in the process, and once its state file is written it survives restarts. */
  lemma {:induction false} CapIsSticky(w: World, events: seq<Event>)
    requires w.conservative && (w.saved || Restart !in events)
    ensures Run(w, events).conservative && (w.saved ==> Run(w, events).saved)
    decreases |events|
  {
    hide Do;
    if events != [] {
      var front := events[..|events| - 1];
      assert forall e :: e in front ==> e in events;
      CapIsSticky(w, front);
      StaysConservative(Run(w, front), events[|events| - 1]);
    }
  }

  lemma StaysConservative(w: World, e: Event)
    requires w.conservative && (w.saved || e != Restart)
    ensures Do(w, e).conservative && (w.saved ==> Do(w, e).saved)
  {
    hide Limiter.Do, CapAt;
  }

  /* ---------- when it trips ---------- */

  predicate Sorted(times: seq<real>)
  {
    forall i, j :: 0 <= i < j < |times| ==> times[i] <= times[j]
  }

  function CountFrom(times: seq<real>, since: real): nat
  {
    if times == [] then 0
    else CountFrom(times[..|times| - 1], since) + if times[|times| - 1] >= since then 1 else 0
  }

  function FailAll(w: World, times: seq<real>): World
  {
    if times == [] then w else Fail(FailAll(w, times[..|times| - 1]), times[|times| - 1])
  }

  lemma {:induction false} RecentIsASuffix(events: seq<real>, since: real) returns (n: nat)
    requires Sorted(events)
    ensures n <= |events| && Recent(events, since) == events[n..]
    ensures forall i :: 0 <= i < n ==> events[i] < since
    ensures forall i :: n <= i < |events| ==> events[i] >= since
  {
    if events == [] || events[0] >= since {
      n := 0;
    } else {
      assert Sorted(events[1..]);
      var m := RecentIsASuffix(events[1..], since);
      n := m + 1;
      forall i | 0 < i < n ensures events[i] < since { assert events[1..][i - 1] == events[i]; }
      forall i | n <= i < |events| ensures events[i] >= since { assert events[1..][i - 1] == events[i]; }
    }
  }

  lemma {:induction false} CountSplit(times: seq<real>, n: nat, since: real)
    requires n <= |times| && (forall i :: 0 <= i < n ==> times[i] < since) && forall i :: n <= i < |times| ==> times[i] >= since
    ensures CountFrom(times, since) == |times| - n
    decreases |times|
  {
    if times != [] {
      var front := times[..|times| - 1];
      CountSplit(front, if n < |times| then n else n - 1, since);
    }
  }

  /** Before it trips, the deque is the failures of the last window. */
  ghost predicate Remembers(w: World, times: seq<real>, n: nat)
  {
    n <= |times| && w.events == times[n..] && (times != [] ==> Stale(times, n, times[|times| - 1] - w.window))
  }

  ghost predicate Stale(times: seq<real>, n: nat, since: real)
  {
    forall i :: 0 <= i < n <= |times| ==> times[i] < since
  }

  ghost predicate Current(times: seq<real>, n: nat, since: real)
  {
    forall i :: 0 <= n <= i < |times| ==> times[i] >= since
  }

  lemma NextWindow(times: seq<real>, now: real, window: real, before: nat) returns (n: nat)
    requires Sorted(times + [now]) && before <= |times|
    requires times != [] ==> Stale(times, before, times[|times| - 1] - window)
    ensures n <= |times| + 1 && Recent(times[before..] + [now], now - window) == (times + [now])[n..]
    ensures Stale(times + [now], n, now - window) && Current(times + [now], n, now - window)
  {
    hide Recent, Stale, Current;
    var all, tail := times + [now], times[before..] + [now];
    assert tail == all[before..];
    SortedTail(all, before);
    var m := RecentIsASuffix(tail, now - window);
    n := before + m;
    assert tail[m..] == all[n..];
    if times != [] { LastIsBefore(times, now); }
    Spliced(times, now, window, before, tail, m);
  }

  lemma SortedTail(all: seq<real>, before: nat)
    requires Sorted(all) && before <= |all|
    ensures Sorted(all[before..])
  {
  }

  lemma Spliced(times: seq<real>, now: real, window: real, before: nat, tail: seq<real>, m: nat)
    requires before <= |times| && tail == (times + [now])[before..] && m <= |tail|
    requires times != [] ==> Stale(times, before, times[|times| - 1] - window) && times[|times| - 1] <= now
    requires forall i :: 0 <= i < m ==> tail[i] < now - window
    requires forall i :: m <= i < |tail| ==> tail[i] >= now - window
    ensures Stale(times + [now], before + m, now - window) && Current(times + [now], before + m, now - window)
  {
    var all := times + [now];
    forall i | before <= i < |all| ensures all[i] == tail[i - before] { }
    forall i | 0 <= i < before ensures all[i] < now - window {
      assert times[i] < times[|times| - 1] - window;
    }
  }

  lemma LastIsBefore(times: seq<real>, now: real)
    requires Sorted(times + [now]) && times != []
    ensures times[|times| - 1] <= now
  {
    var all := times + [now];
    assert all[|times| - 1] <= all[|times|];
  }

  lemma SortedPrefix(times: seq<real>, now: real)
    requires Sorted(times + [now])
    ensures Sorted(times)
  {
    var all := times + [now];
    forall i, j | 0 <= i < j < |times| ensures times[i] <= times[j] { assert all[i] <= all[j]; }
  }

  lemma FailAllSnoc(w: World, times: seq<real>, now: real)
    ensures FailAll(w, times + [now]) == Fail(FailAll(w, times), now)
  {
    assert (times + [now])[..|times|] == times;
  }

  lemma {:induction false} WindowIsExact(threshold: nat, window: real, times: seq<real>) returns (n: nat)
    requires threshold > 0 && Sorted(times) && !FailAll(Opened(threshold, window, false), times).conservative
    ensures
      var w := FailAll(Opened(threshold, window, false), times);
      Remembers(w, times, n) && w.threshold == threshold && w.window == window
    decreases |times|
  {
    hide Recent, Sorted, Stale, Current, FailAll, Remembers;
    var start := Opened(threshold, window, false);
    if times == [] {
      NoFailures(start);
      n := 0;
      RemembersNothing(start);
    } else {
      var front, now := times[..|times| - 1], times[|times| - 1];
      assert times == front + [now];
      SortedPrefix(front, now);
      FailAllSnoc(start, front, now);
      var before := WindowIsExact(threshold, window, front);
      n := FailedOnce(FailAll(start, front), front, now, before);
    }
  }

  lemma FailedOnce(w: World, times: seq<real>, now: real, before: nat) returns (n: nat)
    requires Sorted(times + [now]) && Remembers(w, times, before) && w.threshold > 0 && !Fail(w, now).conservative && !w.conservative
    ensures Remembers(Fail(w, now), times + [now], n)
  {
    hide Recent, Sorted, Stale, Current;
    n := NextWindow(times, now, w.window, before);
  }

  lemma RemembersNothing(w: World)
    requires w.events == []
    ensures Remembers(w, [], 0)
  {
  }

  lemma NoFailures(w: World)
    ensures FailAll(w, []) == w
  {
  }

  /** The controller trips at a failure exactly when it is the `threshold`-th within the window. */
  lemma TripsExactlyOnABurst(threshold: nat, window: real, times: seq<real>, now: real)
    requires threshold > 0 && Sorted(times + [now]) && !FailAll(Opened(threshold, window, false), times).conservative
    ensures
      FailAll(Opened(threshold, window, false), times + [now]).conservative <==>
      CountFrom(times + [now], now - window) >= threshold
  {
    hide Recent, Sorted, FailAll, CountFrom;
    SortedPrefix(times, now);
    FailAllSnoc(Opened(threshold, window, false), times, now);
    var before := WindowIsExact(threshold, window, times);
    var n := NextWindow(times, now, window, before);
    CountSplit(times + [now], n, now - window);
  }

  /** A threshold of zero turns the controller off. */
  lemma {:induction false} ZeroNeverTrips(window: real, times: seq<real>)
    ensures !FailAll(Opened(0, window, false), times).conservative && FailAll(Opened(0, window, false), times).threshold == 0
    decreases |times|
  {
    if times != [] { ZeroNeverTrips(window, times[..|times| - 1]); }
  }

  /* ---------- the object ---------- */

  class BurstFailureBackoff {
    const threshold: nat
    const window: real
    const httpLimit: int
    const recordLimit: int
    var events: seq<real>
    var targets: seq<(AdaptiveConcurrencyLimiter, int)>
    var conservative: bool
    var saved: bool

    constructor (threshold: nat, window: real, httpLimit: int, recordLimit: int, saved: bool)
      ensures conservative == saved == this.saved && targets == [] && events == []
      ensures this.threshold == threshold && this.window == window && this.httpLimit == httpLimit && this.recordLimit == recordLimit
    {
      this.threshold, this.window, this.httpLimit, this.recordLimit := threshold, window, httpLimit, recordLimit;
      events, targets, conservative, this.saved := [], [], saved, saved;
    }

    /** Every registered limiter is at or under its ceiling. */
    ghost predicate Capped()
      reads this, set t | t in targets :: t.0
    {
      forall t :: t in targets ==> t.0.maximum <= t.1
    }

    method Register(limiter: AdaptiveConcurrencyLimiter, http: bool)
      requires conservative ==> Capped()
      modifies this`targets, limiter
      ensures targets == old(targets) + [(limiter, if http then httpLimit else recordLimit)]
      ensures conservative ==> Capped()
      ensures limiter.Value() == if conservative then CapAt(old(limiter.Value()), targets[|old(targets)|].1) else old(limiter.Value())
    {
      var ceiling := if http then httpLimit else recordLimit;
      targets := targets + [(limiter, ceiling)];
      if conservative { limiter.Ceil(ceiling); }
    }

    /** `stored`: whether the state file can be written; if not, the error reaches the caller and the cap stays. */
    method RecordFailure(now: real, stored: bool)
      requires conservative ==> Capped()
      modifies this`events, this`conservative, this`saved, set t | t in targets :: t.0
      ensures conservative ==> Capped()
      ensures threshold == 0 || old(conservative) ==> conservative == old(conservative) && events == old(events)
      ensures threshold > 0 && !old(conservative) ==>
        && events == Recent(old(events) + [now], now - window)
        && (conservative <==> |events| >= threshold)
        && saved == (old(saved) || (conservative && stored))
    {
      if threshold == 0 || conservative { return; }
      events := events + [now];
      while events != [] && events[0] < now - window
        invariant Recent(events, now - window) == Recent(old(events) + [now], now - window)
        invariant unchanged(`conservative) && unchanged(`saved) && forall t :: t in targets ==> unchanged(t.0)
        decreases |events|
      {
        events := events[1..];
      }
      if |events| < threshold { return; }
      conservative := true;
      var i := 0;
      while i < |targets|
        invariant i <= |targets| && conservative && events == Recent(old(events) + [now], now - window)
        invariant forall j :: 0 <= j < i ==> targets[j].0.maximum <= targets[j].1
        invariant |events| >= threshold && saved == old(saved)
      {
        targets[i].0.Ceil(targets[i].1);
        i := i + 1;
      }
      if stored { saved := true; }
    }
  }
}
