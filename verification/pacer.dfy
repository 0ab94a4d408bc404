/** The request start pacer of scripts/annotate_videos.py without dispatcher or cohort feedback:
    the rate arithmetic under its lock, and the FIFO of tickets with its directed handoff. */
module Pacer {

  datatype Option<+T> = None | Some(value: T)

  type Ticket = nat

  /** Which markers a throttling message carries. */
  datatype Message = Message(limitRequests: bool, limitBurstRate: bool, burstRate: bool, tooFast: bool)

  /** `nextStart` and the interval; `lastIncrease` is None while the program holds minus infinity. */
  datatype Rate = Rate(interval: real, base: real, maximum: real, timed: bool, serverQueue: bool, lastIncrease: Option<real>,
                       lastRecovery: real, lastThrottle: real, nextStart: real, streak: nat, queueRecovery: bool, smooth: bool)

  function Min(a: real, b: real): real { if a < b then a else b }

  function Max(a: real, b: real): real { if a > b then a else b }

  function New(interval: real, timed: bool, serverQueue: bool, now: real): Rate
  {
    Rate(interval, interval, Max(2.0, interval), timed, serverQueue, None, now, 0.0, 0.0, 0, false, false)
  }

  function Period(r: Rate): real { if r.queueRecovery then 10.0 else 60.0 }

  function Factor(r: Rate): real { if r.smooth then 0.9 else if r.queueRecovery then 0.5 else 0.75 }

  /** The interval after `_recover`. */
  function Recovered(r: Rate, now: real): real
  {
    var bounded := Min(r.maximum, r.interval);
    if now - Max(r.lastThrottle, r.lastRecovery) < Period(r) then bounded
    else
      var slower := Max(r.base, bounded * Factor(r));
      if slower < 0.01 && r.base == 0.0 then 0.0 else slower
  }

  /** `_recover`: timed recovery, and never a deadline left over from a larger interval. */
  function Recover(r: Rate, now: real): Rate
  {
    if !r.timed then r
    else
      var interval := Recovered(r, now);
      r.(interval := interval, nextStart := Min(r.nextStart, now + interval),
         lastRecovery := if now - Max(r.lastThrottle, r.lastRecovery) >= Period(r) then now else r.lastRecovery)
  }

  function Start(r: Rate, now: real): Rate { r.(nextStart := now + r.interval) }

  predicate Elapsed(last: Option<real>, now: real, seconds: real)
  {
    last.None? || now - last.value >= seconds
  }

  function Floor(m: Message): real { if m.limitRequests then 0.2 else if m.limitBurstRate then 0.1 else 0.05 }

  /** A multiplicative step of a quarter at most every five seconds, from `least` upwards. */
  function Slower(r: Rate, least: real, now: real): Rate
  {
    var candidate := Max(least, r.interval);
    var grown := if Elapsed(r.lastIncrease, now, 5.0) then candidate * 1.25 else candidate;
    r.(interval := Min(r.maximum, grown), lastIncrease := if Elapsed(r.lastIncrease, now, 5.0) then Some(now) else r.lastIncrease,
       lastThrottle := now, streak := 0)
  }

  function TimedThrottle(r: Rate, least: real, now: real): Rate
  {
    var candidate := Max(least, r.interval);
    var grown := if Elapsed(r.lastIncrease, now, 30.0) then Max(candidate, r.interval * 1.5) else candidate;
    r.(interval := Min(r.maximum, grown), lastIncrease := if Elapsed(r.lastIncrease, now, 30.0) then Some(now) else r.lastIncrease,
       lastThrottle := now, streak := 0)
  }

  function PlainThrottle(r: Rate, least: real, now: real): Rate
  {
    var first := Max(least, r.interval);
    var candidate := if now - r.lastThrottle >= 5.0 then Max(first, if r.interval != 0.0 then r.interval * 1.5 else least) else first;
    if candidate > r.interval then r.(interval := candidate, streak := 0, lastThrottle := now) else r
  }

  /** `record_throttle`. */
  function Throttle(r: Rate, m: Message, now: real): Rate
  {
    var queueBurst := r.timed && (m.limitBurstRate || m.burstRate || m.tooFast) && (r.serverQueue || m.tooFast);
    var marked := r.(queueRecovery := queueBurst, smooth := m.tooFast);
    if queueBurst then Slower(marked, 0.005, now)
    else if r.timed then TimedThrottle(marked, Floor(m), now)
    else PlainThrottle(marked, Floor(m), now)
  }

  /** `record_systemic_service_overload`. */
  function Overload(r: Rate, now: real): Rate
  {
    Slower(r.(queueRecovery := true, smooth := true), 0.001, now)
  }

  /** The locked part of `record_success`. */
  function Succeed(r: Rate, now: real): Rate
  {
    if r.timed then Recover(r, now)
    else if r.streak + 1 >= 2000 && r.interval > 0.01 then r.(interval := Max(0.01, r.interval * 0.95), streak := 0)
    else r.(streak := r.streak + 1)
  }

  function WarmStart(r: Rate, interval: real): Rate { r.(interval := Max(r.base, interval)) }

  /** What the rate keeps: never negative, and between its floor and ceiling in timed mode. */
  predicate Bounded(r: Rate)
  {
    && 0.0 <= r.base <= r.maximum && 2.0 <= r.maximum && 0.0 <= r.interval
    && (r.timed ==> r.base <= r.interval <= r.maximum)
  }

  /* ---------- threads ---------- */

  /** A queued thread before its own first `set`, in the follower loop, in the head loop, or on its way out. */
  datatype Stage = Opening | Following | Leading | Leaving

  /** `rung` are the events set, `handed` the successors chosen under the lock and not yet set.
      `lastStart` is the latest granted start and `least` the smallest interval in force since. */
  datatype World = World(rate: Rate, waiters: seq<Ticket>, stages: map<Ticket, Stage>, rung: set<Ticket>, handed: set<Ticket>,
                         clock: real, lastStart: Option<real>, least: real)

  datatype Step =
    | Arrive(t: Ticket, now: real)
    | Ring(t: Ticket)
    | Deliver(t: Ticket)
    | Timeout(t: Ticket, now: real)
    | Wake(t: Ticket)
    | Try(t: Ticket, now: real)
    | CheckFails(t: Ticket)
    | Finish(t: Ticket)
    | Throttled(m: Message, now: real)
    | Overloaded(now: real)
    | Succeeded(now: real)
    | Warm(interval: real)

  predicate In(w: World, t: Ticket, stage: Stage)
  {
    t in w.stages && w.stages[t] == stage
  }

  predicate Later(w: World, step: Step)
  {
    match step
    case Arrive(_, now) => now >= w.clock
    case Timeout(_, now) => now >= w.clock
    case Try(_, now) => now >= w.clock
    case Throttled(_, now) => now >= w.clock
    case Overloaded(now) => now >= w.clock
    case Succeeded(now) => now >= w.clock
    case _ => true
  }

  predicate Enabled(w: World, step: Step)
  {
    Later(w, step) &&
    match step
    case Arrive(t, _) => t !in w.stages && t !in w.rung && t !in w.handed
    case Ring(t) => In(w, t, Opening)
    case Deliver(t) => t in w.handed
    case Timeout(t, _) => In(w, t, Following)
    case Wake(t) => In(w, t, Following) && t in w.rung
    case Try(t, _) => In(w, t, Leading)
    case CheckFails(t) => In(w, t, Following) || In(w, t, Leading)
    case Finish(t) => In(w, t, Leaving) && w.waiters != []
    case Warm(interval) => w.rate.timed && 0.0 <= interval <= w.rate.maximum
    case _ => true
  }

  /** The rate has changed at `now`; the new interval is in force from here on. */
  function Move(w: World, rate: Rate, now: real): World
  {
    w.(rate := rate, clock := now, least := Min(w.least, rate.interval))
  }

  function Grant(w: World, now: real): World
  {
    w.(clock := now, lastStart := Some(now), least := w.rate.interval)
  }

  function Without(waiters: seq<Ticket>, t: Ticket): (r: seq<Ticket>)
    ensures forall q :: q in r <==> q in waiters && q != t
  {
    if waiters == [] then []
    else
      var rest := Without(waiters[1..], t);
      assert waiters == [waiters[0]] + waiters[1..];
      if waiters[0] == t then rest else [waiters[0]] + rest
  }

  /** The `finally` of `wait`: a leaving head chooses its successor under the lock. */
  function Leave(w: World, t: Ticket): World
    requires w.waiters != []
  {
    var left := Without(w.waiters, t);
    w.(waiters := left, stages := w.stages - {t},
       handed := if w.waiters[0] == t && left != [] then w.handed + {left[0]} else w.handed)
  }

  /** Whether this step lets a request start. */
  predicate Starts(w: World, step: Step)
  {
    match step
    case Arrive(_, now) =>
      var r := Recover(w.rate, now);
      r.interval == 0.0 || (w.waiters == [] && r.nextStart <= now)
    case Timeout(_, now) => Recover(w.rate, now).interval == 0.0
    case Try(_, now) => Recover(w.rate, now).nextStart <= now
    case _ => false
  }

  function Do(w: World, step: Step): World
    requires Enabled(w, step)
  {
    match step
    case Arrive(t, now) =>
      var moved := Move(w, Recover(w.rate, now), now);
      if Starts(w, step) then Grant(moved.(rate := Start(moved.rate, now)), now)
      else moved.(waiters := w.waiters + [t], stages := w.stages[t := if w.waiters == [] then Opening else Following])
    case Ring(t) => w.(rung := w.rung + {t}, stages := w.stages[t := Following])
    case Deliver(t) => w.(rung := w.rung + {t}, handed := w.handed - {t})
    case Timeout(t, now) =>
      var moved := Move(w, Recover(w.rate, now), now);
      if Starts(w, step) then Grant(moved, now).(stages := w.stages[t := Leaving]) else moved
    case Wake(t) => w.(stages := w.stages[t := Leading])
    case Try(t, now) =>
      var moved := Move(w, Recover(w.rate, now), now);
      if Starts(w, step) then Grant(moved.(rate := Start(moved.rate, now)), now).(stages := w.stages[t := Leaving]) else moved
    case CheckFails(t) => w.(stages := w.stages[t := Leaving])
    case Finish(t) => Leave(w, t)
    case Throttled(m, now) => Move(w, Throttle(w.rate, m, now), now)
    case Overloaded(now) => Move(w, Overload(w.rate, now), now)
    case Succeeded(now) => Move(w, Succeed(w.rate, now), now)
    case Warm(interval) => Move(w, WarmStart(w.rate, interval), w.clock)
  }

  function Opened(interval: real, timed: bool, serverQueue: bool, now: real): World
  {
    World(New(interval, timed, serverQueue, now), [], map[], {}, {}, now, None, interval)
  }

  function Run(w: World, steps: seq<Step>): World
  {
    if steps == [] then w
    else
      var before := Run(w, steps[..|steps| - 1]);
      if Enabled(before, steps[|steps| - 1]) then Do(before, steps[|steps| - 1]) else before
  }

  /* ---------- the rate ---------- */

  lemma RecoverKeeps(r: Rate, now: real)
    requires Bounded(r)
    ensures Bounded(Recover(r, now)) && Recover(r, now).nextStart <= r.nextStart
    ensures Recover(r, now).nextStart == r.nextStart || Recover(r, now).nextStart == now + Recover(r, now).interval
    ensures r.timed ==> Recover(r, now).nextStart <= now + Recover(r, now).interval <= now + r.maximum
  {
  }

  lemma ThrottleKeeps(r: Rate, m: Message, now: real)
    requires Bounded(r)
    ensures Bounded(Throttle(r, m, now)) && Throttle(r, m, now).nextStart == r.nextStart
    ensures Throttle(r, m, now).interval >= r.interval
    ensures Throttle(r, m, now).interval >= 0.005
  {
  }

  lemma OverloadKeeps(r: Rate, now: real)
    requires Bounded(r)
    ensures Bounded(Overload(r, now)) && Overload(r, now).nextStart == r.nextStart
    ensures r.timed ==> Overload(r, now).interval >= r.interval
  {
  }

  lemma SucceedKeeps(r: Rate, now: real)
    requires Bounded(r)
    ensures Bounded(Succeed(r, now))
    ensures !r.timed ==> Succeed(r, now).nextStart == r.nextStart
    ensures Succeed(r, now).interval <= r.interval
  {
    if r.timed { RecoverKeeps(r, now); }
  }

  /* ---------- the queue ---------- */

  ghost predicate Distinct(waiters: seq<Ticket>)
  {
    forall i, j :: 0 <= i < j < |waiters| ==> waiters[i] != waiters[j]
  }

  predicate Called(w: World, t: Ticket)
  {
    t in w.rung || t in w.handed || In(w, t, Opening)
  }

  /** The head is called and nobody behind it is; whoever leads has been called. */
  ghost predicate Queued(w: World)
  {
    && Distinct(w.waiters)
    && (forall t :: t in w.stages <==> t in w.waiters)
    && (w.waiters != [] ==> Called(w, w.waiters[0]))
    && (forall t :: t in w.waiters && Called(w, t) ==> t == w.waiters[0])
    && (forall t :: In(w, t, Leading) ==> t in w.rung)
  }

  /** The deadline is at least the smallest interval since the last start away from it. */
  ghost predicate Spaced(w: World)
  {
    && 0.0 <= w.least <= w.rate.interval
    && (w.lastStart.Some? ==> w.lastStart.value <= w.clock)
    && (w.lastStart.Some? && w.least > 0.0 ==> w.rate.nextStart >= w.lastStart.value + w.least)
  }

  ghost predicate Valid(w: World)
  {
    Bounded(w.rate) && Queued(w) && Spaced(w)
  }

  lemma {:induction false} WithoutKeepsOrder(waiters: seq<Ticket>, t: Ticket)
    requires Distinct(waiters)
    ensures Distinct(Without(waiters, t))
    ensures waiters != [] && waiters[0] != t ==> Without(waiters, t) != [] && Without(waiters, t)[0] == waiters[0]
  {
    if waiters != [] {
      var tail := waiters[1..];
      forall i, j | 0 <= i < j < |tail| ensures tail[i] != tail[j] { assert waiters[i + 1] != waiters[j + 1]; }
      WithoutKeepsOrder(tail, t);
      forall q | q in tail ensures q != waiters[0] {
        var i :| 0 <= i < |tail| && tail[i] == q;
        assert waiters[i + 1] == q;
      }
      var left := Without(waiters, t);
      forall i, j | 0 <= i < j < |left| ensures left[i] != left[j] {
        if waiters[0] != t {
          assert left[j] == Without(tail, t)[j - 1] && left[j] in Without(tail, t);
        }
      }
    }
  }

  lemma StepKeeps(w: World, step: Step)
    requires Valid(w) && Enabled(w, step)
    ensures Valid(Do(w, step))
  {
    hide Bounded, Queued, Spaced, Recover, Throttle, Overload, Succeed, WarmStart, Leave;
    RateKeeps(w, step);
    QueueKeeps(w, step);
    SpacingKeeps(w, step);
  }

  lemma RateKeeps(w: World, step: Step)
    requires Bounded(w.rate) && Enabled(w, step)
    ensures Bounded(Do(w, step).rate)
  {
    hide Recover, Throttle, Overload, Succeed;
    match step
    case Arrive(_, now) => RecoverKeeps(w.rate, now);
    case Timeout(_, now) => RecoverKeeps(w.rate, now);
    case Try(_, now) => RecoverKeeps(w.rate, now);
    case Throttled(m, now) => ThrottleKeeps(w.rate, m, now);
    case Overloaded(now) => OverloadKeeps(w.rate, now);
    case Succeeded(now) => SucceedKeeps(w.rate, now);
    case _ =>
  }

  lemma QueueKeeps(w: World, step: Step)
    requires Queued(w) && Enabled(w, step)
    ensures Queued(Do(w, step))
  {
    hide Recover, Throttle, Overload, Succeed, WarmStart, Queued;
    var w' := Do(w, step);
    match step
    case Finish(t) => LeaveKeeps(w, t);
    case Arrive(t, now) => if w'.waiters != w.waiters { JoinKeeps(w, w', t); } else { SameQueue(w, w'); }
    case Ring(t) => StageKeeps(w, w', t);
    case Deliver(t) => CallKeeps(w, w', t);
    case Timeout(t, _) => if w'.stages != w.stages { StageKeeps(w, w', t); } else { SameQueue(w, w'); }
    case Wake(t) => StageKeeps(w, w', t);
    case Try(t, _) => if w'.stages != w.stages { StageKeeps(w, w', t); } else { SameQueue(w, w'); }
    case CheckFails(t) => StageKeeps(w, w', t);
    case _ => SameQueue(w, w');
  }

  lemma SameQueue(w: World, w': World)
    requires Queued(w) && w'.waiters == w.waiters && w'.stages == w.stages && w'.rung == w.rung && w'.handed == w.handed
    ensures Queued(w')
  {
  }

  /** A queued thread moves to another stage, ringing its own event if it opens the queue. */
  lemma StageKeeps(w: World, w': World, t: Ticket)
    requires Queued(w) && t in w.stages && t in w'.stages && w'.waiters == w.waiters && w'.handed == w.handed
    requires w'.stages == w.stages[t := w'.stages[t]] && w'.stages[t] != Opening
    requires w'.rung == if w.stages[t] == Opening && w'.stages[t] == Following then w.rung + {t} else w.rung
    requires w'.stages[t] == Leading ==> t in w.rung
    requires w.stages[t] == Opening ==> w'.stages[t] == Following
    ensures Queued(w')
  {
  }

  lemma CallKeeps(w: World, w': World, t: Ticket)
    requires Queued(w) && t in w.handed && w'.waiters == w.waiters && w'.stages == w.stages
    requires w'.rung == w.rung + {t} && w'.handed == w.handed - {t}
    ensures Queued(w')
  {
  }

  lemma JoinKeeps(w: World, w': World, t: Ticket)
    requires Queued(w) && t !in w.stages && t !in w.rung && t !in w.handed
    requires w'.waiters == w.waiters + [t] && w'.rung == w.rung && w'.handed == w.handed
    requires w'.stages == w.stages[t := if w.waiters == [] then Opening else Following]
    ensures Queued(w')
  {
    assert t !in w.waiters;
    assert forall q :: q in w'.waiters <==> q in w.waiters || q == t;
  }

  lemma LeaveKeeps(w: World, t: Ticket)
    requires Queued(w) && w.waiters != [] && In(w, t, Leaving)
    ensures Queued(Leave(w, t))
  {
    hide Distinct;
    WithoutKeepsOrder(w.waiters, t);
    var w' := Leave(w, t);
    if w.waiters[0] == t && w'.waiters != [] {
      assert forall q :: q in w'.waiters ==> !Called(w, q);
    }
  }

  lemma SpacingKeeps(w: World, step: Step)
    requires Bounded(w.rate) && Spaced(w) && Enabled(w, step)
    ensures Spaced(Do(w, step))
  {
    hide Recover, Throttle, Overload, Succeed;
    match step
    case Arrive(_, now) => RecoverKeeps(w.rate, now);
    case Timeout(_, now) => RecoverKeeps(w.rate, now);
    case Try(_, now) => RecoverKeeps(w.rate, now);
    case Throttled(m, now) => ThrottleKeeps(w.rate, m, now);
    case Overloaded(now) => OverloadKeeps(w.rate, now);
    case Succeeded(now) => SucceedSpacing(w.rate, now);
    case _ =>
  }

  lemma SucceedSpacing(r: Rate, now: real)
    requires Bounded(r)
    ensures Bounded(Succeed(r, now))
    ensures Succeed(r, now).nextStart == r.nextStart || Succeed(r, now).nextStart == now + Succeed(r, now).interval
  {
    hide Recover;
    if r.timed { RecoverKeeps(r, now); }
  }

  lemma OpenedIsValid(interval: real, timed: bool, serverQueue: bool, now: real)
    requires interval >= 0.0
    ensures Valid(Opened(interval, timed, serverQueue, now))
  {
  }

  lemma {:induction false} RunKeeps(w: World, steps: seq<Step>)
    requires Valid(w)
    ensures Valid(Run(w, steps))
    decreases |steps|
  {
    hide Valid, Enabled, Do;
    if steps != [] {
      RunKeeps(w, steps[..|steps| - 1]);
      var before := Run(w, steps[..|steps| - 1]);
      if Enabled(before, steps[|steps| - 1]) { StepKeeps(before, steps[|steps| - 1]); }
    }
  }

  /* ---------- the guarantees ---------- */

  /** Any run of any number of threads: a start comes at least the smallest interval in force
      since the previous start after it. */
  lemma StartsAreSpaced(first: World, steps: seq<Step>, step: Step)
    requires Valid(first) && Enabled(Run(first, steps), step) && Starts(Run(first, steps), step)
    ensures
      var w := Run(first, steps);
      && Do(w, step).lastStart.Some?
      && (w.lastStart.Some? ==>
            Do(w, step).lastStart.value - w.lastStart.value >= Min(w.least, Recover(w.rate, Do(w, step).clock).interval) >= 0.0)
  {
    hide Run, Recover, Queued;
    RunKeeps(first, steps);
    var w := Run(first, steps);
    RecoverKeeps(w.rate, Do(w, step).clock);
  }

  /** `least` forgets nothing: it is at most every interval in force since the last start. */
  lemma LeastIsSmallest(w: World, step: Step)
    requires Valid(w) && Enabled(w, step)
    ensures Do(w, step).least <= Do(w, step).rate.interval
    ensures !Starts(w, step) ==> Do(w, step).least == Min(w.least, Do(w, step).rate.interval)
  {
    hide Recover, Throttle, Overload, Succeed, Queued, Bounded;
    SmallestSoFar(w, step);
  }

  lemma SmallestSoFar(w: World, step: Step)
    requires w.least <= w.rate.interval && Enabled(w, step)
    ensures Do(w, step).least <= Do(w, step).rate.interval
    ensures !Starts(w, step) ==> Do(w, step).least == Min(w.least, Do(w, step).rate.interval)
  {
    hide Recover, Throttle, Overload, Succeed;
  }

  /** The request started by step `n` of the run, if it starts one. */
  predicate StartsAt(first: World, steps: seq<Step>, n: nat)
    requires n < |steps|
  {
    Enabled(Run(first, steps[..n]), steps[n]) && Starts(Run(first, steps[..n]), steps[n])
  }

  /** Any two starts of a run, whatever happens between them, are at least as far apart as any lower bound on the
      intervals in force in between. */
  lemma AnyTwoStartsAreSpaced(first: World, steps: seq<Step>, i: nat, j: nat, bound: real)
    requires Valid(first) && i < j < |steps| && StartsAt(first, steps, i) && StartsAt(first, steps, j)
    requires bound >= 0.0 && forall k :: i < k <= j + 1 ==> Run(first, steps[..k]).rate.interval >= bound
    ensures Run(first, steps[..j + 1]).clock - Run(first, steps[..i + 1]).clock >= bound
  {
    hide Run, Do, Enabled, Starts, Recover, Valid;
    SinceTheStart(first, steps, i, j, bound);
    RunOneMore(first, steps, j);
    var w := Run(first, steps[..j]);
    RunKeeps(first, steps[..j]);
    StartsAreSpaced(first, steps[..j], steps[j]);
    StartStep(w, steps[j]);
  }

  lemma StartStep(w: World, step: Step)
    requires Enabled(w, step) && Starts(w, step)
    ensures Do(w, step).lastStart == Some(Do(w, step).clock) && Do(w, step).least == Do(w, step).rate.interval
    ensures Do(w, step).rate.interval == Recover(w.rate, Do(w, step).clock).interval
  {
    hide Recover;
  }

  lemma NoStart(w: World, step: Step)
    requires Enabled(w, step) && !Starts(w, step)
    ensures Do(w, step).lastStart == w.lastStart
  {
    hide Recover, Throttle, Overload, Succeed;
  }

  lemma RunOneMore(first: World, steps: seq<Step>, n: nat)
    requires n < |steps|
    ensures Run(first, steps[..n + 1]) ==
      if Enabled(Run(first, steps[..n]), steps[n]) then Do(Run(first, steps[..n]), steps[n]) else Run(first, steps[..n])
  {
    hide Enabled, Do;
    assert steps[..n + 1][..n] == steps[..n];
  }

  lemma {:induction false} SinceTheStart(first: World, steps: seq<Step>, i: nat, m: nat, bound: real)
    requires Valid(first) && i < m < |steps| && StartsAt(first, steps, i)
    requires bound >= 0.0 && forall k :: i < k <= m ==> Run(first, steps[..k]).rate.interval >= bound
    ensures
      var w := Run(first, steps[..m]);
      w.lastStart.Some? && w.lastStart.value >= Run(first, steps[..i + 1]).clock && w.least >= bound
    decreases m
  {
    hide Run, Do, Enabled, Starts, Recover, Valid;
    var n := m - 1;
    var w := Run(first, steps[..n]);
    RunOneMore(first, steps, n);
    if n == i {
      StartStep(w, steps[n]);
    } else {
      SinceTheStart(first, steps, i, n, bound);
      RunKeeps(first, steps[..n]);
      if Enabled(w, steps[n]) {
        LeastIsSmallest(w, steps[n]);
        if Starts(w, steps[n]) {
          StartsAreSpaced(first, steps[..n], steps[n]);
          StartStep(w, steps[n]);
        } else {
          NoStart(w, steps[n]);
        }
      }
    }
  }

  /** The queue never falls asleep: its head has been called or the call is on its way, nobody behind
      the head is called, and only the head ever leads. */
  lemma HeadIsCalled(first: World, steps: seq<Step>)
    requires Valid(first)
    ensures
      var w := Run(first, steps);
      && (w.waiters != [] ==> Called(w, w.waiters[0]))
      && (forall i :: 0 < i < |w.waiters| ==> !Called(w, w.waiters[i]))
      && (forall t :: In(w, t, Leading) ==> w.waiters != [] && t == w.waiters[0])
  {
    hide Run, Bounded, Spaced;
    RunKeeps(first, steps);
    var w := Run(first, steps);
    forall i | 0 < i < |w.waiters| ensures !Called(w, w.waiters[i]) { assert w.waiters[i] in w.waiters; }
  }

  /** With a positive interval and somebody queued, only the head starts. */
  lemma OnlyTheHeadStarts(first: World, steps: seq<Step>, step: Step)
    requires Valid(first) && Enabled(Run(first, steps), step) && Starts(Run(first, steps), step)
    requires Run(first, steps).waiters != [] && Recover(Run(first, steps).rate, Do(Run(first, steps), step).clock).interval > 0.0
    ensures step.Try? && step.t == Run(first, steps).waiters[0]
  {
    hide Run, Recover, Bounded, Spaced;
    RunKeeps(first, steps);
  }

  /** Two steps that need neither time nor luck bring the head to its deadline loop. */
  lemma HeadReachesItsDeadline(first: World, steps: seq<Step>) returns (more: seq<Step>)
    requires Valid(first) && Run(first, steps).waiters != []
    ensures |more| <= 2
    ensures
      var w := Run(first, steps);
      var w' := Run(w, more);
      var t := w.waiters[0];
      w'.waiters == w.waiters && w'.clock == w.clock && (In(w', t, Leading) || In(w', t, Leaving))
  {
    hide Run, Bounded, Spaced;
    RunKeeps(first, steps);
    var w := Run(first, steps);
    var t := w.waiters[0];
    assert t in w.stages;
    match w.stages[t]
    case Opening =>
      more := [Ring(t), Wake(t)];
      RunTwo(w, Ring(t), Wake(t));
    case Following =>
      if t in w.rung {
        more := [Wake(t)];
        RunTwo(w, Wake(t), Deliver(t));
      } else {
        more := [Deliver(t), Wake(t)];
        RunTwo(w, Deliver(t), Wake(t));
      }
    case _ =>
      more := [];
      RunTwo(w, Wake(t), Wake(t));
  }

  lemma RunTwo(w: World, a: Step, b: Step)
    ensures Run(w, []) == w
    ensures Enabled(w, a) ==> Run(w, [a]) == Do(w, a)
    ensures Enabled(w, a) && Enabled(Do(w, a), b) ==> Run(w, [a, b]) == Do(Do(w, a), b)
  {
    hide Enabled, Do;
    assert [a][..0] == [] && [a, b][..1] == [a];
  }

  /** Timed mode: the interval stays between its floor and its ceiling, and a recovery never leaves
      a deadline further away than the interval then in force. */
  lemma TimedRateIsBounded(first: World, steps: seq<Step>, now: real)
    requires Valid(first) && Run(first, steps).rate.timed
    ensures
      var r := Run(first, steps).rate;
      && r.base <= r.interval <= r.maximum
      && Recover(r, now).nextStart <= now + Recover(r, now).interval <= now + r.maximum
  {
    hide Run, Queued, Spaced, Recover;
    RunKeeps(first, steps);
    RecoverKeeps(Run(first, steps).rate, now);
  }

  /* ---------- the object ---------- */

  class RequestStartPacer {
    const base: real
    const maximum: real
    const timed: bool
    const serverQueue: bool
    var interval: real
    var lastIncrease: Option<real>
    var lastRecovery: real
    var lastThrottle: real
    var nextStart: real
    var streak: nat
    var queueRecovery: bool
    var smooth: bool
    var waiters: seq<Ticket>

    ghost function Value(): Rate
      reads this
    {
      Rate(interval, base, maximum, timed, serverQueue, lastIncrease, lastRecovery, lastThrottle, nextStart, streak, queueRecovery, smooth)
    }

    constructor (interval: real, timed: bool, serverQueue: bool, now: real)
      ensures Value() == New(interval, timed, serverQueue, now) && waiters == []
    {
      this.interval, base, maximum, this.timed, this.serverQueue := interval, interval, Max(2.0, interval), timed, serverQueue;
      lastIncrease, lastRecovery, lastThrottle, nextStart := None, now, 0.0, 0.0;
      streak, queueRecovery, smooth, waiters := 0, false, false, [];
    }

    method RecoverNow(now: real)
      modifies this`interval, this`lastRecovery, this`nextStart
      ensures Value() == Recover(old(Value()), now)
    {
      if !timed { return; }
      interval := Min(maximum, interval);
      if now - Max(lastThrottle, lastRecovery) >= (if queueRecovery then 10.0 else 60.0) {
        interval := Max(base, interval * (if smooth then 0.9 else if queueRecovery then 0.5 else 0.75));
        if interval < 0.01 && base == 0.0 { interval := 0.0; }
        lastRecovery := now;
      }
      nextStart := Min(nextStart, now + interval);
    }

    /** The first critical section of `wait`: start at once, or join the queue. */
    method Enter(t: Ticket, now: real) returns (granted: bool, opens: bool)
      modifies this`interval, this`lastRecovery, this`nextStart, this`waiters
      ensures granted <==>
        Recover(old(Value()), now).interval == 0.0 || (old(waiters) == [] && Recover(old(Value()), now).nextStart <= now)
      ensures Value() == if granted then Start(Recover(old(Value()), now), now) else Recover(old(Value()), now)
      ensures waiters == if granted then old(waiters) else old(waiters) + [t]
      ensures opens <==> !granted && old(waiters) == []
    {
      hide Recover;
      RecoverNow(now);
      granted, opens := interval == 0.0 || (waiters == [] && nextStart <= now), false;
      if granted {
        nextStart := now + interval;
      } else {
        opens := waiters == [];
        waiters := waiters + [t];
      }
    }

    /** A follower whose wait timed out leaves only when there is no spacing any more. */
    method Bypass(now: real) returns (granted: bool)
      modifies this`interval, this`lastRecovery, this`nextStart
      ensures Value() == Recover(old(Value()), now) && (granted <==> Value().interval == 0.0)
    {
      RecoverNow(now);
      granted := interval == 0.0;
    }

    /** One turn of the head's loop. */
    method TryHead(now: real) returns (granted: bool)
      modifies this`interval, this`lastRecovery, this`nextStart
      ensures granted <==> Recover(old(Value()), now).nextStart <= now
      ensures Value() == if granted then Start(Recover(old(Value()), now), now) else Recover(old(Value()), now)
    {
      hide Recover;
      RecoverNow(now);
      granted := nextStart - now <= 0.0;
      if granted { nextStart := now + interval; }
    }

    /** The `finally` of `wait`: the successor to be set once the lock is released. */
    method Depart(t: Ticket) returns (successor: Option<Ticket>)
      requires waiters != []
      modifies this`waiters
      ensures waiters == Without(old(waiters), t)
      ensures successor == if old(waiters)[0] == t && waiters != [] then Some(waiters[0]) else None
    {
      var wasHead := waiters[0] == t;
      waiters := Without(waiters, t);
      successor := if wasHead && waiters != [] then Some(waiters[0]) else None;
    }

    method RecordThrottle(m: Message, now: real)
      modifies this
      ensures Value() == Throttle(old(Value()), m, now) && waiters == old(waiters)
    {
      var queueBurst := timed && (m.limitBurstRate || m.burstRate || m.tooFast) && (serverQueue || m.tooFast);
      var least := if m.limitRequests then 0.2 else if m.limitBurstRate then 0.1 else 0.05;
      queueRecovery, smooth := queueBurst, m.tooFast;
      if queueBurst {
        Slow(0.005, now);
      } else if timed {
        var candidate := Max(least, interval);
        if lastIncrease.None? || now - lastIncrease.value >= 30.0 {
          candidate := Max(candidate, interval * 1.5);
          lastIncrease := Some(now);
        }
        interval, lastThrottle, streak := Min(maximum, candidate), now, 0;
      } else {
        var candidate := Max(least, interval);
        if now - lastThrottle >= 5.0 { candidate := Max(candidate, if interval != 0.0 then interval * 1.5 else least); }
        if candidate > interval { interval, streak, lastThrottle := candidate, 0, now; }
      }
    }

    method RecordOverload(now: real)
      modifies this
      ensures Value() == Overload(old(Value()), now) && waiters == old(waiters)
    {
      queueRecovery, smooth := true, true;
      Slow(0.001, now);
    }

    method Slow(least: real, now: real)
      modifies this`interval, this`lastIncrease, this`lastThrottle, this`streak
      ensures Value() == Slower(old(Value()), least, now)
    {
      var candidate := Max(least, interval);
      if lastIncrease.None? || now - lastIncrease.value >= 5.0 {
        candidate := candidate * 1.25;
        lastIncrease := Some(now);
      }
      interval, lastThrottle, streak := Min(maximum, candidate), now, 0;
    }

    method RecordSuccess(now: real)
      modifies this
      ensures Value() == Succeed(old(Value()), now) && waiters == old(waiters)
    {
      hide Recover;
      if timed {
        RecoverNow(now);
        return;
      }
      streak := streak + 1;
      if streak >= 2000 && interval > 0.01 { interval, streak := Max(0.01, interval * 0.95), 0; }
    }
  }
}
