/** The content-addressed file transport of scripts/ark_file_transport.py for one identity: a lease file
    (shared by open references, exclusive for cleanup), a record file behind its own lock, and the service.
    Any thread may die between two steps; the operating system then drops its locks. */
module FileLeases {

  datatype Option<+T> = None | Some(value: T)

  type Thread = nat

  type Id = nat

  datatype Status = Processing | Active | Failed

  datatype Rec = Rec(id: Id, status: Status, expireAt: real)

  /** The record file: missing, not JSON, marked deleted, or a file description. */
  datatype Stored = Absent | Garbage | Deleted(id: Id) | Saved(rec: Rec)

  /** Where the thread that uses a reference stands.  `known` is the reference's own record. */
  datatype Stage =
    | Open(known: Option<Rec>)
    | Locking(known: Option<Rec>)
    | Holding(known: Option<Rec>)
    | Checking(known: Option<Rec>, id: Id)
    | Uploading(known: Option<Rec>)
    | Uploaded(known: Option<Rec>, rec: Rec)
    | Waiting(known: Option<Rec>, rec: Rec)

  datatype Cleanup = Leased | Reading | Requested(id: Id) | Confirmed(id: Id)

  /** `leases` are the open references, `owner` the exclusive holder, `lock` the record lock.
      `files` is the service; `flying` the delete requests not yet applied; `removed` the files it deleted
      at our request; `abandoned` those whose request outlived the lease it was sent under. */
  datatype World = World(refs: map<Thread, Stage>, owner: Option<Thread>, cleanups: map<Thread, Cleanup>, lock: Option<Thread>,
                         record: Stored, files: map<Id, Status>, flying: map<Thread, Id>, removed: set<Id>,
                         abandoned: set<Id>, clock: real)

  /** A file must outlive the request that uses it by this many seconds. */
  const MARGIN: real := 900.0

  datatype Step =
    | Acquire(t: Thread)
    | Resolve(t: Thread, now: real)
    | LockRecord(t: Thread)
    | ReadRecord(t: Thread, now: real)
    | StatusIs(t: Thread, expireAt: real)
    | StatusMissing(t: Thread)
    | Upload(t: Thread, id: Id, status: Status, expireAt: real)
    | SaveUpload(t: Thread)
    | Poll(t: Thread, expireAt: real)
    | Finish(t: Thread, now: real)
    | Fails(t: Thread)
    | Close(t: Thread)
    | Dies(t: Thread)
    | LeaseAll(d: Thread)
    | LockForCleanup(d: Thread)
    | Request(d: Thread)
    | Nothing(d: Thread)
    | Applies(d: Thread)
    | Confirms(d: Thread)
    | SaveDeleted(d: Thread)
    | Abandon(d: Thread)
    | Processed(id: Id, status: Status)
    | Expires(id: Id)

  predicate At(w: World, t: Thread)
  {
    t in w.refs
  }

  predicate Current(r: Option<Rec>, now: real)
  {
    r.Some? && r.value.expireAt >= now + MARGIN
  }

  predicate Enabled(w: World, step: Step)
  {
    match step
    case Acquire(t) => t !in w.refs && t !in w.cleanups && t !in w.flying && w.owner.None?
    case Resolve(t, now) => At(w, t) && w.refs[t].Open? && now >= w.clock && !Current(w.refs[t].known, now)
    case LockRecord(t) => At(w, t) && w.refs[t].Locking? && w.lock.None?
    case ReadRecord(t, now) => At(w, t) && w.refs[t].Holding? && now >= w.clock
    case StatusIs(t, _) => At(w, t) && w.refs[t].Checking? && w.refs[t].id in w.files
    case StatusMissing(t) => At(w, t) && w.refs[t].Checking? && w.refs[t].id !in w.files
    case Upload(t, id, _, _) => At(w, t) && w.refs[t].Uploading? && id !in w.files && id !in w.removed && Fresh(w, id)
    case SaveUpload(t) => At(w, t) && w.refs[t].Uploaded?
    case Poll(t, _) => At(w, t) && w.refs[t].Waiting? && w.refs[t].rec.status == Processing && w.refs[t].rec.id in w.files
    case Finish(t, now) => At(w, t) && w.refs[t].Waiting? && w.refs[t].rec.status == Active && now >= w.clock
                           && w.refs[t].rec.expireAt > now + MARGIN
    case Fails(t) => At(w, t) && !w.refs[t].Open?
    case Close(t) => At(w, t) && w.refs[t].Open?
    case Dies(t) => At(w, t)
    case LeaseAll(d) => d !in w.refs && d !in w.cleanups && d !in w.flying && w.owner.None? && w.refs == map[]
    case LockForCleanup(d) => d in w.cleanups && w.cleanups[d].Leased? && w.lock.None?
    case Request(d) => d in w.cleanups && w.cleanups[d].Reading? && w.record.Saved?
    case Nothing(d) => d in w.cleanups && w.cleanups[d].Reading? && !w.record.Saved?
    case Applies(d) => d in w.flying
    case Confirms(d) => d in w.cleanups && w.cleanups[d].Requested? && d !in w.flying
    case SaveDeleted(d) => d in w.cleanups && w.cleanups[d].Confirmed?
    case Abandon(d) => d in w.cleanups
    case Processed(id, _) => id in w.files && w.files[id] == Processing
    case Expires(id) => id in w.files
  }

  /** The service never reuses an identifier. */
  predicate Fresh(w: World, id: Id)
  {
    && (w.record.Saved? ==> w.record.rec.id != id) && (w.record.Deleted? ==> w.record.id != id)
    && (forall d :: d in w.flying ==> w.flying[d] != id)
    && (forall t :: t in w.refs ==> w.refs[t].known.None? || w.refs[t].known.value.id != id)
    && id !in w.abandoned
  }

  function Release(w: World, t: Thread): World
  {
    w.(lock := if w.lock == Some(t) then None else w.lock)
  }

  function Stay(w: World, t: Thread, stage: Stage): World
  {
    w.(refs := w.refs[t := stage])
  }

  /** A reference's thread is gone: its lease and the record lock, if it had it, are dropped. */
  function Gone(w: World, t: Thread): World
  {
    Release(w, t).(refs := w.refs - {t})
  }

  /** The exclusive lease ends; a request still under way is now nobody's. */
  function Drop(w: World, d: Thread): World
  {
    Release(w, d).(cleanups := w.cleanups - {d}, owner := if w.owner == Some(d) then None else w.owner,
                   abandoned := if d in w.flying then w.abandoned + {w.flying[d]} else w.abandoned)
  }

  function Do(w: World, step: Step): World
    requires Enabled(w, step)
  {
    match step
    case Acquire(t) => Stay(w, t, Open(None))
    case Resolve(t, now) => Stay(w, t, Locking(w.refs[t].known)).(clock := now)
    case LockRecord(t) => Stay(w, t, Holding(w.refs[t].known)).(lock := Some(t))
    case ReadRecord(t, now) =>
      if w.record.Saved? && w.record.rec.expireAt > now + MARGIN
        then Stay(w, t, Checking(w.refs[t].known, w.record.rec.id)).(clock := now)
        else Stay(w, t, Uploading(w.refs[t].known)).(clock := now)
    case StatusIs(t, expireAt) =>
      var rec := Rec(w.refs[t].id, w.files[w.refs[t].id], expireAt);
      if rec.status == Active then Release(Stay(w, t, Open(Some(rec))), t) else Stay(w, t, Waiting(w.refs[t].known, rec))
    case StatusMissing(t) => Stay(w, t, Uploading(w.refs[t].known))
    case Upload(t, id, status, expireAt) =>
      Stay(w, t, Uploaded(w.refs[t].known, Rec(id, status, expireAt))).(files := w.files[id := status])
    case SaveUpload(t) => Stay(w, t, Waiting(w.refs[t].known, w.refs[t].rec)).(record := Saved(w.refs[t].rec))
    case Poll(t, expireAt) =>
      Stay(w, t, Waiting(w.refs[t].known, Rec(w.refs[t].rec.id, w.files[w.refs[t].rec.id], expireAt)))
    case Finish(t, now) =>
      Release(Stay(w, t, Open(Some(w.refs[t].rec))), t).(record := Saved(w.refs[t].rec), clock := now)
    case Fails(t) => Release(Stay(w, t, Open(w.refs[t].known)), t)
    case Close(t) => Gone(w, t)
    case Dies(t) => Gone(w, t)
    case LeaseAll(d) => w.(owner := Some(d), cleanups := w.cleanups[d := Leased])
    case LockForCleanup(d) => w.(cleanups := w.cleanups[d := Reading], lock := Some(d))
    case Request(d) =>
      w.(cleanups := w.cleanups[d := Requested(w.record.rec.id)], flying := w.flying[d := w.record.rec.id])
    case Nothing(d) => Drop(w, d)
    case Applies(d) =>
      w.(files := w.files - {w.flying[d]}, removed := w.removed + {w.flying[d]}, flying := w.flying - {d})
    case Confirms(d) => w.(cleanups := w.cleanups[d := Confirmed(w.cleanups[d].id)])
    case SaveDeleted(d) => Drop(w.(record := Deleted(w.cleanups[d].id)), d)
    case Abandon(d) => Drop(w, d)
    case Processed(id, status) => w.(files := w.files[id := status])
    case Expires(id) => w.(files := w.files - {id})
  }

  function Run(w: World, steps: seq<Step>): World
  {
    if steps == [] then w
    else
      var before := Run(w, steps[..|steps| - 1]);
      if Enabled(before, steps[|steps| - 1]) then Do(before, steps[|steps| - 1]) else before
  }

  /** Nobody there yet; the record file may hold anything an earlier process left. */
  ghost predicate Initial(w: World)
  {
    w.refs == map[] && w.owner.None? && w.cleanups == map[] && w.lock.None? && w.flying == map[] && w.removed == {} && w.abandoned == {}
  }

  /* ---------- the invariant ---------- */

  predicate HoldsLock(stage: Stage)
  {
    !stage.Open? && !stage.Locking?
  }

  /** The two lock files. */
  ghost predicate Locked(w: World)
  {
    && (forall d :: d in w.cleanups <==> w.owner == Some(d))
    && (w.owner.Some? ==> w.refs == map[])
    && (forall t :: t in w.refs ==> (HoldsLock(w.refs[t]) <==> w.lock == Some(t)))
    && (forall d :: d in w.cleanups ==> (!w.cleanups[d].Leased? <==> w.lock == Some(d)))
    && (w.lock.Some? ==> w.lock.value in w.refs || w.lock.value in w.cleanups)
  }

  /** A delete under way belongs to the lease holder, or has been abandoned. */
  ghost predicate Tracked(w: World)
  {
    && (forall d :: d in w.flying ==> d in w.cleanups || w.flying[d] in w.abandoned)
    && (forall d :: d in w.cleanups && d in w.flying ==> w.cleanups[d] == Requested(w.flying[d]))
    && (forall id :: id in w.removed ==> id !in w.files)
  }

  /** The file a stage relies on was not deleted by us, unless a request for it was abandoned. */
  predicate Trusts(stage: Stage, removed: set<Id>, abandoned: set<Id>)
  {
    && (stage.known.Some? && stage.known.value.id in removed ==> stage.known.value.id in abandoned)
    && ((stage.Uploaded? || stage.Waiting?) && stage.rec.id in removed ==> stage.rec.id in abandoned)
  }

  ghost predicate Trusted(w: World)
  {
    forall t :: t in w.refs ==> Trusts(w.refs[t], w.removed, w.abandoned)
  }

  /** An upload under way has its reason, and keeps it while the record lock is held. */
  ghost predicate Justified(w: World)
  {
    forall t :: t in w.refs && w.refs[t].Uploading? && w.record.Saved? ==>
      w.record.rec.expireAt <= w.clock + MARGIN || w.record.rec.id !in w.files
  }

  ghost predicate Checked(w: World)
  {
    forall t :: t in w.refs && w.refs[t].Checking? ==> w.record.Saved? && w.record.rec.id == w.refs[t].id
  }

  ghost predicate Valid(w: World)
  {
    Locked(w) && Tracked(w) && Trusted(w) && Justified(w) && Checked(w)
  }

  lemma StepKeeps(w: World, step: Step)
    requires Valid(w) && Enabled(w, step)
    ensures Valid(Do(w, step))
  {
    hide Locked, Tracked, Trusted, Justified, Checked, Enabled, Do;
    LockedKeeps(w, step);
    TrackedKeeps(w, step);
    TrustedKeeps(w, step);
    JustifiedKeeps(w, step);
  }

  /** References coming and going, and the start of a resolve. */
  predicate Entering(step: Step)
  {
    step.Acquire? || step.Resolve? || step.LockRecord? || step.ReadRecord? || step.Fails? || step.Close? || step.Dies?
  }

  /** The rest of a resolve, under the record lock. */
  predicate Resolving(step: Step)
  {
    step.StatusIs? || step.StatusMissing? || step.Upload? || step.SaveUpload? || step.Poll? || step.Finish?
  }

  lemma LockedKeeps(w: World, step: Step)
    requires Locked(w) && Enabled(w, step)
    ensures Locked(Do(w, step))
  {
    hide Locked, Tracked, Trusted, Justified, Checked, Enabled, Do;
    if Entering(step) {
      LockedEntering(w, step);
    } else if Resolving(step) {
      LockedResolving(w, step);
    } else {
      LockedCleaning(w, step);
    }
  }

  lemma LockedEntering(w: World, step: Step)
    requires Locked(w) && Enabled(w, step) && Entering(step)
    ensures Locked(Do(w, step))
  {
    hide Fresh, Current;
  }

  lemma LockedResolving(w: World, step: Step)
    requires Locked(w) && Enabled(w, step) && Resolving(step) && !Entering(step)
    ensures Locked(Do(w, step))
  {
    hide Fresh, Current;
  }

  lemma LockedCleaning(w: World, step: Step)
    requires Locked(w) && Enabled(w, step) && !Entering(step) && !Resolving(step)
    ensures Locked(Do(w, step))
  {
    hide Fresh, Current;
  }

  lemma TrackedKeeps(w: World, step: Step)
    requires Locked(w) && Tracked(w) && Enabled(w, step)
    ensures Tracked(Do(w, step))
  {
    hide Locked, Tracked, Trusted, Justified, Checked, Enabled, Do;
    if Entering(step) {
      TrackedEntering(w, step);
    } else if Resolving(step) {
      TrackedResolving(w, step);
    } else {
      TrackedCleaning(w, step);
    }
  }

  lemma TrackedEntering(w: World, step: Step)
    requires Locked(w) && Tracked(w) && Enabled(w, step) && Entering(step)
    ensures Tracked(Do(w, step))
  {
    hide Fresh, Current;
  }

  lemma TrackedResolving(w: World, step: Step)
    requires Locked(w) && Tracked(w) && Enabled(w, step) && Resolving(step) && !Entering(step)
    ensures Tracked(Do(w, step))
  {
    hide Fresh, Current;
  }

  lemma TrackedCleaning(w: World, step: Step)
    requires Locked(w) && Tracked(w) && Enabled(w, step) && !Entering(step) && !Resolving(step)
    ensures Tracked(Do(w, step))
  {
    hide Fresh, Current;
  }

  lemma TrustedKeeps(w: World, step: Step)
    requires Locked(w) && Tracked(w) && Trusted(w) && Enabled(w, step)
    ensures Trusted(Do(w, step))
  {
    hide Locked, Tracked, Trusted, Justified, Checked, Enabled, Do;
    if Entering(step) {
      TrustedEntering(w, step);
    } else if Resolving(step) {
      TrustedResolving(w, step);
    } else {
      TrustedCleaning(w, step);
    }
  }

  lemma TrustedEntering(w: World, step: Step)
    requires Locked(w) && Tracked(w) && Trusted(w) && Enabled(w, step) && Entering(step)
    ensures Trusted(Do(w, step))
  {
    hide Fresh, Current;
  }

  lemma TrustedResolving(w: World, step: Step)
    requires Locked(w) && Tracked(w) && Trusted(w) && Enabled(w, step) && Resolving(step) && !Entering(step)
    ensures Trusted(Do(w, step))
  {
    hide Fresh, Current;
  }

  lemma TrustedCleaning(w: World, step: Step)
    requires Locked(w) && Tracked(w) && Trusted(w) && Enabled(w, step) && !Entering(step) && !Resolving(step)
    ensures Trusted(Do(w, step))
  {
    hide Fresh, Current;
  }

  lemma JustifiedKeeps(w: World, step: Step)
    requires Locked(w) && Justified(w) && Checked(w) && Enabled(w, step)
    ensures Justified(Do(w, step)) && Checked(Do(w, step))
  {
    hide Locked, Tracked, Trusted, Justified, Checked, Enabled, Do;
    if Entering(step) {
      JustifiedEntering(w, step);
    } else if Resolving(step) {
      JustifiedResolving(w, step);
    } else {
      JustifiedCleaning(w, step);
    }
  }

  lemma JustifiedEntering(w: World, step: Step)
    requires Locked(w) && Justified(w) && Checked(w) && Enabled(w, step) && Entering(step)
    ensures Justified(Do(w, step)) && Checked(Do(w, step))
  {
    hide Current;
  }

  lemma JustifiedResolving(w: World, step: Step)
    requires Locked(w) && Justified(w) && Checked(w) && Enabled(w, step) && Resolving(step) && !Entering(step)
    ensures Justified(Do(w, step)) && Checked(Do(w, step))
  {
    hide Current;
  }

  lemma JustifiedCleaning(w: World, step: Step)
    requires Locked(w) && Justified(w) && Checked(w) && Enabled(w, step) && !Entering(step) && !Resolving(step)
    ensures Justified(Do(w, step)) && Checked(Do(w, step))
  {
    hide Current;
  }

  lemma {:induction false} RunKeeps(first: World, steps: seq<Step>)
    requires Initial(first)
    ensures Valid(Run(first, steps))
    decreases |steps|
  {
    hide Valid, Enabled, Do, Initial;
    if steps == [] {
      InitialIsValid(first);
    } else {
      RunKeeps(first, steps[..|steps| - 1]);
      var before := Run(first, steps[..|steps| - 1]);
      if Enabled(before, steps[|steps| - 1]) { StepKeeps(before, steps[|steps| - 1]); }
    }
  }

  lemma InitialIsValid(w: World)
    requires Initial(w)
    ensures Valid(w)
  {
  }

  /* ---------- the guarantees ---------- */

  /** A delete is sent only by the one holder of the exclusive lease, with no reference open. */
  lemma NeverDeletesUnderAReference(first: World, steps: seq<Step>, d: Thread)
    requires Initial(first) && Enabled(Run(first, steps), Request(d))
    ensures Run(first, steps).refs == map[] && Run(first, steps).owner == Some(d)
    ensures Do(Run(first, steps), Request(d)).flying[d] == Run(first, steps).record.rec.id
  {
    hide Run, Tracked, Trusted, Justified, Checked;
    RunKeeps(first, steps);
  }

  /** While a reference is open the cleaner did not remove its file, unless a delete request
      for that very file had outlived its lease. */
  lemma OpenFilesAreNotRemoved(first: World, steps: seq<Step>, t: Thread)
    requires Initial(first) && t in Run(first, steps).refs && Run(first, steps).refs[t].known.Some?
    ensures
      var w := Run(first, steps);
      var id := w.refs[t].known.value.id;
      && w.owner.None?
      && (id in w.removed ==> id in w.abandoned)
  {
    hide Run, Tracked, Justified, Checked;
    RunKeeps(first, steps);
    assert Trusts(Run(first, steps).refs[t], Run(first, steps).removed, Run(first, steps).abandoned);
  }

  /** No cleanup of the run ends while its delete request is still under way. */
  predicate Answered(first: World, steps: seq<Step>)
  {
    steps == [] ||
    var front, step := steps[..|steps| - 1], steps[|steps| - 1];
    Answered(first, front) && (step.Abandon? && Enabled(Run(first, front), step) ==> step.d !in Run(first, front).flying)
  }

  /** A request outlives its lease exactly when a cleanup gives up while it is under way. */
  lemma {:induction false} NothingAbandonedIff(first: World, steps: seq<Step>)
    requires Initial(first)
    ensures Answered(first, steps) <==> Run(first, steps).abandoned == {}
    decreases |steps|
  {
    hide Do, Enabled;
    if steps != [] {
      var front, step := steps[..|steps| - 1], steps[|steps| - 1];
      NothingAbandonedIff(first, front);
      RunKeeps(first, front);
      if Enabled(Run(first, front), step) { StepAbandons(Run(first, front), step); }
    }
  }

  lemma StepAbandons(w: World, step: Step)
    requires Valid(w) && Enabled(w, step)
    ensures Do(w, step).abandoned ==
      if step.Abandon? && step.d in w.flying then w.abandoned + {w.flying[step.d]} else w.abandoned
  {
    hide Trusted, Justified, Checked, Fresh, Current, Locked;
  }

  /** Cleanups that die before they send, or after the service has applied the request, hurt no reference, under any
      interleaving and any deaths among the threads that use references. */
  lemma AnsweredIsSafe(first: World, steps: seq<Step>, t: Thread)
    requires Initial(first) && Answered(first, steps)
    requires t in Run(first, steps).refs && Run(first, steps).refs[t].known.Some?
    ensures Run(first, steps).refs[t].known.value.id !in Run(first, steps).removed
  {
    hide Run, Answered;
    NothingAbandonedIff(first, steps);
    OpenFilesAreNotRemoved(first, steps, t);
  }

  /** The cleaner's request for the file was applied, or is still under way. */
  ghost predicate Condemned(w: World, id: Id)
  {
    id in w.removed || exists d :: d in w.flying && w.flying[d] == id
  }

  predicate StaysOpen(more: seq<Step>, t: Thread)
  {
    Close(t) !in more && Dies(t) !in more
  }

  /** An open reference can still lose its file exactly when a request for it was applied or is under way: while it
      is open, no new request can be sent. */
  lemma LosesItsFileIff(first: World, steps: seq<Step>, t: Thread)
    requires Initial(first) && t in Run(first, steps).refs && Run(first, steps).refs[t].known.Some?
    ensures
      var w := Run(first, steps);
      var id := w.refs[t].known.value.id;
      Condemned(w, id) <==>
        exists more :: StaysOpen(more, t) && id in Run(w, more).removed
                       && t in Run(w, more).refs && Run(w, more).refs[t].known == w.refs[t].known
  {
    hide Run, Valid, Condemned, StaysOpen;
    RunKeeps(first, steps);
    var w := Run(first, steps);
    var id := w.refs[t].known.value.id;
    if Condemned(w, id) { var more := Strikes(w, t, id); }
    forall more | StaysOpen(more, t) && id in Run(w, more).removed ensures Condemned(w, id) {
      OnlyTheCondemned(w, more, t, id);
      assert Condemned(Run(w, more), id) by { RemovedIsCondemned(Run(w, more), id); }
    }
  }

  lemma RemovedIsCondemned(w: World, id: Id)
    requires id in w.removed
    ensures Condemned(w, id)
  {
  }

  lemma Strikes(w: World, t: Thread, id: Id) returns (more: seq<Step>)
    requires Condemned(w, id) && t in w.refs
    ensures StaysOpen(more, t) && id in Run(w, more).removed && Run(w, more).refs == w.refs
  {
    hide Run;
    if id in w.removed {
      more := [];
      RunNothing(w);
    } else {
      var d :| d in w.flying && w.flying[d] == id;
      more := [] + [Applies(d)];
      RunFrom(w, Applies(d));
    }
  }

  lemma {:induction false} OnlyTheCondemned(w: World, more: seq<Step>, t: Thread, id: Id)
    requires Valid(w) && t in w.refs && StaysOpen(more, t)
    ensures Valid(Run(w, more)) && t in Run(w, more).refs && (Condemned(Run(w, more), id) ==> Condemned(w, id))
    decreases |more|
  {
    hide Valid, Enabled, Do, Condemned;
    if more != [] {
      var front, step := more[..|more| - 1], more[|more| - 1];
      assert step in more && forall x :: x in front ==> x in more;
      OnlyTheCondemned(w, front, t, id);
      var before := Run(w, front);
      if Enabled(before, step) {
        StepKeeps(before, step);
        StepCondemnsNothing(before, step, t, id);
      }
    }
  }

  lemma StepCondemnsNothing(w: World, step: Step, t: Thread, id: Id)
    requires Valid(w) && t in w.refs && Enabled(w, step) && step != Close(t) && step != Dies(t)
    ensures t in Do(w, step).refs && (Condemned(Do(w, step), id) ==> Condemned(w, id))
  {
    hide Tracked, Trusted, Justified, Checked, Fresh, Current, Condemned, Do, Enabled;
    KeepsReference(w, step, t);
    if step.Applies? {
      AppliedWasFlying(w, step.d, id);
    } else {
      SendsNothing(w, step, t);
      SameCondemned(w, Do(w, step), id);
    }
  }

  lemma KeepsReference(w: World, step: Step, t: Thread)
    requires t in w.refs && Enabled(w, step) && step != Close(t) && step != Dies(t)
    ensures t in Do(w, step).refs
  {
    hide Fresh, Current;
  }

  lemma AppliedWasFlying(w: World, d: Thread, id: Id)
    requires Enabled(w, Applies(d))
    ensures Condemned(Do(w, Applies(d)), id) ==> Condemned(w, id)
  {
  }

  lemma SendsNothing(w: World, step: Step, t: Thread)
    requires Locked(w) && t in w.refs && Enabled(w, step) && !step.Applies?
    ensures Do(w, step).flying == w.flying && Do(w, step).removed == w.removed
  {
    hide Fresh, Current, HoldsLock;
  }

  lemma SameCondemned(w: World, w': World, id: Id)
    requires w'.flying == w.flying && w'.removed == w.removed
    ensures Condemned(w', id) <==> Condemned(w, id)
  {
  }

  /** A cleanup that sends its request and gives up before the answer leaves the request flying. */
  lemma GivesUp(first: World, d: Thread)
    requires Initial(first) && first.record.Saved?
    ensures
      var id := first.record.rec.id;
      Run(first, [LeaseAll(d), LockForCleanup(d), Request(d), Abandon(d)]) == first.(flying := map[d := id], abandoned := {id})
  {
    hide Run;
    Sends(first, d);
    var sent := [LeaseAll(d), LockForCleanup(d), Request(d)];
    RunSnoc(first, sent, Abandon(d));
    assert sent + [Abandon(d)] == [LeaseAll(d), LockForCleanup(d), Request(d), Abandon(d)];
    assert map[d := Requested(first.record.rec.id)] - {d} == map[];
  }

  lemma Sends(first: World, d: Thread)
    requires Initial(first) && first.record.Saved?
    ensures
      var id := first.record.rec.id;
      Run(first, [LeaseAll(d), LockForCleanup(d), Request(d)]) ==
        first.(owner := Some(d), lock := Some(d), cleanups := map[d := Requested(id)], flying := map[d := id])
  {
    hide Run, Fresh, Current, Drop, Gone;
    LocksBoth(first, d);
    var locked := [LeaseAll(d), LockForCleanup(d)];
    RunSnoc(first, locked, Request(d));
    assert locked + [Request(d)] == [LeaseAll(d), LockForCleanup(d), Request(d)];
  }

  lemma LocksBoth(first: World, d: Thread)
    requires Initial(first)
    ensures Run(first, [LeaseAll(d), LockForCleanup(d)]) == first.(owner := Some(d), lock := Some(d), cleanups := map[d := Reading])
  {
    hide Run, Fresh, Current, Drop, Gone;
    var a, b := LeaseAll(d), LockForCleanup(d);
    assert [a, b] == [] + [a] + [b];
    RunNothing(first);
    RunSnoc(first, [], a);
    RunSnoc(first, [] + [a], b);
  }

  /** It happens: from any start with an active file on record that is good for the margin, one cleanup whose answer
      is lost and one reference that resolves lead to an open reference whose current file is gone. */
  lemma AbandonedDeleteReachesAReference(first: World, d: Thread, t: Thread, now: real) returns (steps: seq<Step>)
    requires Initial(first) && t != d && now >= first.clock
    requires first.record.Saved? && first.record.rec.expireAt > now + MARGIN
    requires first.record.rec.id in first.files && first.files[first.record.rec.id] == Active
    ensures
      var w := Run(first, steps);
      && t in w.refs && w.refs[t].Open? && Current(w.refs[t].known, now)
      && w.refs[t].known.value.id == first.record.rec.id && first.record.rec.id in w.removed
  {
    hide Run, Do, Enabled;
    var lost := [LeaseAll(d), LockForCleanup(d), Request(d), Abandon(d)];
    GivesUp(first, d);
    var w := Run(first, lost);
    var resolve := Resolves(w, t, now);
    RunSplit(first, lost, resolve);
    AppliesTo(Run(w, resolve), d);
    RunSplit(first, lost + resolve, [] + [Applies(d)]);
    steps := lost + resolve + ([] + [Applies(d)]);
  }

  lemma AppliesTo(w: World, d: Thread)
    requires d in w.flying
    ensures Run(w, [] + [Applies(d)]).refs == w.refs && w.flying[d] in Run(w, [] + [Applies(d)]).removed
  {
    hide Run;
    RunFrom(w, Applies(d));
  }

  lemma Resolves(w: World, t: Thread, now: real) returns (steps: seq<Step>)
    requires w.refs == map[] && w.owner.None? && w.cleanups == map[] && w.lock.None? && t !in w.flying && now >= w.clock
    requires w.record.Saved? && w.record.rec.expireAt > now + MARGIN
    requires w.record.rec.id in w.files && w.files[w.record.rec.id] == Active
    ensures
      var w' := Run(w, steps);
      && w'.flying == w.flying && t in w'.refs && w'.refs[t].Open? && Current(w'.refs[t].known, now)
      && w'.refs[t].known.value.id == w.record.rec.id
  {
    hide Run, Fresh, Drop, Gone;
    var a, b, c, e, f := Acquire(t), Resolve(t, now), LockRecord(t), ReadRecord(t, now), StatusIs(t, now + MARGIN);
    steps := [] + [a] + [b] + [c] + [e] + [f];
    RunNothing(w);
    RunSnoc(w, [], a);
    RunSnoc(w, [] + [a], b);
    RunSnoc(w, [] + [a] + [b], c);
    RunSnoc(w, [] + [a] + [b] + [c], e);
    RunSnoc(w, [] + [a] + [b] + [c] + [e], f);
  }

  lemma RunSnoc(first: World, steps: seq<Step>, step: Step)
    ensures Run(first, steps + [step]) == if Enabled(Run(first, steps), step) then Do(Run(first, steps), step) else Run(first, steps)
  {
    hide Enabled, Do;
    assert (steps + [step])[..|steps|] == steps;
  }

  /** One file for all references: an upload happens only under the record lock, and only when the recorded
      file is missing, unreadable, deleted, about to expire, or gone from the service. */
  lemma UploadsOnlyWhenNeeded(first: World, steps: seq<Step>, t: Thread, id: Id, status: Status, expireAt: real)
    requires Initial(first) && Enabled(Run(first, steps), Upload(t, id, status, expireAt))
    ensures
      var w := Run(first, steps);
      && w.lock == Some(t)
      && (forall u :: u in w.refs && u != t ==> !HoldsLock(w.refs[u]))
      && (w.record.Saved? ==> w.record.rec.expireAt <= w.clock + MARGIN || w.record.rec.id !in w.files)
  {
    hide Run, Tracked, Trusted, Checked, Fresh;
    RunKeeps(first, steps);
  }

  /** The two locks cannot deadlock: whoever holds the exclusive lease finds the record lock free. */
  lemma CleanupNeverWaits(first: World, steps: seq<Step>, d: Thread)
    requires Initial(first) && d in Run(first, steps).cleanups && Run(first, steps).cleanups[d].Leased?
    ensures Enabled(Run(first, steps), LockForCleanup(d))
  {
    hide Run, Tracked, Trusted, Justified, Checked;
    RunKeeps(first, steps);
  }

  /** A resolved file is one the service itself just called active and usable for the margin or longer,
      or one it called active when the record was confirmed. */
  lemma ResolvesToAnActiveFile(first: World, steps: seq<Step>, step: Step, t: Thread)
    requires Initial(first) && Enabled(Run(first, steps), step) && t in Run(first, steps).refs
    requires t in Do(Run(first, steps), step).refs && Do(Run(first, steps), step).refs[t].known != Run(first, steps).refs[t].known
    ensures
      var w := Run(first, steps);
      var rec := Do(w, step).refs[t].known;
      && rec.Some? && rec.value.status == Active
      && (step.StatusIs? ==> rec.value.id in w.files && w.files[rec.value.id] == Active)
      && (step.Finish? ==> rec.value.expireAt > step.now + MARGIN && Do(w, step).record == Saved(rec.value))
      && (step.StatusIs? || step.Finish?)
  {
    hide Run, Fresh;
  }

  /* ---------- the program ---------- */

  /** The lock files, the record file and the service for one identity, changed by one thread at a time.
      Every method returns, as a ghost, the steps of the protocol it took: other threads' steps, and the thread's
      own death, may come between any two of them. */
  class ArkFiles {
    var refs: map<Thread, Stage>
    var owner: Option<Thread>
    var cleanups: map<Thread, Cleanup>
    var lock: Option<Thread>
    var record: Stored
    var files: map<Id, Status>
    var flying: map<Thread, Id>
    var removed: set<Id>
    var abandoned: set<Id>
    var clock: real

    ghost function State(): World
      reads this
    {
      World(refs, owner, cleanups, lock, record, files, flying, removed, abandoned, clock)
    }

    /** `ArkFileReference.acquire`, once the shared lock is granted. */
    method Acquire(t: Thread) returns (ghost trace: seq<Step>)
      requires owner.None? && t !in refs && t !in cleanups && t !in flying
      modifies this`refs
      ensures Run(old(State()), trace) == State() && refs == old(refs)[t := Open(None)]
    {
      trace := [] + [Step.Acquire(t)];
      RunFrom(State(), Step.Acquire(t));
      refs := refs[t := Open(None)];
    }

    /** `ArkFileReference.resolve`: the remembered file, or one confirmed or uploaded under the record lock.
        `newFile` is what the service would answer to an upload, `polls` how a processing file develops. */
    method Resolve(t: Thread, now: real, newFile: Rec, polls: seq<Status>) returns (id: Option<Id>, ghost trace: seq<Step>)
      requires t in refs && refs[t].Open? && now >= clock && lock.None?
      requires newFile.id !in files && newFile.id !in removed && Fresh(State(), newFile.id)
      modifies this`refs, this`lock, this`record, this`files, this`clock
      ensures Run(old(State()), trace) == State()
      ensures t in refs && refs[t].Open? && lock.None?
      ensures id.Some? ==> refs[t].known.Some? && refs[t].known.value.id == id.value
      ensures id.None? ==> refs[t] == old(refs[t])
    {
      hide Run, Do, Enabled, Fresh;
      ghost var w := State();
      RunNothing(w);
      trace := [];
      if Current(refs[t].known, now) { return Some(refs[t].known.value.id), trace; }
      ghost var more := LockForResolve(t, now);
      RunSplit(w, trace, more);
      trace := trace + more;
      var done;
      done, more := ConfirmRecord(t, now, newFile.expireAt);
      RunSplit(w, trace, more);
      trace := trace + more;
      if done { return Some(refs[t].known.value.id), trace; }
      if refs[t].Uploading? {
        StaysFresh(w, State(), newFile.id);
        more := UploadFile(t, newFile);
        RunSplit(w, trace, more);
        trace := trace + more;
      }
      id, more := AwaitActive(t, now, polls);
      RunSplit(w, trace, more);
      trace := trace + more;
    }

    method LockForResolve(t: Thread, now: real) returns (ghost trace: seq<Step>)
      requires t in refs && refs[t].Open? && now >= clock && lock.None? && !Current(refs[t].known, now)
      modifies this`refs, this`lock, this`clock
      ensures Run(old(State()), trace) == State()
      ensures refs == old(refs)[t := Holding(old(refs[t].known))] && lock == Some(t) && clock == now
    {
      hide Run, Current;
      ghost var w := State();
      RunNothing(w);
      var known := refs[t].known;
      clock, refs := now, refs[t := Locking(known)];
      Takes(w, [], Step.Resolve(t, now), State());
      trace := [] + [Step.Resolve(t, now)];
      lock, refs := Some(t), refs[t := Holding(known)];
      Takes(w, trace, LockRecord(t), State());
      trace := trace + [LockRecord(t)];
    }

    /** The record says which file to ask the service about: true when it is active right away. */
    method ConfirmRecord(t: Thread, now: real, expireAt: real) returns (done: bool, ghost trace: seq<Step>)
      requires t in refs && refs[t].Holding? && lock == Some(t) && now >= clock
      modifies this`refs, this`lock, this`clock
      ensures Run(old(State()), trace) == State() && t in refs && refs.Keys == old(refs.Keys)
      ensures forall u :: u in refs && u != t ==> refs[u] == old(refs[u])
      ensures done ==> refs[t].Open? && refs[t].known.Some? && lock.None?
      ensures !done ==> (refs[t].Uploading? || refs[t].Waiting?) && refs[t].known == old(refs[t].known) && lock == Some(t) && clock == now
    {
      hide Run;
      ghost var w := State();
      RunNothing(w);
      var known := refs[t].known;
      done, trace, clock := false, [] + [ReadRecord(t, now)], now;
      if record.Saved? && record.rec.expireAt > now + MARGIN {
        var id := record.rec.id;
        refs := refs[t := Checking(known, id)];
        Takes(w, [], ReadRecord(t, now), State());
        if id in files {
          var rec := Rec(id, files[id], expireAt);
          ghost var before := State();
          if rec.status == Active {
            refs, lock, done := refs[t := Open(Some(rec))], None, true;
          } else {
            refs := refs[t := Waiting(known, rec)];
          }
          Takes(w, trace, StatusIs(t, expireAt), State());
          trace := trace + [StatusIs(t, expireAt)];
        } else {
          refs := refs[t := Uploading(known)];
          Takes(w, trace, StatusMissing(t), State());
          trace := trace + [StatusMissing(t)];
        }
      } else {
        refs := refs[t := Uploading(known)];
        Takes(w, [], ReadRecord(t, now), State());
      }
    }

    /** The upload and its record, still under the lock. */
    method UploadFile(t: Thread, newFile: Rec) returns (ghost trace: seq<Step>)
      requires t in refs && refs[t].Uploading? && lock == Some(t)
      requires newFile.id !in files && newFile.id !in removed && Fresh(State(), newFile.id)
      modifies this`refs, this`files, this`record
      ensures Run(old(State()), trace) == State()
      ensures refs == old(refs)[t := Waiting(old(refs[t].known), newFile)] && newFile.id in files
    {
      hide Run, Fresh;
      ghost var w := State();
      RunNothing(w);
      var known := refs[t].known;
      files, refs := files[newFile.id := newFile.status], refs[t := Uploaded(known, newFile)];
      ghost var upload := Upload(t, newFile.id, newFile.status, newFile.expireAt);
      Takes(w, [], upload, State());
      trace := [] + [upload];
      record, refs := Saved(newFile), refs[t := Waiting(known, newFile)];
      Takes(w, trace, SaveUpload(t), State());
      trace := trace + [SaveUpload(t)];
    }

    /** The processing loop and the last expiry check; None is any of its errors. */
    method AwaitActive(t: Thread, now: real, polls: seq<Status>) returns (id: Option<Id>, ghost trace: seq<Step>)
      requires t in refs && refs[t].Waiting? && lock == Some(t) && now >= clock
      modifies this`refs, this`lock, this`record, this`files, this`clock
      ensures Run(old(State()), trace) == State() && t in refs && refs[t].Open? && lock.None?
      ensures id.Some? ==> refs[t].known.Some? && refs[t].known.value.id == id.value
      ensures id.None? ==> refs[t] == Open(old(refs[t].known))
    {
      hide Run, Do, Enabled;
      ghost var w := State();
      RunNothing(w);
      trace := [];
      var k := 0;
      while refs[t].rec.status == Processing && refs[t].rec.id in files && k < |polls|
        invariant t in refs && refs[t].Waiting? && refs[t].known == old(refs[t].known) && lock == Some(t) && now >= clock
        invariant Run(w, trace) == State()
        decreases |polls| - k
      {
        ghost var more := PollOnce(t, polls[k]);
        RunSplit(w, trace, more);
        trace := trace + more;
        k := k + 1;
      }
      ghost var more;
      id, more := Conclude(t, now);
      RunSplit(w, trace, more);
      trace := trace + more;
    }

    /** The service may have moved on; one status query. */
    method PollOnce(t: Thread, status: Status) returns (ghost trace: seq<Step>)
      requires t in refs && refs[t].Waiting? && refs[t].rec.status == Processing && refs[t].rec.id in files
      modifies this`refs, this`files
      ensures Run(old(State()), trace) == State()
      ensures t in refs && refs[t].Waiting? && refs[t].known == old(refs[t].known)
    {
      hide Run, Fresh;
      ghost var w := State();
      RunNothing(w);
      var rec := refs[t].rec;
      trace := [];
      if files[rec.id] == Processing {
        files := files[rec.id := status];
        Takes(w, trace, Processed(rec.id, status), State());
        trace := trace + [Processed(rec.id, status)];
      }
      refs := refs[t := Waiting(refs[t].known, Rec(rec.id, files[rec.id], rec.expireAt))];
      Takes(w, trace, Poll(t, rec.expireAt), State());
      trace := trace + [Poll(t, rec.expireAt)];
    }

    /** Active and usable long enough: saved and returned; otherwise an error, and the lock is free again. */
    method Conclude(t: Thread, now: real) returns (id: Option<Id>, ghost trace: seq<Step>)
      requires t in refs && refs[t].Waiting? && lock == Some(t) && now >= clock
      modifies this`refs, this`lock, this`record, this`clock
      ensures Run(old(State()), trace) == State() && t in refs && refs[t].Open? && lock.None?
      ensures id.Some? ==> refs[t].known.Some? && refs[t].known.value.id == id.value
      ensures id.None? ==> refs[t] == Open(old(refs[t].known))
    {
      hide Run, Fresh;
      ghost var w := State();
      var known, rec := refs[t].known, refs[t].rec;
      lock, id := None, None;
      if rec.status == Active && rec.expireAt > now + MARGIN {
        RunFrom(w, Finish(t, now));
        trace := [] + [Finish(t, now)];
        refs, record, clock, id := refs[t := Open(Some(rec))], Saved(rec), now, Some(rec.id);
      } else {
        RunFrom(w, Fails(t));
        trace := [] + [Fails(t)];
        refs := refs[t := Open(known)];
      }
    }

    /** `close`: the shared lock is dropped. */
    method Close(t: Thread) returns (ghost trace: seq<Step>)
      requires t in refs && refs[t].Open? && lock != Some(t)
      modifies this`refs
      ensures Run(old(State()), trace) == State() && refs == old(refs) - {t}
    {
      trace := [] + [Step.Close(t)];
      RunFrom(State(), Step.Close(t));
      refs := refs - {t};
    }

    /** `delete_unused`: nothing at all while a reference is open; `answered` is whether the service's answer arrives. */
    method DeleteUnused(d: Thread, answered: bool) returns (deleted: bool, ghost trace: seq<Step>)
      requires d !in refs && d !in cleanups && d !in flying && lock.None? && (owner.None? ==> cleanups == map[])
      modifies this`owner, this`cleanups, this`lock, this`record, this`files, this`flying, this`removed, this`abandoned
      ensures Run(old(State()), trace) == State() && owner == old(owner) && cleanups == old(cleanups) && lock.None?
      ensures deleted <==> answered && refs == map[] && old(owner).None? && old(record).Saved?
      ensures deleted ==> record == Deleted(old(record).rec.id) && files == old(files) - {old(record).rec.id}
                          && removed == old(removed) + {old(record).rec.id} && flying == old(flying)
      ensures !deleted ==> record == old(record) && files == old(files) && removed == old(removed)
      ensures !deleted && refs == map[] && old(owner).None? && old(record).Saved? ==>
        flying == old(flying)[d := old(record).rec.id] && abandoned == old(abandoned) + {old(record).rec.id}
    {
      hide Run, Do, Enabled;
      ghost var w := State();
      RunNothing(w);
      deleted, trace := false, [];
      if owner.Some? || refs != map[] { return; }
      trace := LockAll(d);
      ghost var more;
      if !record.Saved? { more := LeaveUntouched(d); } else { deleted, more := SendDelete(d, record.rec.id, answered); }
      RunSplit(w, trace, more);
      trace := trace + more;
    }

    /** The exclusive lease, then the record lock. */
    method LockAll(d: Thread) returns (ghost trace: seq<Step>)
      requires d !in flying && owner.None? && refs == map[] && lock.None? && cleanups == map[]
      modifies this`owner, this`cleanups, this`lock
      ensures Run(old(State()), trace) == State()
      ensures owner == Some(d) && lock == Some(d) && cleanups == map[d := Reading]
    {
      hide Run, Fresh;
      ghost var w := State();
      RunNothing(w);
      owner, cleanups := Some(d), cleanups[d := Leased];
      Takes(w, [], LeaseAll(d), State());
      trace := [] + [LeaseAll(d)];
      lock, cleanups := Some(d), cleanups[d := Reading];
      Takes(w, trace, LockForCleanup(d), State());
      trace := trace + [LockForCleanup(d)];
    }

    method LeaveUntouched(d: Thread) returns (ghost trace: seq<Step>)
      requires cleanups == map[d := Reading] && owner == Some(d) && lock == Some(d) && d !in flying && !record.Saved?
      modifies this`owner, this`cleanups, this`lock
      ensures Run(old(State()), trace) == State() && owner.None? && lock.None? && cleanups == map[]
    {
      hide Run, Fresh;
      trace := [] + [Nothing(d)];
      RunFrom(State(), Nothing(d));
      assert cleanups - {d} == map[];
      owner, lock, cleanups := None, None, map[];
    }

    method SendDelete(d: Thread, id: Id, answered: bool) returns (deleted: bool, ghost trace: seq<Step>)
      requires cleanups.Keys == {d} && cleanups[d].Reading? && owner == Some(d) && lock == Some(d) && d !in flying
      requires record.Saved? && record.rec.id == id
      modifies this`owner, this`cleanups, this`lock, this`record, this`files, this`flying, this`removed, this`abandoned
      ensures Run(old(State()), trace) == State() && owner.None? && cleanups == map[] && lock.None? && deleted == answered
      ensures deleted ==> record == Deleted(id) && files == old(files) - {id} && removed == old(removed) + {id}
                          && flying == old(flying) && abandoned == old(abandoned)
      ensures !deleted ==> record == old(record) && files == old(files) && removed == old(removed)
                           && flying == old(flying)[d := id] && abandoned == old(abandoned) + {id}
    {
      hide Run, Do, Enabled;
      ghost var w := State();
      trace := SendRequest(d, id);
      deleted := answered;
      ghost var more;
      if answered { more := Confirm(d, id); } else { more := GiveUp(d, id); }
      RunSplit(w, trace, more);
      trace := trace + more;
    }

    method SendRequest(d: Thread, id: Id) returns (ghost trace: seq<Step>)
      requires d in cleanups && cleanups[d].Reading? && record.Saved? && record.rec.id == id
      modifies this`flying, this`cleanups
      ensures Run(old(State()), trace) == State()
      ensures flying == old(flying)[d := id] && cleanups == old(cleanups)[d := Requested(id)]
    {
      hide Run, Fresh;
      trace := [] + [Request(d)];
      RunFrom(State(), Request(d));
      flying, cleanups := flying[d := id], cleanups[d := Requested(id)];
    }

    /** No answer: the lease ends, the request may still arrive. */
    method GiveUp(d: Thread, id: Id) returns (ghost trace: seq<Step>)
      requires cleanups == map[d := Requested(id)] && owner == Some(d) && lock == Some(d) && d in flying && flying[d] == id
      modifies this`owner, this`lock, this`cleanups, this`abandoned
      ensures Run(old(State()), trace) == State()
      ensures owner.None? && lock.None? && cleanups == map[] && abandoned == old(abandoned) + {id}
    {
      hide Run, Fresh;
      trace := [] + [Abandon(d)];
      RunFrom(State(), Abandon(d));
      assert cleanups - {d} == map[];
      owner, lock, cleanups, abandoned := None, None, map[], abandoned + {id};
    }

    method Confirm(d: Thread, id: Id) returns (ghost trace: seq<Step>)
      requires cleanups == map[d := Requested(id)] && owner == Some(d) && lock == Some(d) && d in flying && flying[d] == id
      modifies this`owner, this`cleanups, this`lock, this`record, this`files, this`flying, this`removed
      ensures Run(old(State()), trace) == State()
      ensures owner.None? && lock.None? && cleanups == map[] && record == Deleted(id)
      ensures files == old(files) - {id} && removed == old(removed) + {id} && flying == old(flying) - {d}
    {
      hide Run, Do, Enabled;
      ghost var w := State();
      trace := ApplyDelete(d, id);
      ghost var more := Acknowledge(d, id);
      RunSplit(w, trace, more);
      trace := trace + more;
      more := SaveMark(d, id);
      RunSplit(w, trace, more);
      trace := trace + more;
    }

    method ApplyDelete(d: Thread, id: Id) returns (ghost trace: seq<Step>)
      requires d in flying && flying[d] == id
      modifies this`files, this`flying, this`removed
      ensures Run(old(State()), trace) == State()
      ensures files == old(files) - {id} && removed == old(removed) + {id} && flying == old(flying) - {d}
    {
      hide Run, Fresh;
      trace := [] + [Applies(d)];
      RunFrom(State(), Applies(d));
      files, removed, flying := files - {id}, removed + {id}, flying - {d};
    }

    method Acknowledge(d: Thread, id: Id) returns (ghost trace: seq<Step>)
      requires cleanups == map[d := Requested(id)] && d !in flying
      modifies this`cleanups
      ensures Run(old(State()), trace) == State() && cleanups == map[d := Confirmed(id)]
    {
      hide Run, Fresh;
      trace := [] + [Confirms(d)];
      RunFrom(State(), Confirms(d));
      cleanups := cleanups[d := Confirmed(id)];
    }

    method SaveMark(d: Thread, id: Id) returns (ghost trace: seq<Step>)
      requires cleanups == map[d := Confirmed(id)] && owner == Some(d) && lock == Some(d) && d !in flying
      modifies this`owner, this`cleanups, this`lock, this`record
      ensures Run(old(State()), trace) == State()
      ensures owner.None? && lock.None? && cleanups == map[] && record == Deleted(id)
    {
      hide Run, Fresh;
      trace := [] + [SaveDeleted(d)];
      RunFrom(State(), SaveDeleted(d));
      assert cleanups - {d} == map[];
      owner, lock, cleanups, record := None, None, map[], Deleted(id);
    }
  }

  /** What freshness of an identifier depends on. */
  lemma StaysFresh(w: World, w': World, id: Id)
    requires Fresh(w, id) && w'.record == w.record && w'.flying == w.flying && w'.abandoned == w.abandoned
    requires w'.refs.Keys == w.refs.Keys && forall t :: t in w.refs ==> w'.refs[t].known == w.refs[t].known
    ensures Fresh(w', id)
  {
  }

  lemma RunNothing(w: World)
    ensures Run(w, []) == w
  {
  }

  lemma RunFrom(w: World, step: Step)
    ensures Enabled(w, step) ==> Run(w, [] + [step]) == Do(w, step)
  {
    hide Enabled, Do;
    RunSnoc(w, [], step);
  }

  /** The next step of a trace, given the state it leads to. */
  lemma Takes(first: World, trace: seq<Step>, step: Step, after: World)
    requires Enabled(Run(first, trace), step) && after == Do(Run(first, trace), step)
    ensures Run(first, trace + [step]) == after
  {
    hide Enabled, Do;
    RunSnoc(first, trace, step);
  }

  lemma {:induction false} RunSplit(first: World, a: seq<Step>, b: seq<Step>)
    ensures Run(first, a + b) == Run(Run(first, a), b)
    decreases |b|
  {
    hide Enabled, Do;
    if b == [] {
      assert a + b == a;
    } else {
      assert (a + b)[..|a + b| - 1] == a + b[..|b| - 1];
      RunSplit(first, a, b[..|b| - 1]);
    }
  }
}
