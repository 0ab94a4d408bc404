/** The outbox's promises to its callers, stated over every run from an initial database. */
module SpoolGuarantees {
  import opened SpoolModel
  import opened SpoolIndex
  import opened SpoolLedger
  import opened SpoolRuns
  import opened SpoolSafety
  import opened SpoolSteps
  import opened SpoolTheorems

  lemma ReachedIsGood(w: World, steps: seq<Step>)
    requires Initial(w)
    ensures Good(Run(w, steps))
  {
    InitialIsGood(w);
    RunIsGood(w, steps);
  }

  /** Durability: a row whose `enqueue_many` returned is still in the outbox or already in the cloud,
      and as a final record it is remembered with its digest, after any crashes and restarts. */
  lemma AcknowledgedNeverLost(w: World, steps: seq<Step>, r: Row)
    requires Initial(w) && r in Run(w, steps).acked
    ensures
      var now := Run(w, steps);
      && (r in now.cloud || (r.path in now.db.jobs && now.db.jobs[r.path].payload == r.payload))
      && (now.kind == FinalRecord ==>
            r.path in now.db.accepted && now.db.accepted[r.path].identity.digest == Sha256(r.payload))
  {
    ReachedIsGood(w, steps);
    hide ProcOk, DurableOk, Run;
    assert Secured(Run(w, steps).kind, Run(w, steps).db, Run(w, steps).cloud, r);
  }

  /** The publication ledger is exact at every moment, and publication is never claimed early. */
  lemma LedgerIsExact(w: World, steps: seq<Step>)
    requires Initial(w)
    ensures
      var now := Run(w, steps);
      && now.db.published.Keys == now.db.accepted.Keys - now.db.jobs.Keys
      && forall p :: p in now.db.published ==> Row(p, now.db.accepted[p].identity.digest.payload) in now.cloud
  {
    ReachedIsGood(w, steps);
    hide ProcOk, Honest, Run, RowsOk;
    var now := Run(w, steps);
    forall p | p in now.db.published ensures Row(p, now.db.accepted[p].identity.digest.payload) in now.cloud {
      assert AcceptedOk(now.db, now.cloud, p);
    }
  }

  /* ---------- the ledger only grows ---------- */

  ghost predicate GrowsTo(before: Durable, after: Durable)
  {
    && (forall p :: p in before.accepted ==> p in after.accepted && after.accepted[p] == before.accepted[p])
    && (forall p :: p in before.published ==> p in after.published && after.published[p] == before.published[p])
  }

  lemma CommitGrows(kind: Kind, db: Durable, batch: seq<Ticket>, acks: seq<Ack>, now: real)
    requires CommitBatch(kind, db, batch, acks, now).Some?
    ensures GrowsTo(db, CommitBatch(kind, db, batch, acks, now).value)
  {
    hide CommitBatch, Completed;
    CommitAt(kind, db, batch, acks, now);
  }

  lemma {:induction false} DirectGrows(kind: Kind, cfg: Config, db: Durable, m: Memory, batch: seq<Row>, created: real)
    requires CommitDirect(kind, cfg, db, m, batch, created).Some?
    ensures GrowsTo(db, CommitDirect(kind, cfg, db, m, batch, created).value.0)
    decreases |batch|
  {
    hide CommitBatch, AddJob, Remember;
    if batch != [] {
      var front, r := batch[..|batch| - 1], batch[|batch| - 1];
      DirectGrows(kind, cfg, db, m, front, created);
      CommitGrows(kind, CommitDirect(kind, cfg, db, m, front, created).value.0, [TicketOf(r, created)], [], created);
    }
  }

  lemma StepGrows(w: World, step: Step)
    requires Good(w) && Enabled(w, step)
    ensures GrowsTo(w.db, Do(w, step).db)
  {
    hide ProcOk, DurableOk, Honest, CommitBatch, CommitDirect, Migrate, Secured, GrowsTo;
    match step
    case Start(cfg, order, now) =>
      MigrateKeeps(w.kind, w.db, w.cloud, now);
      MigrationGrows(w.db, Migrate(w.kind, w.db, now).value);
    case Commit(now) =>
      var p := w.proc.value;
      CommitGrows(w.kind, w.db, p.mem.queue[..p.phase.n], p.mem.acks[..p.phase.k], now);
    case Settle(worker, now) =>
      CommitGrows(w.kind, w.db, [], [OutcomeOf(worker, w.proc.value.workers[worker])], now);
    case EnqueueDirect(rows, created, count) =>
      var p := w.proc.value;
      DirectGrows(w.kind, p.cfg, w.db, p.mem, FreshRows(p.mem, rows)[..count], created);
    case _ => MigrationGrows(w.db, w.db);
  }

  lemma MigrationGrows(before: Durable, after: Durable)
    requires forall p :: p in before.accepted ==> p in after.accepted && after.accepted[p] == before.accepted[p]
    requires forall p :: p in before.published ==> p in after.published && after.published[p] == before.published[p]
    ensures GrowsTo(before, after)
  {
  }

  lemma {:induction false} RunGrows(w: World, steps: seq<Step>, more: seq<Step>)
    requires Initial(w)
    ensures GrowsTo(Run(w, steps).db, Run(w, steps + more).db)
    decreases |more|
  {
    hide Enabled, Do, Initial, Good;
    if more == [] {
      assert steps + more == steps;
    } else {
      var front := more[..|more| - 1];
      RunGrows(w, steps, front);
      assert (steps + more)[..|steps + more| - 1] == steps + front;
      ReachedIsGood(w, steps + front);
      var before := Run(w, steps + front);
      if Enabled(before, more[|more| - 1]) { StepGrows(before, more[|more| - 1]); }
    }
  }

  /** An accepted digest never changes, and a published path never returns to the outbox. */
  lemma PublishedForEver(w: World, steps: seq<Step>, more: seq<Step>, p: Path)
    requires Initial(w)
    ensures
      var before, after := Run(w, steps).db, Run(w, steps + more).db;
      && (p in before.accepted ==> p in after.accepted && after.accepted[p] == before.accepted[p])
      && (p in before.published ==> p in after.published && p !in after.jobs)
  {
    hide Run, Initial;
    RunGrows(w, steps, more);
    LedgerIsExact(w, steps + more);
    assert p in Run(w, steps + more).db.published ==> p in Run(w, steps + more).db.accepted.Keys - Run(w, steps + more).db.jobs.Keys;
  }

  /* ---------- volatile state ---------- */

  /** Step `n` started the process that still runs at the end, with the room of its limits or, if that is more, of
      the backlog it found. */
  ghost predicate StartedAt(w: World, steps: seq<Step>, n: nat)
    requires n < |steps| && Run(w, steps).proc.Some?
  {
    var p, begun := Run(w, steps).proc.value, Run(w, steps[..n + 1]);
    && steps[n].Start? && (forall m :: n < m <= |steps| ==> Run(w, steps[..m]).proc.Some?)
    && p.room == Larger(p.cfg.maxFiles, |begun.db.jobs|) && p.roomBytes == Larger(p.cfg.maxBytes, Total(Sizes(begun.db.jobs)))
  }

  lemma StepKeepsRoom(w: World, step: Step)
    requires Enabled(w, step) && w.proc.Some? && Do(w, step).proc.Some?
    ensures
      var p, q := w.proc.value, Do(w, step).proc.value;
      q.cfg == p.cfg && q.room == p.room && q.roomBytes == p.roomBytes
  {
    hide Claims, CommitDirect, Total, Admit, ApplyAcks, PublishTickets, SpoolModel.CommitBatch, MarkFrom, Migrate, LoadOrder;
  }

  lemma {:induction false} RunHasStarted(w: World, steps: seq<Step>) returns (n: nat)
    requires w.proc.None? && Run(w, steps).proc.Some?
    ensures n < |steps| && StartedAt(w, steps, n)
    decreases |steps|
  {
    hide Enabled, Do, Total;
    var last := |steps| - 1;
    var front, step := steps[..last], steps[last];
    var before := Run(w, front);
    assert steps[..last + 1] == steps;
    if before.proc.None? {
      n := last;
      StartsWithRoom(before, step);
    } else {
      n := RunHasStarted(w, front);
      assert forall m :: 0 <= m <= last ==> steps[..m] == front[..m];
      if Enabled(before, step) { StepKeepsRoom(before, step); }
    }
  }

  lemma StartsWithRoom(w: World, step: Step)
    requires w.proc.None? && Enabled(w, step) && Do(w, step).proc.Some?
    ensures step.Start?
    ensures
      var p, db := Do(w, step).proc.value, Do(w, step).db;
      p.room == Larger(p.cfg.maxFiles, |db.jobs|) && p.roomBytes == Larger(p.cfg.maxBytes, Total(Sizes(db.jobs)))
  {
    hide Total, Load, Migrate, LoadOrder;
  }

  /** Whenever the mutex is free the indexes are exact, no row is with two workers, and the backlog with the queue is
      at most the limit or, if that is more, the backlog found when the process started, at step `n`. */
  lemma IndexesAreExact(w: World, steps: seq<Step>) returns (n: nat)
    requires Initial(w) && Run(w, steps).proc.Some?
    ensures n < |steps| && StartedAt(w, steps, n)
    ensures
      var p, found := Run(w, steps).proc.value, Run(w, steps[..n + 1]).db.jobs;
      && Indexed(p.cfg, p.mem)
      && p.mem.pending + |p.mem.queue| <= Larger(p.cfg.maxFiles, |found|)
      && p.mem.pendingBytes + p.mem.queuedBytes <= Larger(p.cfg.maxBytes, Total(Sizes(found)))
      && (forall v :: v in p.workers ==> OneBatch(p.cfg, p.workers[v].claimed))
      && (forall u, v :: u in p.workers && v in p.workers && u != v ==>
            ClaimPaths(p.workers[u].claimed) !! ClaimPaths(p.workers[v].claimed))
  {
    ReachedIsGood(w, steps);
    hide Run, DurableOk, Honest, Indexed, Mirrored, QueueOk, AcksOk, TicketsKept, CallersOk, OneBatch, ClaimPaths, Total;
    n := RunHasStarted(w, steps);
  }

  /** In every reachable state the group commit meets no existing primary key. */
  lemma NoCommitCollides(w: World, steps: seq<Step>, now: real)
    requires Initial(w) && Run(w, steps).proc.Some? && Run(w, steps).proc.value.phase.Selected?
    ensures
      var s := Run(w, steps);
      var p := s.proc.value;
      && p.phase.n <= |p.mem.queue| && p.phase.k <= |p.mem.acks|
      && (CommitBatch(s.kind, s.db, p.mem.queue[..p.phase.n], p.mem.acks[..p.phase.k], now).Some? <==>
          (s.kind == FinalRecord ==> forall t :: t in p.mem.queue[..p.phase.n] ==> t.payload.uid.Some?))
  {
    hide Initial, Run, CommitBatch, Good;
    ReachedIsGood(w, steps);
    InsertsNeverCollide(Run(w, steps), now);
  }

  /** `flush_checkpoint` returns in such a state: no queued and no mirrored row below the unit. */
  predicate Flushed(m: Memory, unit: set<Path>)
  {
    (forall p :: p in m.jobs ==> p !in unit) && (forall t :: t in m.queue ==> t.path !in unit)
  }

  /** The read barrier: once flushed, every acknowledged row of the unit is in the cloud itself. */
  lemma FlushMeansCloud(w: World, steps: seq<Step>, unit: set<Path>, r: Row)
    requires Initial(w) && Run(w, steps).proc.Some? && Flushed(Run(w, steps).proc.value.mem, unit)
    requires r in Run(w, steps).acked && r.path in unit
    ensures r in Run(w, steps).cloud && r.path !in Run(w, steps).db.jobs
  {
    hide Initial, Run;
    AcknowledgedNeverLost(w, steps, r);
    ReachedIsGood(w, steps);
    var s := Run(w, steps);
    StoredIsMirrored(s.kind, s.db, s.cloud, s.proc.value);
  }

  /** A durable row is mirrored or still in the batch being published. */
  lemma StoredIsMirrored(kind: Kind, db: Durable, cloud: set<Row>, p: Process)
    requires ProcOk(kind, db, cloud, p)
    ensures forall q :: q in db.jobs ==> q in p.mem.jobs || q in TicketPaths(p.mem.queue)
  {
    hide Indexed, ThreadsOk, Completed, InsertIds, RoomOk, Direct;
    if p.phase.Committed? {
      var batch := p.mem.queue[..p.phase.n];
      PrefixDistinct(p.mem.queue, p.phase.n);
      InsertJobsAt(p.mem.jobs, batch);
      AfterAcksAt(InsertJobs(p.mem.jobs, batch), p.mem.acks[..p.phase.k]);
      assert forall t :: t in batch ==> t in p.mem.queue;
    }
  }

  /** `pending_input_uids`: the UIDs a resume scan must not run again. */
  function PendingUids(m: Memory, parent: string): set<string>
  {
    (if parent in m.uidsByParent then m.uidsByParent[parent] else {}) +
    set t | t in m.queue && t.path.parent == parent && t.payload.uid.Some? :: t.payload.uid.value
  }

  /** No acknowledged final record is ever forgotten by a resume, not even right after a restart. */
  lemma ResumeKnowsAcknowledged(w: World, steps: seq<Step>, r: Row)
    requires Initial(w) && w.kind == FinalRecord && Run(w, steps).proc.Some? && r in Run(w, steps).acked
    ensures r.payload.uid.Some? && r.payload.uid.value in PendingUids(Run(w, steps).proc.value.mem, r.path.parent)
  {
    hide Initial, Run;
    AcknowledgedNeverLost(w, steps, r);
    ReachedIsGood(w, steps);
    KindIsFixed(w, steps);
    var s := Run(w, steps);
    assert AcceptedOk(s.db, s.cloud, r.path);
    AcceptedIsKnown(s.kind, s.db, s.cloud, s.proc.value, r.path);
  }

  lemma {:induction false} KindIsFixed(w: World, steps: seq<Step>)
    ensures Run(w, steps).kind == w.kind
    decreases |steps|
  {
    if steps != [] { KindIsFixed(w, steps[..|steps| - 1]); }
  }

  lemma AcceptedIsKnown(kind: Kind, db: Durable, cloud: set<Row>, p: Process, q: Path)
    requires ProcOk(kind, db, cloud, p) && kind == FinalRecord && q in db.accepted && Faithful(q, db.accepted[q])
    ensures db.accepted[q].identity.uid in PendingUids(p.mem, q.parent)
  {
    hide Indexed, ThreadsOk, AfterAcks, InsertJobs, RoomOk, Direct;
    var uid := db.accepted[q].identity.uid;
    assert q in Identities(db.accepted) && Identities(db.accepted)[q].uid == uid;
    if q in p.mem.accepted && p.mem.accepted[q].uid == uid {
      assert q.parent in (set x | x in p.mem.accepted :: x.parent);
      assert uid in Uids(p.mem.accepted, q.parent);
    } else {
      assert p.phase.Committed?;
      var batch := p.mem.queue[..p.phase.n];
      PrefixDistinct(p.mem.queue, p.phase.n);
      InsertIdsAt(p.mem.accepted, batch);
      assert q in TicketPaths(batch);
      var t :| t in batch && t.path == q;
      assert t in p.mem.queue;
    }
  }

  /* ---------- the promises are not empty ---------- */

  lemma Extend(w: World, steps: seq<Step>, step: Step)
    requires Enabled(Run(w, steps), step)
    ensures Run(w, steps + [step]) == Do(Run(w, steps), step)
  {
    hide Enabled, Do;
    assert (steps + [step])[..|steps|] == steps;
  }

  /** One queued row, its ticket in the given state, and the producer waiting for it. */
  predicate Holding(p: Process, r: Row, queue: seq<Ticket>, state: TicketState)
  {
    && p.cfg.batched && p.cfg.localBatchSize > 0 && !p.stopping && !p.failure && p.mem.queue == queue && p.mem.acks == []
    && p.tickets == [TicketRecord(r, state)] && p.callers == map[0 := Caller([r], map[r.path := 0])]
  }

  function OneTicket(r: Row): seq<Ticket>
  {
    [Ticket(0, r.path, r.payload, |r.payload.bytes|, 0.0)]
  }

  lemma FirstRowIsAdmitted(cfg: Config, p: Process, r: Row)
    requires p.mem.jobs == map[] && p.mem.queue == [] && p.mem.accepted == map[] && p.mem.pending == 0 && p.mem.pendingBytes == 0
    requires p.mem.queuedBytes == 0 && p.tickets == [] && p.callers == map[] && p.mem.acks == [] && p.cfg == cfg
    requires cfg.batched && cfg.localBatchSize > 0 && cfg.maxFiles >= 1 && |r.payload.bytes| <= cfg.maxBytes
    requires !p.stopping && !p.failure
    ensures DistinctRows([r]) && Admissible(p.cfg, p.mem, [r])
    ensures Holding(Admission(p, 0, [r], 0.0), r, OneTicket(r), Waiting)
  {
    hide FreshRows, RowBytes, TicketIds, FindTicket, Judge;
    OneRow(p.mem, r);
    OneTicketFound(Admit(p.mem, [r], 0, 0.0), r);
  }

  lemma OneRow(m: Memory, r: Row)
    requires m.jobs == map[] && m.queue == [] && m.accepted == map[]
    ensures FreshRows(m, [r]) == [r] && Judge(m, r) != Conflict && RowBytes([r]) == |r.payload.bytes|
  {
    assert Judge(m, r) == Fresh;
    assert [r][1..] == [] && [r][..0] == [];
  }

  lemma OneTicketFound(m: Memory, r: Row)
    requires m.queue == OneTicket(r) && m.accepted == map[]
    ensures TicketIds(m, [r]) == map[r.path := 0]
  {
  }

  lemma FirstRowCommits(kind: Kind, r: Row)
    requires kind == FinalRecord ==> r.payload.uid.Some?
    ensures CommitBatch(kind, Durable(map[], map[], map[]), OneTicket(r), [], 0.0).Some?
  {
  }

  lemma FirstRowIsPublished(kind: Kind, p: Process, r: Row)
    requires Holding(p, r, OneTicket(r), Waiting) && p.phase == Committed(1, 0)
    ensures Holding(Publication(kind, p), r, [], Done)
  {
    hide AddJob, Remember;
    assert PublishTickets(kind, p.cfg, p.mem, 0) == p.mem;
    assert p.mem.queue[..1] == OneTicket(r);
    assert MarkFrom(p.tickets, p.mem.queue[..1], Done) == [TicketRecord(r, Done)];
  }

  /** From an empty database to an acknowledged row: start, queue, select, commit, publish, return. */
  lemma SomethingIsAcknowledged(w: World, cfg: Config, r: Row)
    requires Initial(w) && w.db == Durable(map[], map[], map[])
    requires cfg.batched && cfg.localBatchSize > 0 && cfg.maxFiles >= 1 && |r.payload.bytes| <= cfg.maxBytes
    requires w.kind == FinalRecord ==> r.payload.uid.Some?
    ensures r in Run(w, [Start(cfg, [], 0.0)] + [Enqueue(0, [r], 0.0)] + [Select] + [Commit(0.0)] + [Publish] + [Return(0)]).acked
  {
    hide Run, CommitBatch, Publication, Admission, Admissible, DistinctRows, Initial, Do;
    var s := [Start(cfg, [], 0.0)];
    FirstStart(w, cfg);
    FirstQueued(Run(w, s), cfg, r);
    Extend(w, s, Enqueue(0, [r], 0.0));
    s := s + [Enqueue(0, [r], 0.0)];
    FirstSelected(Run(w, s), r);
    Extend(w, s, Select);
    s := s + [Select];
    FirstCommitted(Run(w, s), r);
    Extend(w, s, Commit(0.0));
    s := s + [Commit(0.0)];
    FirstDone(Run(w, s), r);
    Extend(w, s, Publish);
    s := s + [Publish];
    FirstReturned(Run(w, s), r);
    Extend(w, s, Return(0));
  }

  ghost predicate Queued(w: World, r: Row, phase: Phase)
  {
    w.proc.Some? && Holding(w.proc.value, r, OneTicket(r), Waiting) && w.proc.value.phase == phase
  }

  ghost predicate Ready(w: World, cfg: Config)
  {
    && w.proc.Some? && var p := w.proc.value;
    && p.mem == EMPTY && p.tickets == [] && p.callers == map[] && p.cfg == cfg && !p.stopping && !p.failure && p.phase == Open
  }

  lemma FirstStart(w: World, cfg: Config)
    requires Initial(w) && w.db == Durable(map[], map[], map[]) && cfg.localBatchSize > 0
    ensures
      var one := Run(w, [Start(cfg, [], 0.0)]);
      Ready(one, cfg) && one.db == w.db && one.kind == w.kind
  {
    var start := Start(cfg, [], 0.0);
    assert [] + [start] == [start];
    assert Identities(map[]) == map[] && UidsByParent(map[]) == map[];
    assert Enabled(w, start);
    Extend(w, [], start);
  }

  lemma FirstQueued(w: World, cfg: Config, r: Row)
    requires Ready(w, cfg) && cfg.batched && cfg.localBatchSize > 0 && cfg.maxFiles >= 1 && |r.payload.bytes| <= cfg.maxBytes
    ensures Enabled(w, Enqueue(0, [r], 0.0))
    ensures var after := Do(w, Enqueue(0, [r], 0.0)); Queued(after, r, Open) && after.db == w.db && after.kind == w.kind
  {
    hide Admissible, DistinctRows, Holding, Run;
    FirstRowIsAdmitted(cfg, w.proc.value, r);
  }

  lemma FirstSelected(w: World, r: Row)
    requires Queued(w, r, Open)
    ensures Enabled(w, Select)
    ensures Queued(Do(w, Select), r, Selected(1, 0)) && Do(w, Select).db == w.db && Do(w, Select).kind == w.kind
  {
  }

  lemma FirstCommitted(w: World, r: Row)
    requires Queued(w, r, Selected(1, 0)) && w.db == Durable(map[], map[], map[])
    requires w.kind == FinalRecord ==> r.payload.uid.Some?
    ensures Enabled(w, Commit(0.0)) && Queued(Do(w, Commit(0.0)), r, Committed(1, 0))
  {
    hide CommitBatch;
    assert w.proc.value.mem.queue[..1] == OneTicket(r);
    FirstRowCommits(w.kind, r);
  }

  ghost predicate Answered(w: World, r: Row)
  {
    w.proc.Some? && Holding(w.proc.value, r, [], Done)
  }

  lemma FirstDone(w: World, r: Row)
    requires Queued(w, r, Committed(1, 0))
    ensures Enabled(w, Publish) && Answered(Do(w, Publish), r)
  {
    hide Publication;
    FirstRowIsPublished(w.kind, w.proc.value, r);
  }

  lemma FirstReturned(w: World, r: Row)
    requires Answered(w, r)
    ensures Enabled(w, Return(0)) && r in Do(w, Return(0)).acked
  {
  }
}
