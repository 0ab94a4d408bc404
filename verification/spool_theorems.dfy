/** What the outbox guarantees over every run with any number of crashes and restarts. */
module SpoolTheorems {
  import opened SpoolModel
  import opened SpoolIndex
  import opened SpoolLedger
  import opened SpoolRuns
  import opened SpoolSafety
  import opened SpoolSteps
  import opened SpoolPublish
  import opened SpoolWorkers

  /* ---------- recovery ---------- */

  lemma EmptyIsIndexed(cfg: Config)
    ensures Indexed(cfg, EMPTY)
  {
    assert Sizes(EMPTY.jobs) == map[];
  }

  /** The rebuilt mirror is exact whatever the order among equal creation times. */
  lemma {:induction false} LoadKeeps(cfg: Config, jobs: map<Path, Job>, order: seq<Path>)
    requires RowsOk(jobs) && NoDuplicates(order) && forall p :: p in order ==> p in jobs
    ensures
      var m := LoadJobs(cfg, jobs, order);
      && Indexed(cfg, m) && (forall p :: p in m.jobs <==> p in order) && (forall p :: p in m.jobs ==> m.jobs[p] == jobs[p])
      && m.inflight == {} && m.queue == [] && m.queuedBytes == 0 && m.acks == []
    decreases |order|
  {
    hide Indexed, Schedule;
    if order == [] {
      EmptyIsIndexed(cfg);
    } else {
      var front, p := LoadJobs(cfg, jobs, order[..|order| - 1]), order[|order| - 1];
      assert order == order[..|order| - 1] + [p];
      LoadKeeps(cfg, jobs, order[..|order| - 1]);
      AddJobKeeps(cfg, front, p, jobs[p]);
    }
  }

  lemma StartKeeps(w: World, cfg: Config, order: seq<Path>, now: real)
    requires Good(w) && Enabled(w, Start(cfg, order, now))
    ensures Good(Do(w, Start(cfg, order, now)))
  {
    hide DurableOk, Indexed, UidsByParent, Secured, LoadJobs, Identities, Migrate;
    MigrateKeeps(w.kind, w.db, w.cloud, now);
    var db := Migrate(w.kind, w.db, now).value;
    RowsAreOk(w.kind, w.db, w.cloud);
    LoadKeeps(cfg, db.jobs, order);
    var m := LoadJobs(cfg, db.jobs, order);
    SameJobs(m.jobs, db.jobs);
    IndexFrame(cfg, m, Load(cfg, db, order));
    CountsMatch(cfg, m);
    NoQueue(m.jobs, Identities(db.accepted), []);
    SameKeys(db.accepted);
  }

  lemma RowsAreOk(kind: Kind, db: Durable, cloud: set<Row>)
    requires DurableOk(kind, db, cloud)
    ensures RowsOk(db.jobs)
  {
  }

  lemma SameJobs(a: map<Path, Job>, b: map<Path, Job>)
    requires forall p :: p in a <==> p in b
    requires forall p :: p in a ==> a[p] == b[p]
    ensures a == b
  {
  }

  lemma CountsMatch(cfg: Config, m: Memory)
    requires Indexed(cfg, m)
    ensures m.pending == |m.jobs| && m.pendingBytes == Total(Sizes(m.jobs))
  {
  }

  lemma SameKeys(accepted: map<Path, Acceptance>)
    ensures Identities(accepted).Keys == accepted.Keys
  {
  }

  /* ---------- synchronous commits ---------- */

  ghost predicate DirectOk(kind: Kind, cfg: Config, db: Durable, cloud: set<Row>, m: Memory)
  {
    && DurableOk(kind, db, cloud) && Indexed(cfg, m) && m.uidsByParent == UidsByParent(m.accepted)
    && m.jobs == db.jobs && m.accepted == Identities(db.accepted)
    && (kind == FinalRecord ==> db.jobs.Keys <= db.accepted.Keys)
  }

  /** What a sequence of `_commit_single` calls adds, and everything it leaves alone. */
  ghost predicate DirectAdds(kind: Kind, db: Durable, m: Memory, batch: seq<Row>, cloud: set<Row>, db': Durable, m': Memory)
  {
    && Keeps(kind, db, cloud, db', cloud)
    && (forall r :: r in batch ==> Secured(kind, db', cloud, r))
    && (forall p :: p in m.jobs ==> p in m'.jobs && m'.jobs[p] == m.jobs[p])
    && m'.inflight == m.inflight && m'.queue == m.queue && m'.queuedBytes == m.queuedBytes && m'.acks == m.acks
    && m'.pending == m.pending + |batch| && m'.pendingBytes == m.pendingBytes + RowBytes(batch)
  }

  lemma {:induction false} RowBytesSnoc(rows: seq<Row>, r: Row)
    ensures RowBytes(rows + [r]) == RowBytes(rows) + |r.payload.bytes|
    decreases |rows|
  {
    if rows == [] {
      assert rows + [r] == [r];
    } else {
      assert (rows + [r])[1..] == rows[1..] + [r];
      RowBytesSnoc(rows[1..], r);
    }
  }

  lemma OneCommit(kind: Kind, cfg: Config, db: Durable, cloud: set<Row>, m: Memory, r: Row, created: real)
    requires DirectOk(kind, cfg, db, cloud, m)
    requires CommitBatch(kind, db, [TicketOf(r, created)], [], created).Some?
    ensures
      var db' := CommitBatch(kind, db, [TicketOf(r, created)], [], created).value;
      var m' := AddJob(cfg, Remember(kind, m, r.path, r.payload), r.path, JobOf(TicketOf(r, created)));
      DirectOk(kind, cfg, db', cloud, m') && DirectAdds(kind, db, m, [r], cloud, db', m')
  {
    hide DurableOk, Indexed, UidsByParent, Secured, AddJob, Remember, Backed, NewlyPublished;
    var t := TicketOf(r, created);
    assert [t][..0] == [] && [t][0] == t && t in [t];
    NothingCompleted();
    NoOutcomes(db.jobs, cloud);
    CheckpointsHaveNoLedger(kind, db, cloud);
    CommitKeepsLedger(kind, db, cloud, [t], [], created);
    CommitSecures(kind, db, cloud, [t], [], created);
    assert r.path !in m.accepted;
    PublishOne(kind, cfg, m, r.path, r.payload, JobOf(t));
    OneRowBytes(r);
    OneInsert(kind, db, t);
  }

  lemma NoOutcomes(jobs: map<Path, Job>, cloud: set<Row>)
    ensures Backed(jobs, [], cloud)
  {
  }

  lemma OneRowBytes(r: Row)
    ensures RowBytes([r]) == |r.payload.bytes|
  {
    assert [r][1..] == [];
  }

  lemma OneInsert(kind: Kind, db: Durable, t: Ticket)
    requires kind == FinalRecord ==> t.payload.uid.Some?
    ensures AfterAcks(InsertJobs(db.jobs, [t]), []) == db.jobs[t.path := JobOf(t)]
    ensures kind == FinalRecord ==>
      Identities(InsertAccepted(db.accepted, [t])) == Identities(db.accepted)[t.path := IdentityOf(t.path, t.payload)]
  {
    assert [t][..0] == [];
    assert InsertJobs(db.jobs, [t]) == InsertJobs(db.jobs, [])[t.path := JobOf(t)];
    if kind == FinalRecord {
      assert InsertAccepted(db.accepted, [t]) ==
             InsertAccepted(db.accepted, [])[t.path := Acceptance(IdentityOf(t.path, t.payload), t.created)];
    }
  }

  lemma AddsCompose(kind: Kind, cloud: set<Row>, db: Durable, m: Memory, front: seq<Row>, db1: Durable, m1: Memory,
                    r: Row, db2: Durable, m2: Memory)
    requires DirectAdds(kind, db, m, front, cloud, db1, m1) && DirectAdds(kind, db1, m1, [r], cloud, db2, m2)
    ensures DirectAdds(kind, db, m, front + [r], cloud, db2, m2)
  {
    hide Secured;
    assert r in [r];
    RowBytesSnoc(front, r);
    OneRowBytes(r);
  }

  lemma {:induction false} DirectKeeps(kind: Kind, cfg: Config, db: Durable, cloud: set<Row>, m: Memory, batch: seq<Row>, created: real)
    requires DirectOk(kind, cfg, db, cloud, m)
    requires CommitDirect(kind, cfg, db, m, batch, created).Some?
    ensures
      var after := CommitDirect(kind, cfg, db, m, batch, created).value;
      DirectOk(kind, cfg, after.0, cloud, after.1) && DirectAdds(kind, db, m, batch, cloud, after.0, after.1)
    decreases |batch|
  {
    hide DirectOk, CommitBatch, AddJob, Remember, Secured, DirectAdds;
    if batch != [] {
      var front, r := batch[..|batch| - 1], batch[|batch| - 1];
      assert batch == front + [r];
      DirectKeeps(kind, cfg, db, cloud, m, front, created);
      var mid := CommitDirect(kind, cfg, db, m, front, created).value;
      OneCommit(kind, cfg, mid.0, cloud, mid.1, r, created);
      var after := CommitDirect(kind, cfg, db, m, batch, created).value;
      AddsCompose(kind, cloud, db, m, front, mid.0, mid.1, r, after.0, after.1);
    } else {
      AddsNothing(kind, cloud, db, m);
    }
  }

  lemma AddsNothing(kind: Kind, cloud: set<Row>, db: Durable, m: Memory)
    ensures DirectAdds(kind, db, m, [], cloud, db, m)
  {
  }

  lemma {:induction false} RowBytesPrefix(rows: seq<Row>, n: nat)
    requires n <= |rows|
    ensures RowBytes(rows[..n]) <= RowBytes(rows)
    decreases |rows| - n
  {
    if n < |rows| {
      assert rows[..n + 1] == rows[..n] + [rows[n]];
      RowBytesSnoc(rows[..n], rows[n]);
      RowBytesPrefix(rows, n + 1);
    } else {
      assert rows[..n] == rows;
    }
  }

  /** Once every new row is committed, the whole call is secured. */
  lemma WholeCallSecured(kind: Kind, cfg: Config, db: Durable, cloud: set<Row>, p: Process, rows: seq<Row>, db': Durable, r: Row)
    requires DurableOk(kind, db, cloud) && ProcOk(kind, db, cloud, p) && p.mem.queue == []
    requires r in rows && Judge(p.mem, r) != Conflict && Keeps(kind, db, cloud, db', cloud)
    requires forall s :: s in FreshRows(p.mem, rows) ==> Secured(kind, db', cloud, s)
    ensures Secured(kind, db', cloud, r)
  {
    hide Secured, DurableOk, ProcOk;
    if Judge(p.mem, r) == Fresh {
      assert r in FreshRows(p.mem, rows);
    } else {
      assert FindTicket(p.mem.queue, r.path).None?;
      MirroredIsSecured(kind, db, cloud, p, r);
    }
  }

  lemma DirectWorkers(m: Memory, m': Memory, workers: map<nat, Stage>, cloud: set<Row>)
    requires WorkersOk(m.jobs, m.inflight, workers, cloud) && m'.inflight == m.inflight
    requires forall p :: p in m.jobs ==> p in m'.jobs && m'.jobs[p] == m.jobs[p]
    ensures WorkersOk(m'.jobs, m'.inflight, workers, cloud)
  {
    hide ClaimPaths, Describes;
    forall v | v in workers ensures HeldBy(m'.jobs, m'.inflight, workers[v].claimed) {
      assert HeldBy(m.jobs, m.inflight, workers[v].claimed);
      DescribesFrame(workers[v].claimed, m.jobs, m'.jobs);
    }
  }

  lemma EnqueueDirectKeeps(w: World, rows: seq<Row>, created: real, count: nat)
    requires Good(w) && Enabled(w, EnqueueDirect(rows, created, count))
    ensures Good(Do(w, EnqueueDirect(rows, created, count)))
  {
    hide DurableOk, Indexed, UidsByParent, Secured, WorkersOk, AcksOk, TicketsKept, CallersOk, CommitDirect, FreshRows, Judge,
         Identities, BatchesOk, QueueOk;
    var p := w.proc.value;
    var batch := FreshRows(p.mem, rows);
    var after := CommitDirect(w.kind, p.cfg, w.db, p.mem, batch[..count], created).value;
    DirectKeeps(w.kind, p.cfg, w.db, w.cloud, p.mem, batch[..count], created);
    RowBytesPrefix(batch, count);
    PromisesSurvive(w.kind, w.db, w.cloud, after.0, w.cloud, w.acked, p);
    DirectWorkers(p.mem, after.1, p.workers, w.cloud);
    NoTickets(p.mem.jobs, p.mem.accepted, p.mem.queuedBytes, p.tickets);
    NoQueue(after.1.jobs, after.1.accepted, p.tickets);
    SameKeys(after.0.accepted);
    if count == |batch| {
      assert batch[..count] == batch;
      forall r | r in rows ensures Secured(w.kind, after.0, w.cloud, r) {
        WholeCallSecured(w.kind, p.cfg, w.db, w.cloud, p, rows, after.0, r);
      }
    }
  }

  /* ---------- every run ---------- */

  lemma StepKeeps(w: World, step: Step)
    requires Good(w) && Enabled(w, step)
    ensures Good(Do(w, step))
  {
    hide Indexed, Mirrored, QueueOk, UidsByParent, WorkersOk, AcksOk, TicketsKept, CallersOk, DurableOk, Honest, Do, EnabledIn,
         BatchesOk;
    match step
    case Start(cfg, order, now) => StartKeeps(w, cfg, order, now);
    case Crash => CrashKeeps(w);
    case Land(row) => LandKeeps(w, row);
    case Stop => StopKeeps(w);
    case Enqueue(caller, rows, created) => EnqueueKeeps(w, caller, rows, created);
    case EnqueueDirect(rows, created, count) => EnqueueDirectKeeps(w, rows, created, count);
    case Return(caller) => ReturnKeeps(w, caller);
    case Select => SelectKeeps(w);
    case Commit(now) => CommitKeeps(w, now);
    case CommitFails => CommitFailsKeeps(w);
    case Publish => PublishKeeps(w);
    case CloseOwner => CloseOwnerKeeps(w);
    case Take(worker, now, after, claimed) => TakeKeeps(w, worker, now, after, claimed);
    case Upload(worker, landed, failed, now) => UploadKeeps(w, worker, landed, failed, now);
    case Report(worker) => ReportKeeps(w, worker);
    case Settle(worker, now) => SettleKeeps(w, worker, now);
    case Die(worker) => DieKeeps(w, worker);
  }

  lemma CrashKeeps(w: World)
    requires Good(w) && Enabled(w, Crash)
    ensures Good(Do(w, Crash))
  {
    hide DurableOk, Honest, ProcOk;
  }

  lemma StopKeeps(w: World)
    requires Good(w) && Enabled(w, Stop)
    ensures Good(Do(w, Stop))
  {
    hide DurableOk, Honest, Indexed, Mirrored, QueueOk, UidsByParent, WorkersOk, AcksOk, TicketsKept, CallersOk, BatchesOk;
  }

  lemma CommitFailsKeeps(w: World)
    requires Good(w) && Enabled(w, CommitFails)
    ensures Good(Do(w, CommitFails))
  {
    hide DurableOk, Honest, Indexed, Mirrored, QueueOk, UidsByParent, WorkersOk, AcksOk, TicketsKept, CallersOk, CloseQueues,
         BatchesOk;
    CloseKeeps(w.kind, w.db, w.cloud, w.proc.value, true);
  }

  lemma CloseOwnerKeeps(w: World)
    requires Good(w) && Enabled(w, CloseOwner)
    ensures Good(Do(w, CloseOwner))
  {
    hide DurableOk, Honest, ProcOk;
    CloseKeeps(w.kind, w.db, w.cloud, w.proc.value, CloseQueues(w.proc.value).failure);
  }

  lemma InitialIsGood(w: World)
    requires Initial(w)
    ensures Good(w)
  {
  }

  /** The invariant holds after any sequence of steps. */
  lemma {:induction false} RunIsGood(w: World, steps: seq<Step>)
    requires Good(w)
    ensures Good(Run(w, steps))
    decreases |steps|
  {
    hide Good, Enabled, Do;
    if steps != [] {
      RunIsGood(w, steps[..|steps| - 1]);
      var before := Run(w, steps[..|steps| - 1]);
      if Enabled(before, steps[|steps| - 1]) { StepKeeps(before, steps[|steps| - 1]); }
    }
  }
}
