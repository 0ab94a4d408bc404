/** Each critical section of the outbox, each cloud write and each crash keeps the invariant. */
module SpoolSteps {
  import opened SpoolModel
  import opened SpoolIndex
  import opened SpoolLedger
  import opened SpoolRuns
  import opened SpoolSafety

  /* ---------- admission ---------- */

  lemma {:induction false} FreshAreNew(m: Memory, rows: seq<Row>)
    requires DistinctRows(rows)
    ensures DistinctRows(FreshRows(m, rows))
    ensures forall r :: r in FreshRows(m, rows) ==>
      r in rows && r.path !in m.accepted && r.path !in TicketPaths(m.queue) && r.path !in m.jobs
    decreases |rows|
  {
    if rows != [] {
      var front, last := rows[..|rows| - 1], rows[|rows| - 1];
      FreshAreNew(m, front);
      assert rows == front + [last];
    }
  }

  lemma {:induction false} TicketBytesAppend(a: seq<Ticket>, b: seq<Ticket>)
    ensures TicketBytes(a + b) == TicketBytes(a) + TicketBytes(b)
    decreases |a|
  {
    if a == [] {
      assert a + b == b;
    } else {
      assert (a + b)[1..] == a[1..] + b;
      TicketBytesAppend(a[1..], b);
    }
  }

  lemma {:induction false} NewTicketBytes(rows: seq<Row>, base: nat, created: real)
    ensures TicketBytes(NewTickets(rows, base, created)) == RowBytes(rows)
    decreases |rows|
  {
    if rows != [] {
      var all, rest := NewTickets(rows, base, created), NewTickets(rows[1..], base + 1, created);
      assert all[1..] == rest;
      NewTicketBytes(rows[1..], base + 1, created);
    }
  }

  lemma AdmitKeepsQueue(m: Memory, tickets: seq<TicketRecord>, rows: seq<Row>, created: real)
    requires QueueOk(m.jobs, m.accepted, m.queue, m.queuedBytes, tickets) && DistinctRows(rows)
    ensures
      var m' := Admit(m, rows, |tickets|, created);
      QueueOk(m'.jobs, m'.accepted, m'.queue, m'.queuedBytes, tickets + Records(FreshRows(m, rows)))
  {
    var unseen := FreshRows(m, rows);
    var added, tickets' := NewTickets(unseen, |tickets|, created), tickets + Records(unseen);
    var queue := m.queue + added;
    FreshAreNew(m, rows);
    TicketBytesAppend(m.queue, added);
    NewTicketBytes(unseen, |tickets|, created);
    forall t | t in queue ensures Queueable(m.jobs, m.accepted, tickets', t) {
      if t in m.queue {
        assert Queueable(m.jobs, m.accepted, tickets, t);
      } else {
        var i :| 0 <= i < |added| && added[i] == t;
        assert tickets'[t.id] == Records(unseen)[i];
        assert unseen[i] in unseen;
      }
    }
    forall i, j | 0 <= i < j < |queue| ensures queue[i].path != queue[j].path {
      if i < |m.queue| <= j {
        assert unseen[j - |m.queue|] in unseen && m.queue[i].path in TicketPaths(m.queue);
      }
    }
  }

  /** Every row of an admitted call is either already secured or has a ticket that carries it. */
  lemma AdmittedCallerOk(kind: Kind, db: Durable, cloud: set<Row>, p: Process, rows: seq<Row>, created: real)
    requires DurableOk(kind, db, cloud) && ProcOk(kind, db, cloud, p)
    requires DistinctRows(rows) && forall r :: r in rows ==> Judge(p.mem, r) != Conflict
    ensures
      var m' := Admit(p.mem, rows, |p.tickets|, created);
      CallerOk(kind, db, cloud, Caller(rows, TicketIds(m', rows)), p.tickets + Records(FreshRows(p.mem, rows)))
  {
    hide DurableOk, Indexed, Mirrored, WorkersOk, AcksOk, TicketsKept, CallersOk, Secured, RoomOk, Direct, UidsByParent;
    var m' := Admit(p.mem, rows, |p.tickets|, created);
    var ids, tickets' := TicketIds(m', rows), p.tickets + Records(FreshRows(p.mem, rows));
    AdmitKeepsQueue(p.mem, p.tickets, rows, created);
    forall r | r in rows
      ensures if r.path in ids then ids[r.path] < |tickets'| && tickets'[ids[r.path]].row == r
              else Secured(kind, db, cloud, r)
    {
      if r.path in ids {
        TicketCarriesRow(p.mem, m', tickets', rows, created, |p.tickets|, r);
      } else {
        NoTicketMeansMirrored(p.mem, m', rows, created, |p.tickets|, r);
        MirroredIsSecured(kind, db, cloud, p, r);
      }
    }
  }

  lemma TicketCarriesRow(m: Memory, m': Memory, tickets': seq<TicketRecord>, rows: seq<Row>, created: real, base: nat, r: Row)
    requires m' == Admit(m, rows, base, created) && DistinctRows(rows) && r in rows && Judge(m, r) != Conflict
    requires QueueOk(m'.jobs, m'.accepted, m'.queue, m'.queuedBytes, tickets')
    requires r.path in TicketIds(m', rows)
    ensures TicketIds(m', rows)[r.path] < |tickets'| && tickets'[TicketIds(m', rows)[r.path]].row == r
  {
    hide FreshRows, NewTickets, RowBytes, TicketBytes, FindTicket;
    var t := FindTicket(m'.queue, r.path).value;
    assert Queueable(m'.jobs, m'.accepted, tickets', t);
    if t in m.queue {
      assert r.path in TicketPaths(m.queue);
      var u := FindTicket(m.queue, r.path).value;
      assert u in m'.queue;
      SameTicket(m'.queue, t, u);
    } else {
      var i :| 0 <= i < |FreshRows(m, rows)| && NewTickets(FreshRows(m, rows), base, created)[i] == t;
      assert FreshRows(m, rows)[i] in rows;
    }
  }

  lemma SameTicket(queue: seq<Ticket>, t: Ticket, u: Ticket)
    requires DistinctTickets(queue) && t in queue && u in queue && t.path == u.path
    ensures t == u
  {
  }

  lemma FreshRowIsQueued(m: Memory, rows: seq<Row>, created: real, base: nat, r: Row)
    requires r in rows && Judge(m, r) == Fresh
    ensures r.path in TicketPaths(Admit(m, rows, base, created).queue)
  {
    var unseen := FreshRows(m, rows);
    var i :| 0 <= i < |unseen| && unseen[i] == r;
    assert Admit(m, rows, base, created).queue[|m.queue| + i].path == r.path;
  }

  lemma NoTicketMeansMirrored(m: Memory, m': Memory, rows: seq<Row>, created: real, base: nat, r: Row)
    requires m' == Admit(m, rows, base, created) && r in rows && Judge(m, r) != Conflict
    requires r.path !in TicketIds(m', rows)
    ensures
      || (r.path in m.accepted && m.accepted[r.path].digest == Sha256(r.payload))
      || (r.path !in m.accepted && r.path in m.jobs && m.jobs[r.path].payload == r.payload)
  {
    if r.path !in m.accepted {
      assert r.path !in TicketPaths(m'.queue);
      assert forall t :: t in m.queue ==> t in m'.queue;
      assert r.path !in TicketPaths(m.queue);
      assert Judge(m, r) != Fresh by {
        if Judge(m, r) == Fresh { FreshRowIsQueued(m, rows, created, base, r); }
      }
    }
  }

  /** `enqueue_many` admits without losing track of any row. */
  lemma EnqueueKeeps(w: World, caller: nat, rows: seq<Row>, created: real)
    requires Good(w) && Enabled(w, Enqueue(caller, rows, created))
    ensures Good(Do(w, Enqueue(caller, rows, created)))
  {
    hide DurableOk, Indexed, WorkersOk, AcksOk, Secured, QueueOk, UidsByParent, InsertIds, TicketIds, FreshRows, Judge,
         AfterAcks, InsertJobs, Identities;
    var p := w.proc.value;
    var p' := Admission(p, caller, rows, created);
    AdmitKeepsQueue(p.mem, p.tickets, rows, created);
    AdmittedCallerOk(w.kind, w.db, w.cloud, p, rows, created);
    IndexFrame(p.cfg, p.mem, p'.mem);
    QueueGrows(w.kind, w.db, p.mem, p'.mem, p.phase);
    forall c | c in p'.callers ensures CallerOk(w.kind, w.db, w.cloud, p'.callers[c], p'.tickets) {
      if c != caller { assert CallerOk(w.kind, w.db, w.cloud, p.callers[c], p.tickets); }
    }
  }

  lemma QueueGrows(kind: Kind, db: Durable, m: Memory, m': Memory, phase: Phase)
    requires Mirrored(kind, db, m.jobs, m.accepted, m.queue, m.acks, phase)
    requires m'.jobs == m.jobs && m'.accepted == m.accepted && m.queue <= m'.queue && m.acks <= m'.acks
    ensures Mirrored(kind, db, m'.jobs, m'.accepted, m'.queue, m'.acks, phase)
  {
    match phase
    case Committed(n, k) => assert m'.queue[..n] == m.queue[..n] && m'.acks[..k] == m.acks[..k];
    case _ =>
  }

  /* ---------- answers ---------- */

  lemma ReturnKeeps(w: World, caller: nat)
    requires Good(w) && Enabled(w, Return(caller))
    ensures Good(Do(w, Return(caller)))
  {
    hide Indexed, Mirrored, QueueOk, UidsByParent, DurableOk, WorkersOk, AcksOk, Secured;
    var p := w.proc.value;
    var c := p.callers[caller];
    assert CallerOk(w.kind, w.db, w.cloud, c, p.tickets);
    if forall q :: q in c.tickets ==> p.tickets[c.tickets[q]].state == Done {
      forall r | r in c.rows ensures Secured(w.kind, w.db, w.cloud, r) {
        if r.path in c.tickets { assert p.tickets[c.tickets[r.path]].state == Done; }
      }
    }
  }

  /* ---------- failing the queue ---------- */

  lemma FailKeepsTickets(kind: Kind, db: Durable, cloud: set<Row>, p: Process)
    requires TicketsKept(kind, db, cloud, p.tickets) && CallersOk(kind, db, cloud, p.callers, p.tickets)
    ensures TicketsKept(kind, db, cloud, FailQueue(p).tickets) && CallersOk(kind, db, cloud, p.callers, FailQueue(p).tickets)
  {
    hide Secured;
    MarkKeepsRows(kind, db, cloud, p.callers, p.tickets, p.mem.queue, Failed);
  }

  lemma FailQueueKeeps(kind: Kind, db: Durable, cloud: set<Row>, p: Process)
    requires ProcOk(kind, db, cloud, p) && !p.phase.Committed? && !p.phase.Selected?
    ensures ProcOk(kind, db, cloud, FailQueue(p))
  {
    hide Indexed, WorkersOk, AcksOk, TicketsKept, CallersOk, UidsByParent, Queueable, Identities;
    FailKeepsTickets(kind, db, cloud, p);
    IndexFrame(p.cfg, p.mem, FailQueue(p).mem);
  }

  lemma SelectKeeps(w: World)
    requires Good(w) && Enabled(w, Select)
    ensures Good(Do(w, Select))
  {
    hide DurableOk, Honest, Indexed, WorkersOk, AcksOk, TicketsKept, CallersOk, UidsByParent, QueueOk, Identities, MarkFrom;
    var p := w.proc.value;
    if p.stopping { FailQueueKeeps(w.kind, w.db, w.cloud, p); }
  }

  lemma CloseKeeps(kind: Kind, db: Durable, cloud: set<Row>, p: Process, failure: bool)
    requires ProcOk(kind, db, cloud, p) && !p.phase.Committed? && p.cfg.batched
    ensures ProcOk(kind, db, cloud, CloseQueues(p).(failure := failure))
  {
    hide Indexed, WorkersOk, TicketsKept, CallersOk, UidsByParent, Queueable, Identities;
    FailKeepsTickets(kind, db, cloud, p);
    IndexFrame(p.cfg, p.mem, CloseQueues(p).mem);
  }

  /* ---------- the group commit ---------- */

  /** The tickets and outcomes the owner selected fit together. */
  lemma SelectionFits(kind: Kind, db: Durable, cloud: set<Row>, p: Process, n: nat, k: nat)
    requires ProcOk(kind, db, cloud, p) && !p.phase.Committed? && n <= |p.mem.queue| && k <= |p.mem.acks|
    ensures
      var batch, acks := p.mem.queue[..n], p.mem.acks[..k];
      && DistinctTickets(batch) && TicketsOk(batch) && Backed(db.jobs, acks, cloud)
      && TicketPaths(batch) !! Completed(acks)
      && forall t :: t in batch ==> t.path !in db.jobs && t.path !in db.accepted
  {
    hide Indexed, TicketsKept, CallersOk, UidsByParent, Completed, ClaimPaths, RoomOk, Direct;
    var batch := p.mem.queue[..n];
    PrefixOfAcks(p.mem.acks, k, p.workers, cloud);
    OutcomesBacked(p.mem.jobs, p.mem.inflight, p.workers, p.mem.acks[..k], cloud);
    PrefixDistinct(p.mem.queue, n);
    forall t | t in batch ensures t.path !in db.jobs && t.path !in db.accepted && t.size == |t.payload.bytes| {
      assert t in p.mem.queue && Queueable(p.mem.jobs, p.mem.accepted, p.tickets, t);
      assert t.path !in Identities(db.accepted);
    }
  }

  /** No plain INSERT of a group commit meets an existing key: it fails only on an unparsable record. */
  lemma InsertsNeverCollide(w: World, now: real)
    requires Good(w) && w.proc.Some? && w.proc.value.phase.Selected?
    ensures
      var p := w.proc.value;
      && p.phase.n <= |p.mem.queue| && p.phase.k <= |p.mem.acks|
      && (CommitBatch(w.kind, w.db, p.mem.queue[..p.phase.n], p.mem.acks[..p.phase.k], now).Some? <==>
          (w.kind == FinalRecord ==> forall t :: t in p.mem.queue[..p.phase.n] ==> t.payload.uid.Some?))
  {
    hide Indexed, ThreadsOk, UidsByParent, QueueOk, DurableOk, AfterAcks, InsertJobs, InsertAccepted, Identities;
    var p := w.proc.value;
    SelectionFits(w.kind, w.db, w.cloud, p, p.phase.n, p.phase.k);
    var batch := p.mem.queue[..p.phase.n];
    assert DistinctTickets(batch);
  }

  lemma CommitMirrors(kind: Kind, db: Durable, p: Process, now: real)
    requires p.phase.Selected? && Mirrored(kind, db, p.mem.jobs, p.mem.accepted, p.mem.queue, p.mem.acks, p.phase)
    requires DistinctTickets(p.mem.queue[..p.phase.n]) && (kind == Checkpoint ==> db.accepted == map[])
    requires CommitBatch(kind, db, p.mem.queue[..p.phase.n], p.mem.acks[..p.phase.k], now).Some?
    ensures
      var db' := CommitBatch(kind, db, p.mem.queue[..p.phase.n], p.mem.acks[..p.phase.k], now).value;
      Mirrored(kind, db', p.mem.jobs, p.mem.accepted, p.mem.queue, p.mem.acks, Committed(p.phase.n, p.phase.k))
  {
    hide AfterAcks, InsertJobs, InsertIds, InsertAccepted, Completed;
    var batch, acks := p.mem.queue[..p.phase.n], p.mem.acks[..p.phase.k];
    CommitAt(kind, db, batch, acks, now);
    if kind == FinalRecord { InsertIdsMatch(db.accepted, batch); }
  }

  lemma {:induction false} InsertIdsMatch(accepted: map<Path, Acceptance>, batch: seq<Ticket>)
    requires forall t :: t in batch ==> t.payload.uid.Some?
    ensures Identities(InsertAccepted(accepted, batch)) == InsertIds(Identities(accepted), batch)
    decreases |batch|
  {
    if batch != [] {
      assert batch == batch[..|batch| - 1] + [batch[|batch| - 1]];
      InsertIdsMatch(accepted, batch[..|batch| - 1]);
    }
  }

  lemma CommitKeeps(w: World, now: real)
    requires Good(w) && Enabled(w, Commit(now))
    ensures Good(Do(w, Commit(now)))
  {
    hide DurableOk, Indexed, Mirrored, WorkersOk, AcksOk, TicketsKept, CallersOk, UidsByParent, QueueOk, CommitBatch, Secured,
         Backed, Completed, TicketPaths, Honest;
    var p := w.proc.value;
    var batch, acks := p.mem.queue[..p.phase.n], p.mem.acks[..p.phase.k];
    SelectionFits(w.kind, w.db, w.cloud, p, p.phase.n, p.phase.k);
    CommitKeepsLedger(w.kind, w.db, w.cloud, batch, acks, now);
    CommitSecures(w.kind, w.db, w.cloud, batch, acks, now);
    CheckpointsHaveNoLedger(w.kind, w.db, w.cloud);
    CommitMirrors(w.kind, w.db, p, now);
    PromisesSurvive(w.kind, w.db, w.cloud, CommitBatch(w.kind, w.db, batch, acks, now).value, w.cloud, w.acked, p);
  }

  lemma CheckpointsHaveNoLedger(kind: Kind, db: Durable, cloud: set<Row>)
    requires DurableOk(kind, db, cloud)
    ensures kind == Checkpoint ==> db.accepted == map[]
  {
  }
}
