/** The inductive invariant of the outbox, and what it buys over every run. */
module SpoolSafety {
  import opened SpoolModel
  import opened SpoolIndex
  import opened SpoolLedger
  import opened SpoolRuns

  /* ---------- the invariant, piece by piece ---------- */

  function InsertIds(ids: map<Path, Identity>, batch: seq<Ticket>): map<Path, Identity>
    requires forall t :: t in batch ==> t.payload.uid.Some?
  {
    if batch == [] then ids
    else
      var t := batch[|batch| - 1];
      InsertIds(ids, batch[..|batch| - 1])[t.path := IdentityOf(t.path, t.payload)]
  }

  /** The mirror lags the tables only between a COMMIT and its publication. */
  ghost predicate Mirrored(kind: Kind, db: Durable, jobs: map<Path, Job>, accepted: map<Path, Identity>,
                           queue: seq<Ticket>, acks: seq<Ack>, phase: Phase)
  {
    && (kind == FinalRecord ==> jobs.Keys <= accepted.Keys && db.jobs.Keys <= db.accepted.Keys)
    && match phase
       case Committed(n, k) =>
         && n <= |queue| && k <= |acks|
         && db.jobs == AfterAcks(InsertJobs(jobs, queue[..n]), acks[..k])
         && (kind == Checkpoint ==> accepted == map[])
         && (kind == FinalRecord ==>
               && (forall t :: t in queue[..n] ==> t.payload.uid.Some?)
               && Identities(db.accepted) == InsertIds(accepted, queue[..n]))
       case Selected(n, k) => n <= |queue| && k <= |acks| && jobs == db.jobs && accepted == Identities(db.accepted)
       case _ => jobs == db.jobs && accepted == Identities(db.accepted)
  }

  ghost predicate Queueable(jobs: map<Path, Job>, accepted: map<Path, Identity>, tickets: seq<TicketRecord>, t: Ticket)
  {
    && t.path !in jobs && t.path !in accepted && t.size == |t.payload.bytes|
    && t.id < |tickets| && tickets[t.id] == TicketRecord(Row(t.path, t.payload), Waiting)
  }

  ghost predicate QueueOk(jobs: map<Path, Job>, accepted: map<Path, Identity>, queue: seq<Ticket>, queuedBytes: int,
                          tickets: seq<TicketRecord>)
  {
    && DistinctTickets(queue)
    && (forall t :: t in queue ==> Queueable(jobs, accepted, tickets, t))
    && queuedBytes == TicketBytes(queue)
  }

  ghost predicate HeldBy(jobs: map<Path, Job>, inflight: set<Path>, claimed: seq<Claim>)
  {
    ClaimPaths(claimed) <= inflight && Describes(claimed, jobs)
  }

  /** No two workers hold the same row, and a confirmed upload is in the cloud. */
  ghost predicate WorkersOk(jobs: map<Path, Job>, inflight: set<Path>, workers: map<nat, Stage>, cloud: set<Row>)
  {
    && (forall w :: w in workers ==> HeldBy(jobs, inflight, workers[w].claimed))
    && (forall v, w :: v in workers && w in workers && v != w ==>
          ClaimPaths(workers[v].claimed) !! ClaimPaths(workers[w].claimed))
    && (forall w :: w in workers && workers[w].Uploaded? && !workers[w].failed ==> ClaimRows(workers[w].claimed) <= cloud)
  }

  /** One upload: rows of a single directory, no more than the writer takes. */
  ghost predicate OneBatch(cfg: Config, claimed: seq<Claim>)
  {
    && claimed != []
    && (forall c, d :: c in claimed && d in claimed ==> c.path.parent == d.path.parent)
    && |claimed| <= (if cfg.batchWriter && cfg.batchSize > 1 then cfg.batchSize else 1)
  }

  ghost predicate BatchesOk(cfg: Config, workers: map<nat, Stage>)
  {
    forall w :: w in workers ==> OneBatch(cfg, workers[w].claimed)
  }

  ghost predicate AcksOk(acks: seq<Ack>, workers: map<nat, Stage>, cloud: set<Row>)
  {
    && (forall a :: a in acks ==> a.worker in workers && workers[a.worker] == Reported(a.claimed))
    && (forall a :: a in acks && !a.failed ==> ClaimRows(a.claimed) <= cloud)
    && (forall i, j :: 0 <= i < j < |acks| ==> acks[i].worker != acks[j].worker)
  }

  ghost predicate TicketsKept(kind: Kind, db: Durable, cloud: set<Row>, tickets: seq<TicketRecord>)
  {
    forall i :: 0 <= i < |tickets| && tickets[i].state == Done ==> Secured(kind, db, cloud, tickets[i].row)
  }

  ghost predicate CallerOk(kind: Kind, db: Durable, cloud: set<Row>, c: Caller, tickets: seq<TicketRecord>)
  {
    forall r :: r in c.rows ==>
      if r.path in c.tickets then c.tickets[r.path] < |tickets| && tickets[c.tickets[r.path]].row == r
      else Secured(kind, db, cloud, r)
  }

  ghost predicate CallersOk(kind: Kind, db: Durable, cloud: set<Row>, callers: map<nat, Caller>, tickets: seq<TicketRecord>)
  {
    forall c :: c in callers ==> CallerOk(kind, db, cloud, callers[c], tickets)
  }

  ghost predicate RoomOk(p: Process)
  {
    && p.mem.pending + |p.mem.queue| <= p.room && p.mem.pendingBytes + p.mem.queuedBytes <= p.roomBytes
    && p.cfg.maxFiles <= p.room && p.cfg.maxBytes <= p.roomBytes
  }

  ghost predicate Direct(p: Process)
  {
    !p.cfg.batched ==> p.mem.queue == [] && p.mem.acks == [] && p.phase == Open
  }

  ghost predicate MemoryOk(kind: Kind, db: Durable, cloud: set<Row>, p: Process)
  {
    && Indexed(p.cfg, p.mem)
    && Mirrored(kind, db, p.mem.jobs, p.mem.accepted, p.mem.queue, p.mem.acks, p.phase)
    && p.mem.uidsByParent == UidsByParent(p.mem.accepted)
    && QueueOk(p.mem.jobs, p.mem.accepted, p.mem.queue, p.mem.queuedBytes, p.tickets)
    && RoomOk(p) && Direct(p)
  }

  ghost predicate ThreadsOk(kind: Kind, db: Durable, cloud: set<Row>, p: Process)
  {
    && WorkersOk(p.mem.jobs, p.mem.inflight, p.workers, cloud)
    && BatchesOk(p.cfg, p.workers)
    && AcksOk(p.mem.acks, p.workers, cloud)
    && TicketsKept(kind, db, cloud, p.tickets)
    && CallersOk(kind, db, cloud, p.callers, p.tickets)
  }

  ghost predicate ProcOk(kind: Kind, db: Durable, cloud: set<Row>, p: Process)
  {
    MemoryOk(kind, db, cloud, p) && ThreadsOk(kind, db, cloud, p)
  }

  ghost predicate Honest(kind: Kind, db: Durable, cloud: set<Row>, acked: set<Row>)
  {
    forall r :: r in acked ==> Secured(kind, db, cloud, r)
  }

  ghost predicate Good(w: World)
  {
    && DurableOk(w.kind, w.db, w.cloud)
    && Honest(w.kind, w.db, w.cloud, w.acked)
    && (w.proc.Some? ==> ProcOk(w.kind, w.db, w.cloud, w.proc.value))
  }

  /** Before the first start: an outbox without a ledger, nothing acknowledged yet. */
  ghost predicate Initial(w: World)
  {
    && w.proc.None? && w.acked == {} && w.late == {} && w.db.accepted == map[] && w.db.published == map[]
    && RowsOk(w.db.jobs)
  }

  /* ---------- stability ---------- */

  /** Nothing promised in the first state is lost in the second. */
  ghost predicate Keeps(kind: Kind, db: Durable, cloud: set<Row>, db': Durable, cloud': set<Row>)
  {
    forall r :: Secured(kind, db, cloud, r) ==> Secured(kind, db', cloud', r)
  }

  lemma PromisesSurvive(kind: Kind, db: Durable, cloud: set<Row>, db': Durable, cloud': set<Row>, acked: set<Row>, p: Process)
    requires Keeps(kind, db, cloud, db', cloud')
    ensures Honest(kind, db, cloud, acked) ==> Honest(kind, db', cloud', acked)
    ensures TicketsKept(kind, db, cloud, p.tickets) ==> TicketsKept(kind, db', cloud', p.tickets)
    ensures CallersOk(kind, db, cloud, p.callers, p.tickets) ==> CallersOk(kind, db', cloud', p.callers, p.tickets)
  {
    hide Secured;
    if CallersOk(kind, db, cloud, p.callers, p.tickets) {
      forall c | c in p.callers ensures CallerOk(kind, db', cloud', p.callers[c], p.tickets) {
        assert CallerOk(kind, db, cloud, p.callers[c], p.tickets);
      }
    }
  }

  lemma IndexFrame(cfg: Config, m: Memory, m': Memory)
    requires Indexed(cfg, m)
    requires m'.jobs == m.jobs && m'.sched == m.sched && m'.inflight == m.inflight
    requires m'.pending == m.pending && m'.pendingBytes == m.pendingBytes
    ensures Indexed(cfg, m')
  {
    hide HeapOk, Grouped, RowsOk, Total, Sizes;
  }

  /** A marked ticket keeps its row. */
  lemma MarkKeepsRows(kind: Kind, db: Durable, cloud: set<Row>, callers: map<nat, Caller>, tickets: seq<TicketRecord>,
                      queue: seq<Ticket>, state: TicketState)
    requires CallersOk(kind, db, cloud, callers, tickets)
    ensures CallersOk(kind, db, cloud, callers, MarkFrom(tickets, queue, state))
  {
    hide Secured;
    forall c | c in callers ensures CallerOk(kind, db, cloud, callers[c], MarkFrom(tickets, queue, state)) {
      assert CallerOk(kind, db, cloud, callers[c], tickets);
    }
  }

  /* ---------- what a mirrored row is worth ---------- */

  lemma OutcomesBacked(jobs: map<Path, Job>, inflight: set<Path>, workers: map<nat, Stage>, acks: seq<Ack>, cloud: set<Row>)
    requires WorkersOk(jobs, inflight, workers, cloud) && AcksOk(acks, workers, cloud)
    ensures Backed(jobs, acks, cloud) && Completed(acks) <= jobs.Keys
  {
    forall p | p in Completed(acks) ensures p in jobs && Row(p, jobs[p].payload) in cloud {
      var a :| a in acks && !a.failed && p in ClaimPaths(a.claimed);
      var c :| c in a.claimed && c.path == p;
      assert HeldBy(jobs, inflight, workers[a.worker].claimed);
      assert Row(c.path, c.payload) in ClaimRows(a.claimed);
    }
  }

  lemma PrefixOfAcks(acks: seq<Ack>, k: nat, workers: map<nat, Stage>, cloud: set<Row>)
    requires k <= |acks| && AcksOk(acks, workers, cloud)
    ensures AcksOk(acks[..k], workers, cloud) && AcksOk(acks[k..], workers, cloud)
  {
  }

  /** What the mirror knows as accepted is in the table with the same identity. */
  lemma AcceptedIsStored(kind: Kind, db: Durable, cloud: set<Row>, p: Process, q: Path)
    requires MemoryOk(kind, db, cloud, p) && q in p.mem.accepted
    requires kind == Checkpoint ==> db.accepted == map[]
    ensures q in db.accepted && db.accepted[q].identity == p.mem.accepted[q]
  {
    hide Indexed, AfterAcks, InsertJobs;
    if p.phase.Committed? {
      var batch := p.mem.queue[..p.phase.n];
      PrefixDistinct(p.mem.queue, p.phase.n);
      assert kind == FinalRecord;
      InsertIdsAt(p.mem.accepted, batch);
      assert forall t :: t in batch ==> Queueable(p.mem.jobs, p.mem.accepted, p.tickets, t);
      assert q in Identities(db.accepted);
    } else {
      assert q in Identities(db.accepted);
    }
  }

  /** A mirrored row is in the table, or its deletion was confirmed by the cloud. */
  lemma MirroredIsSafe(kind: Kind, db: Durable, cloud: set<Row>, p: Process, r: Row)
    requires ProcOk(kind, db, cloud, p)
    requires r.path in p.mem.jobs && p.mem.jobs[r.path].payload == r.payload
    ensures Safe(db, cloud, r)
  {
    hide Indexed, Completed, ClaimPaths, InsertIds, UidsByParent;
    if p.phase.Committed? {
      var batch, acks := p.mem.queue[..p.phase.n], p.mem.acks[..p.phase.k];
      PrefixOfAcks(p.mem.acks, p.phase.k, p.workers, cloud);
      OutcomesBacked(p.mem.jobs, p.mem.inflight, p.workers, acks, cloud);
      PrefixDistinct(p.mem.queue, p.phase.n);
      assert forall t :: t in batch ==> Queueable(p.mem.jobs, p.mem.accepted, p.tickets, t);
      InsertJobsAt(p.mem.jobs, batch);
      AfterAcksAt(InsertJobs(p.mem.jobs, batch), acks);
    }
  }

  /** A row found in the mirror is secured, whatever the owner is doing. */
  lemma MirroredIsSecured(kind: Kind, db: Durable, cloud: set<Row>, p: Process, r: Row)
    requires DurableOk(kind, db, cloud) && ProcOk(kind, db, cloud, p)
    requires
      || (r.path in p.mem.accepted && p.mem.accepted[r.path].digest == Sha256(r.payload))
      || (r.path !in p.mem.accepted && r.path in p.mem.jobs && p.mem.jobs[r.path].payload == r.payload)
    ensures Secured(kind, db, cloud, r)
  {
    hide Indexed, QueueOk, ThreadsOk, UidsByParent, RoomOk, Direct;
    if r.path in p.mem.accepted {
      AcceptedIsStored(kind, db, cloud, p, r.path);
      assert AcceptedOk(db, cloud, r.path);
    } else {
      MirroredIsSafe(kind, db, cloud, p, r);
    }
  }

  lemma PrefixDistinct(queue: seq<Ticket>, n: nat)
    requires n <= |queue| && DistinctTickets(queue)
    ensures DistinctTickets(queue[..n]) && DistinctTickets(queue[n..])
    ensures forall s, t :: s in queue[..n] && t in queue[n..] ==> s.path != t.path
  {
  }

  lemma {:induction false} InsertIdsAt(ids: map<Path, Identity>, batch: seq<Ticket>)
    requires forall t :: t in batch ==> t.payload.uid.Some?
    requires DistinctTickets(batch)
    ensures
      var after := InsertIds(ids, batch);
      && (forall p :: p in after <==> p in ids || p in TicketPaths(batch))
      && (forall t :: t in batch ==> t.path in after && after[t.path] == IdentityOf(t.path, t.payload))
      && (forall p :: p in ids && p !in TicketPaths(batch) ==> after[p] == ids[p])
    decreases |batch|
  {
    if batch != [] {
      assert batch == batch[..|batch| - 1] + [batch[|batch| - 1]];
      InsertIdsAt(ids, batch[..|batch| - 1]);
    }
  }
}
