/** Publication of a committed batch, cloud outcomes and recovery keep the outbox invariant. */
module SpoolPublish {
  import opened SpoolModel
  import opened SpoolIndex
  import opened SpoolLedger
  import opened SpoolRuns
  import opened SpoolSafety
  import opened SpoolSteps

  /* ---------- remembering accepted records ---------- */

  lemma UidsGrow(accepted: map<Path, Identity>, p: Path, id: Identity, d: string)
    requires p !in accepted
    ensures Uids(accepted[p := id], d) == if d == p.parent then Uids(accepted, d) + {id.uid} else Uids(accepted, d)
  {
    var after := accepted[p := id];
    assert forall q :: q in accepted ==> q in after && after[q] == accepted[q];
    assert p in after && after[p] == id;
  }

  lemma RememberUids(accepted: map<Path, Identity>, p: Path, id: Identity)
    requires p !in accepted
    ensures
      var uids := UidsByParent(accepted);
      UidsByParent(accepted[p := id]) ==
        uids[p.parent := (if p.parent in uids then uids[p.parent] else {}) + {id.uid}]
  {
    hide Uids;
    var after := accepted[p := id];
    assert (set q | q in after :: q.parent) == (set q | q in accepted :: q.parent) + {p.parent} by {
      assert p in after && forall q :: q in accepted ==> q in after;
    }
    forall d ensures Uids(after, d) == if d == p.parent then Uids(accepted, d) + {id.uid} else Uids(accepted, d) {
      UidsGrow(accepted, p, id, d);
    }
    NoUids(accepted, p.parent);
  }

  lemma NoUids(accepted: map<Path, Identity>, d: string)
    ensures d !in UidsByParent(accepted) ==> Uids(accepted, d) == {}
  {
    if d !in UidsByParent(accepted) {
      forall q | q in accepted ensures q.parent != d { assert q.parent in (set p | p in accepted :: p.parent); }
    }
  }

  /** One newly durable row enters the mirror. */
  lemma PublishOne(kind: Kind, cfg: Config, m: Memory, p: Path, v: Payload, job: Job)
    requires Indexed(cfg, m) && m.uidsByParent == UidsByParent(m.accepted)
    requires p !in m.jobs && p !in m.accepted && job.parent == p.parent && job.size == |job.payload.bytes|
    requires kind == FinalRecord ==> v.uid.Some?
    ensures
      var m' := AddJob(cfg, Remember(kind, m, p, v), p, job);
      && Indexed(cfg, m') && m'.uidsByParent == UidsByParent(m'.accepted)
      && m'.jobs == m.jobs[p := job] && m'.inflight == m.inflight
      && m'.accepted == (if kind == FinalRecord then m.accepted[p := IdentityOf(p, v)] else m.accepted)
      && m'.pending == m.pending + 1 && m'.pendingBytes == m.pendingBytes + job.size
      && m'.queue == m.queue && m'.queuedBytes == m.queuedBytes && m'.acks == m.acks
  {
    hide Indexed, UidsByParent, Schedule;
    var r := Remember(kind, m, p, v);
    IndexFrame(cfg, m, r);
    AddJobKeeps(cfg, r, p, job);
    if kind == FinalRecord { RememberUids(m.accepted, p, IdentityOf(p, v)); }
  }

  /* ---------- publication of tickets ---------- */

  /** The mirror after the first `n` tickets, in terms of the tables' own insertions. */
  ghost predicate Published(kind: Kind, cfg: Config, m: Memory, n: nat, m': Memory)
    requires n <= |m.queue|
    requires kind == FinalRecord ==> forall t :: t in m.queue[..n] ==> t.payload.uid.Some?
  {
    && Indexed(cfg, m') && m'.uidsByParent == UidsByParent(m'.accepted)
    && m'.jobs == InsertJobs(m.jobs, m.queue[..n]) && m'.inflight == m.inflight
    && m'.accepted == (if kind == FinalRecord then InsertIds(m.accepted, m.queue[..n]) else m.accepted)
    && m'.pending == m.pending + n
    && m'.queuedBytes == TicketBytes(m'.queue) && m'.pendingBytes + m'.queuedBytes == m.pendingBytes + m.queuedBytes
  }

  lemma {:induction false} PublishTicketsKeeps(kind: Kind, cfg: Config, m: Memory, tickets: seq<TicketRecord>, n: nat)
    requires Indexed(cfg, m) && m.uidsByParent == UidsByParent(m.accepted) && n <= |m.queue|
    requires QueueOk(m.jobs, m.accepted, m.queue, m.queuedBytes, tickets)
    requires kind == FinalRecord ==> forall t :: t in m.queue[..n] ==> t.payload.uid.Some?
    ensures Published(kind, cfg, m, n, PublishTickets(kind, cfg, m, n))
    decreases n
  {
    hide Published, PublishTicket, Indexed, UidsByParent, QueueOk;
    if n == 0 {
      NothingPublished(kind, cfg, m, tickets);
    } else {
      assert m.queue[..n] == m.queue[..n - 1] + [m.queue[n - 1]];
      PublishTicketsKeeps(kind, cfg, m, tickets, n - 1);
      PublishNext(kind, cfg, m, tickets, n, PublishTickets(kind, cfg, m, n - 1));
    }
  }

  lemma NothingPublished(kind: Kind, cfg: Config, m: Memory, tickets: seq<TicketRecord>)
    requires Indexed(cfg, m) && m.uidsByParent == UidsByParent(m.accepted)
    requires QueueOk(m.jobs, m.accepted, m.queue, m.queuedBytes, tickets)
    ensures Published(kind, cfg, m, 0, m)
  {
    hide Indexed, UidsByParent, Queueable;
    assert m.queue[..0] == [];
  }

  lemma PublishNext(kind: Kind, cfg: Config, m: Memory, tickets: seq<TicketRecord>, n: nat, front: Memory)
    requires 0 < n <= |m.queue| && QueueOk(m.jobs, m.accepted, m.queue, m.queuedBytes, tickets)
    requires kind == FinalRecord ==> forall t :: t in m.queue[..n] ==> t.payload.uid.Some?
    requires front.queue == m.queue[n - 1..]
    requires Published(kind, cfg, m, n - 1, front)
    ensures Published(kind, cfg, m, n, PublishTicket(kind, cfg, front))
  {
    hide Indexed, UidsByParent, AddJob, Remember, QueueOk;
    var t := m.queue[n - 1];
    assert m.queue[..n] == m.queue[..n - 1] + [t] && m.queue[..n][..n - 1] == m.queue[..n - 1];
    assert t in m.queue[..n];
    NextIsNew(kind, cfg, m, tickets, n, front);
    var popped := front.(queue := front.queue[1..], queuedBytes := front.queuedBytes - t.size);
    IndexFrame(cfg, front, popped);
    PublishOne(kind, cfg, popped, t.path, t.payload, JobOf(t));
  }

  lemma NextIsNew(kind: Kind, cfg: Config, m: Memory, tickets: seq<TicketRecord>, n: nat, front: Memory)
    requires 0 < n <= |m.queue| && QueueOk(m.jobs, m.accepted, m.queue, m.queuedBytes, tickets)
    requires kind == FinalRecord ==> forall t :: t in m.queue[..n - 1] ==> t.payload.uid.Some?
    requires Published(kind, cfg, m, n - 1, front)
    ensures
      var t := m.queue[n - 1];
      t.path !in front.jobs && t.path !in front.accepted && t.size == |t.payload.bytes|
  {
    hide Indexed, UidsByParent, TicketBytes;
    PrefixDistinct(m.queue, n - 1);
    InsertJobsAt(m.jobs, m.queue[..n - 1]);
    if kind == FinalRecord { InsertIdsAt(m.accepted, m.queue[..n - 1]); }
    assert m.queue[n - 1] in m.queue[n - 1..] && m.queue[n - 1] in m.queue;
    assert Queueable(m.jobs, m.accepted, tickets, m.queue[n - 1]);
  }

  /* ---------- outcomes ---------- */

  lemma DescribesFrame(claimed: seq<Claim>, jobs: map<Path, Job>, jobs': map<Path, Job>)
    requires Describes(claimed, jobs)
    requires forall p :: p in ClaimPaths(claimed) && p in jobs ==> p in jobs' && jobs'[p] == jobs[p]
    ensures Describes(claimed, jobs')
  {
    assert forall c :: c in claimed ==> c.path in ClaimPaths(claimed);
  }

  /** Applying one outcome settles that worker and leaves every other claim untouched. */
  lemma AckSettles(cfg: Config, m: Memory, workers: map<nat, Stage>, cloud: set<Row>, ack: Ack)
    requires Indexed(cfg, m) && WorkersOk(m.jobs, m.inflight, workers, cloud)
    requires ack.worker in workers && workers[ack.worker].claimed == ack.claimed
    ensures
      var m' := ApplyAck(cfg, m, ack);
      && Indexed(cfg, m') && WorkersOk(m'.jobs, m'.inflight, workers - {ack.worker}, cloud)
      && m'.pending <= m.pending && m'.pendingBytes <= m.pendingBytes
  {
    hide Indexed, ScheduleAll, Describes, ClaimPaths;
    var m' := ApplyAck(cfg, m, ack);
    assert HeldBy(m.jobs, m.inflight, ack.claimed);
    AckKeeps(cfg, m, ack);
    forall v | v in workers - {ack.worker} ensures HeldBy(m'.jobs, m'.inflight, workers[v].claimed) {
      assert HeldBy(m.jobs, m.inflight, workers[v].claimed);
      OthersKeepRows(m.jobs, ack, ClaimPaths(workers[v].claimed));
      DescribesFrame(workers[v].claimed, m.jobs, m'.jobs);
    }
  }

  lemma OthersKeepRows(jobs: map<Path, Job>, ack: Ack, mine: set<Path>)
    requires mine !! ClaimPaths(ack.claimed)
    ensures forall p :: p in mine && p in jobs ==> p in AfterAck(jobs, ack) && AfterAck(jobs, ack)[p] == jobs[p]
  {
  }

  lemma {:induction false} ApplyAcksKeeps(cfg: Config, m: Memory, workers: map<nat, Stage>, cloud: set<Row>, k: nat)
    requires k <= |m.acks| && Indexed(cfg, m)
    requires WorkersOk(m.jobs, m.inflight, workers, cloud) && AcksOk(m.acks, workers, cloud)
    ensures
      var m' := ApplyAcks(cfg, m, k);
      && Indexed(cfg, m') && m'.jobs == AfterAcks(m.jobs, m.acks[..k])
      && WorkersOk(m'.jobs, m'.inflight, workers - Reporters(m.acks[..k]), cloud)
      && m'.pending <= m.pending && m'.pendingBytes <= m.pendingBytes
    decreases k
  {
    hide Indexed, WorkersOk, ApplyAck, AfterAck;
    if k == 0 {
      assert m.acks[..0] == [];
      assert workers - Reporters([]) == workers;
    } else {
      var front, ack := ApplyAcks(cfg, m, k - 1), m.acks[k - 1];
      var left := workers - Reporters(m.acks[..k - 1]);
      ApplyAcksKeeps(cfg, m, workers, cloud, k - 1);
      OneMoreReporter(m.acks, k, workers, cloud);
      AckSettles(cfg, front, left, cloud, ack);
      ApplyAckJobs(cfg, front, ack);
      var last := ApplyAck(cfg, front, ack);
      IndexFrame(cfg, last, last.(acks := front.acks[1..]));
    }
  }

  lemma OneMoreReporter(acks: seq<Ack>, k: nat, workers: map<nat, Stage>, cloud: set<Row>)
    requires 0 < k <= |acks| && AcksOk(acks, workers, cloud)
    ensures
      var left, ack := workers - Reporters(acks[..k - 1]), acks[k - 1];
      && acks[..k] == acks[..k - 1] + [ack] && acks[..k][..k - 1] == acks[..k - 1]
      && ack.worker in left && left[ack.worker].claimed == ack.claimed
      && left - {ack.worker} == workers - Reporters(acks[..k])
  {
    var ack := acks[k - 1];
    assert ack in acks && acks[..k] == acks[..k - 1] + [ack];
    assert ack.worker !in Reporters(acks[..k - 1]);
    assert Reporters(acks[..k]) == Reporters(acks[..k - 1]) + {ack.worker};
  }

  lemma ApplyAckJobs(cfg: Config, m: Memory, ack: Ack)
    ensures ApplyAck(cfg, m, ack).jobs == AfterAck(m.jobs, ack)
  {
  }

  /* ---------- the whole publication ---------- */

  /** Once committed, every ticket of the batch is durable or already in the cloud. */
  lemma BatchIsSecured(kind: Kind, db: Durable, cloud: set<Row>, p: Process, t: Ticket)
    requires DurableOk(kind, db, cloud) && ProcOk(kind, db, cloud, p)
    requires p.phase.Committed? && t in p.mem.queue[..p.phase.n]
    ensures Secured(kind, db, cloud, Row(t.path, t.payload))
  {
    hide Indexed, UidsByParent, Completed, RoomOk, Direct, TicketsKept, CallersOk;
    var batch, acks := p.mem.queue[..p.phase.n], p.mem.acks[..p.phase.k];
    PrefixOfAcks(p.mem.acks, p.phase.k, p.workers, cloud);
    OutcomesBacked(p.mem.jobs, p.mem.inflight, p.workers, acks, cloud);
    PrefixDistinct(p.mem.queue, p.phase.n);
    assert Queueable(p.mem.jobs, p.mem.accepted, p.tickets, t);
    InsertJobsAt(p.mem.jobs, batch);
    AfterAcksAt(InsertJobs(p.mem.jobs, batch), acks);
    if kind == FinalRecord {
      InsertIdsAt(p.mem.accepted, batch);
      assert t.path in Identities(db.accepted);
    }
  }

  /** Marking the batch done: exactly its own tickets, and only true answers. */
  lemma MarkDone(kind: Kind, db: Durable, cloud: set<Row>, p: Process)
    requires DurableOk(kind, db, cloud) && ProcOk(kind, db, cloud, p) && p.phase.Committed? && p.phase.n <= |p.mem.queue|
    ensures TicketsKept(kind, db, cloud, MarkFrom(p.tickets, p.mem.queue[..p.phase.n], Done))
  {
    hide DurableOk, Indexed, Mirrored, UidsByParent, WorkersOk, AcksOk, CallersOk, Secured, RoomOk, Direct;
    var batch := p.mem.queue[..p.phase.n];
    var marked := MarkFrom(p.tickets, batch, Done);
    forall i | 0 <= i < |marked| && marked[i].state == Done ensures Secured(kind, db, cloud, marked[i].row) {
      if t :| t in batch && t.id == i {
        assert Queueable(p.mem.jobs, p.mem.accepted, p.tickets, t);
        BatchIsSecured(kind, db, cloud, p, t);
      }
    }
  }

  lemma RestIsQueued(kind: Kind, m: Memory, tickets: seq<TicketRecord>, n: nat, jobs: map<Path, Job>, ids: map<Path, Identity>)
    requires n <= |m.queue| && QueueOk(m.jobs, m.accepted, m.queue, m.queuedBytes, tickets)
    requires forall p :: p in jobs ==> p in m.jobs || p in TicketPaths(m.queue[..n])
    requires forall p :: p in ids ==> p in m.accepted || p in TicketPaths(m.queue[..n])
    ensures QueueOk(jobs, ids, m.queue[n..], TicketBytes(m.queue[n..]), MarkFrom(tickets, m.queue[..n], Done))
  {
    hide TicketBytes;
    PrefixDistinct(m.queue, n);
    var marked := MarkFrom(tickets, m.queue[..n], Done);
    forall t | t in m.queue[n..] ensures Queueable(jobs, ids, marked, t) {
      assert t in m.queue && Queueable(m.jobs, m.accepted, tickets, t);
      forall s | s in m.queue[..n] ensures s.id != t.id {
        assert s in m.queue && Queueable(m.jobs, m.accepted, tickets, s);
      }
    }
  }

  /** The published mirror equals the tables again. */
  lemma PublicationMirrors(kind: Kind, db: Durable, cloud: set<Row>, p: Process)
    requires DurableOk(kind, db, cloud) && ProcOk(kind, db, cloud, p)
    requires p.phase.Committed? && p.phase.n <= |p.mem.queue| && p.phase.k <= |p.mem.acks|
    ensures
      var m := Publication(kind, p).mem;
      && Mirrored(kind, db, m.jobs, m.accepted, m.queue, m.acks, Open)
      && Indexed(p.cfg, m) && m.uidsByParent == UidsByParent(m.accepted)
  {
    hide DurableOk, Indexed, UidsByParent, WorkersOk, AcksOk, TicketsKept, CallersOk, QueueOk, Identities, AfterAcks,
         InsertJobs, InsertIds, TicketBytes, MarkFrom, RoomOk, Direct;
    var n, k := p.phase.n, p.phase.k;
    CheckpointsHaveNoLedger(kind, db, cloud);
    EmptyLedger(kind, db);
    PublishTicketsKeeps(kind, p.cfg, p.mem, p.tickets, n);
    var mid := PublishTickets(kind, p.cfg, p.mem, n);
    BatchJoins(kind, p.mem, p.tickets, p.workers, cloud, n, mid);
    ApplyAcksKeeps(p.cfg, mid, p.workers, cloud, k);
    AfterAcksShrinks(mid.jobs, p.mem.acks[..k]);
    PublishedContents(kind, p.mem, p.tickets, n, mid);
  }

  lemma PublicationMemory(kind: Kind, db: Durable, cloud: set<Row>, p: Process)
    requires DurableOk(kind, db, cloud) && ProcOk(kind, db, cloud, p)
    requires p.phase.Committed? && p.phase.n <= |p.mem.queue| && p.phase.k <= |p.mem.acks|
    ensures MemoryOk(kind, db, cloud, Publication(kind, p))
  {
    hide DurableOk, Indexed, UidsByParent, WorkersOk, AcksOk, TicketsKept, CallersOk, QueueOk, Identities, AfterAcks,
         InsertJobs, InsertIds, TicketBytes, MarkFrom;
    var n, k := p.phase.n, p.phase.k;
    PublicationMirrors(kind, db, cloud, p);
    hide Mirrored;
    PublishTicketsKeeps(kind, p.cfg, p.mem, p.tickets, n);
    var mid := PublishTickets(kind, p.cfg, p.mem, n);
    BatchJoins(kind, p.mem, p.tickets, p.workers, cloud, n, mid);
    ApplyAcksKeeps(p.cfg, mid, p.workers, cloud, k);
    AfterAcksShrinks(mid.jobs, p.mem.acks[..k]);
    PublishedContents(kind, p.mem, p.tickets, n, mid);
    RestIsQueued(kind, p.mem, p.tickets, n, AfterAcks(mid.jobs, p.mem.acks[..k]), mid.accepted);
  }

  lemma PublicationThreads(kind: Kind, db: Durable, cloud: set<Row>, p: Process)
    requires DurableOk(kind, db, cloud) && ProcOk(kind, db, cloud, p)
    requires p.phase.Committed? && p.phase.n <= |p.mem.queue| && p.phase.k <= |p.mem.acks|
    ensures ThreadsOk(kind, db, cloud, Publication(kind, p))
  {
    hide DurableOk, Indexed, UidsByParent, WorkersOk, AcksOk, TicketsKept, CallersOk, QueueOk, Identities, AfterAcks,
         InsertJobs, InsertIds, TicketBytes, MarkFrom, Completed;
    var n, k := p.phase.n, p.phase.k;
    PublishTicketsKeeps(kind, p.cfg, p.mem, p.tickets, n);
    var mid := PublishTickets(kind, p.cfg, p.mem, n);
    BatchJoins(kind, p.mem, p.tickets, p.workers, cloud, n, mid);
    ApplyAcksKeeps(p.cfg, mid, p.workers, cloud, k);
    MarkDone(kind, db, cloud, p);
    MarkKeepsRows(kind, db, cloud, p.callers, p.tickets, p.mem.queue[..n], Done);
    RestOfAcks(p.mem.acks, k, p.workers, cloud);
  }

  lemma PublishKeeps(w: World)
    requires Good(w) && Enabled(w, Publish)
    ensures Good(Do(w, Publish))
  {
    hide DurableOk, Honest, MemoryOk, ThreadsOk, Publication;
    PublicationMemory(w.kind, w.db, w.cloud, w.proc.value);
    PublicationThreads(w.kind, w.db, w.cloud, w.proc.value);
  }

  lemma EmptyLedger(kind: Kind, db: Durable)
    requires kind == Checkpoint ==> db.accepted == map[]
    ensures kind == Checkpoint ==> Identities(db.accepted) == map[]
  {
  }

  lemma AfterAcksShrinks(jobs: map<Path, Job>, acks: seq<Ack>)
    ensures AfterAcks(jobs, acks).Keys <= jobs.Keys
  {
    hide Completed;
    AfterAcksAt(jobs, acks);
  }

  lemma PublishedContents(kind: Kind, m: Memory, tickets: seq<TicketRecord>, n: nat, mid: Memory)
    requires n <= |m.queue| && QueueOk(m.jobs, m.accepted, m.queue, m.queuedBytes, tickets)
    requires kind == FinalRecord ==> forall t :: t in m.queue[..n] ==> t.payload.uid.Some?
    requires mid.jobs == InsertJobs(m.jobs, m.queue[..n])
    requires mid.accepted == (if kind == FinalRecord then InsertIds(m.accepted, m.queue[..n]) else m.accepted)
    ensures forall p :: p in mid.jobs ==> p in m.jobs || p in TicketPaths(m.queue[..n])
    ensures forall p :: p in mid.accepted ==> p in m.accepted || p in TicketPaths(m.queue[..n])
    ensures kind == FinalRecord && m.jobs.Keys <= m.accepted.Keys ==> mid.jobs.Keys <= mid.accepted.Keys
  {
    hide TicketBytes, Queueable;
    PrefixDistinct(m.queue, n);
    InsertJobsAt(m.jobs, m.queue[..n]);
    if kind == FinalRecord { InsertIdsAt(m.accepted, m.queue[..n]); }
  }

  /** New rows join the mirror without disturbing the claims in progress. */
  lemma BatchJoins(kind: Kind, m: Memory, tickets: seq<TicketRecord>, workers: map<nat, Stage>, cloud: set<Row>, n: nat, mid: Memory)
    requires n <= |m.queue| && QueueOk(m.jobs, m.accepted, m.queue, m.queuedBytes, tickets)
    requires WorkersOk(m.jobs, m.inflight, workers, cloud)
    requires mid.jobs == InsertJobs(m.jobs, m.queue[..n]) && mid.inflight == m.inflight
    ensures WorkersOk(mid.jobs, mid.inflight, workers, cloud)
  {
    hide TicketBytes, ClaimPaths, Describes;
    PrefixDistinct(m.queue, n);
    InsertJobsAt(m.jobs, m.queue[..n]);
    assert forall t :: t in m.queue[..n] ==> t in m.queue && Queueable(m.jobs, m.accepted, tickets, t);
    forall v | v in workers ensures HeldBy(mid.jobs, mid.inflight, workers[v].claimed) {
      assert HeldBy(m.jobs, m.inflight, workers[v].claimed);
      DescribesFrame(workers[v].claimed, m.jobs, mid.jobs);
    }
  }

  lemma RestOfAcks(acks: seq<Ack>, k: nat, workers: map<nat, Stage>, cloud: set<Row>)
    requires k <= |acks| && AcksOk(acks, workers, cloud)
    ensures AcksOk(acks[k..], workers - Reporters(acks[..k]), cloud)
  {
    forall a | a in acks[k..] ensures a.worker !in Reporters(acks[..k]) {
      var i :| k <= i < |acks| && acks[i] == a;
      assert forall j :: 0 <= j < k ==> acks[j].worker != acks[i].worker;
    }
  }
}
