/** Cloud workers: claiming, uploading, reporting and dying keep the outbox invariant. */
module SpoolWorkers {
  import opened SpoolModel
  import opened SpoolIndex
  import opened SpoolLedger
  import opened SpoolRuns
  import opened SpoolSafety
  import opened SpoolSteps
  import opened SpoolPublish

  /* ---------- cloud workers ---------- */

  lemma TakeKeeps(w: World, worker: nat, now: real, after: Memory, claimed: seq<Claim>)
    requires Good(w) && Enabled(w, Take(worker, now, after, claimed))
    ensures Good(Do(w, Take(worker, now, after, claimed)))
  {
    hide DurableOk, Honest, Indexed, Mirrored, QueueOk, UidsByParent, AcksOk, TicketsKept, CallersOk, ClaimPaths, Describes,
         Earliest, BatchFrom, RemoveFromGroup, TakeClaims, Pruned;
    var p := w.proc.value;
    ClaimKeeps(p.cfg, p.mem, now, after, claimed);
    if claimed != [] {
      var workers := p.workers[worker := Uploading(claimed)];
      forall v | v in workers ensures HeldBy(after.jobs, after.inflight, workers[v].claimed) {
        if v != worker { assert HeldBy(p.mem.jobs, p.mem.inflight, p.workers[v].claimed); }
      }
      AcksFrame(p.mem.acks, p.workers, workers, w.cloud, worker);
    } else {
      WorkersFrame(p.mem, after, p.workers, w.cloud);
    }
  }

  lemma AcksFrame(acks: seq<Ack>, workers: map<nat, Stage>, workers': map<nat, Stage>, cloud: set<Row>, worker: nat)
    requires AcksOk(acks, workers, cloud)
    requires forall v :: v in workers && v != worker ==> v in workers' && workers'[v] == workers[v]
    requires worker !in workers || !workers[worker].Reported? || forall a :: a in acks ==> a.worker != worker
    ensures AcksOk(acks, workers', cloud)
  {
  }

  lemma WorkersFrame(m: Memory, m': Memory, workers: map<nat, Stage>, cloud: set<Row>)
    requires WorkersOk(m.jobs, m.inflight, workers, cloud) && m'.jobs == m.jobs && m.inflight <= m'.inflight
    ensures WorkersOk(m'.jobs, m'.inflight, workers, cloud)
  {
    forall v | v in workers ensures HeldBy(m'.jobs, m'.inflight, workers[v].claimed) {
      assert HeldBy(m.jobs, m.inflight, workers[v].claimed);
    }
  }

  /** A worker moves to another stage with the same claim. */
  lemma StageChanges(jobs: map<Path, Job>, inflight: set<Path>, workers: map<nat, Stage>, cloud: set<Row>, worker: nat, s: Stage)
    requires WorkersOk(jobs, inflight, workers, cloud) && worker in workers && s.claimed == workers[worker].claimed
    requires s.Uploaded? && !s.failed ==> ClaimRows(s.claimed) <= cloud
    ensures WorkersOk(jobs, inflight, workers[worker := s], cloud)
  {
    hide HeldBy;
    var after := workers[worker := s];
    forall v | v in after ensures HeldBy(jobs, inflight, after[v].claimed) {
      assert HeldBy(jobs, inflight, workers[v].claimed);
    }
  }

  lemma MoreInCloud(kind: Kind, db: Durable, cloud: set<Row>, cloud': set<Row>, workers: map<nat, Stage>, acks: seq<Ack>,
                    jobs: map<Path, Job>, inflight: set<Path>)
    requires cloud <= cloud'
    ensures DurableOk(kind, db, cloud) ==> DurableOk(kind, db, cloud')
    ensures Keeps(kind, db, cloud, db, cloud')
    ensures WorkersOk(jobs, inflight, workers, cloud) ==> WorkersOk(jobs, inflight, workers, cloud')
    ensures AcksOk(acks, workers, cloud) ==> AcksOk(acks, workers, cloud')
  {
    hide HeldBy, RowsOk, LedgerOk, Faithful;
    if DurableOk(kind, db, cloud) {
      forall p | p in db.accepted ensures AcceptedOk(db, cloud', p) { assert AcceptedOk(db, cloud, p); }
    }
    if WorkersOk(jobs, inflight, workers, cloud) {
      forall v | v in workers && workers[v].Uploaded? && !workers[v].failed ensures ClaimRows(workers[v].claimed) <= cloud' {
        assert ClaimRows(workers[v].claimed) <= cloud;
      }
    }
  }

  lemma UploadKeeps(w: World, worker: nat, landed: set<Row>, failed: bool, now: real)
    requires Good(w) && Enabled(w, Upload(worker, landed, failed, now))
    ensures Good(Do(w, Upload(worker, landed, failed, now)))
  {
    hide DurableOk, Honest, Indexed, Mirrored, QueueOk, UidsByParent, AcksOk, TicketsKept, CallersOk, WorkersOk, Keeps, ClaimRows,
         MaxAttempts, Backoff, OneBatch;
    var p := w.proc.value;
    var claimed := p.workers[worker].claimed;
    var s := Uploaded(claimed, failed, now + Backoff(MaxAttempts(claimed)));
    MoreInCloud(w.kind, w.db, w.cloud, w.cloud + landed, p.workers, p.mem.acks, p.mem.jobs, p.mem.inflight);
    PromisesSurvive(w.kind, w.db, w.cloud, w.db, w.cloud + landed, w.acked, p);
    StageChanges(p.mem.jobs, p.mem.inflight, p.workers, w.cloud + landed, worker, s);
    AcksFrame(p.mem.acks, p.workers, p.workers[worker := s], w.cloud + landed, worker);
    assert OneBatch(p.cfg, p.workers[worker].claimed);
  }

  /** A write of a crashed process arrives: the cloud only gains an object. */
  lemma LandKeeps(w: World, row: Row)
    requires Good(w) && Enabled(w, Land(row))
    ensures Good(Do(w, Land(row)))
  {
    hide DurableOk, Honest, Indexed, Mirrored, QueueOk, UidsByParent, AcksOk, TicketsKept, CallersOk, WorkersOk, Keeps, BatchesOk;
    if w.proc.Some? {
      var p := w.proc.value;
      MoreInCloud(w.kind, w.db, w.cloud, w.cloud + {row}, p.workers, p.mem.acks, p.mem.jobs, p.mem.inflight);
      PromisesSurvive(w.kind, w.db, w.cloud, w.db, w.cloud + {row}, w.acked, p);
    } else {
      MoreInCloud(w.kind, w.db, w.cloud, w.cloud + {row}, map[], [], map[], {});
      HonestSurvives(w.kind, w.db, w.cloud, w.cloud + {row}, w.acked);
    }
  }

  lemma HonestSurvives(kind: Kind, db: Durable, cloud: set<Row>, cloud': set<Row>, acked: set<Row>)
    requires Keeps(kind, db, cloud, db, cloud') && Honest(kind, db, cloud, acked)
    ensures Honest(kind, db, cloud', acked)
  {
    hide Secured;
  }

  lemma ReportKeeps(w: World, worker: nat)
    requires Good(w) && Enabled(w, Report(worker))
    ensures Good(Do(w, Report(worker)))
  {
    hide DurableOk, Honest, Indexed, Mirrored, QueueOk, UidsByParent, TicketsKept, CallersOk, WorkersOk, OneBatch;
    var p := w.proc.value;
    var p' := Do(w, Report(worker)).proc.value;
    var s := Reported(p.workers[worker].claimed);
    StageChanges(p.mem.jobs, p.mem.inflight, p.workers, w.cloud, worker, s);
    AcksFrame(p.mem.acks, p.workers, p'.workers, w.cloud, worker);
    IndexFrame(p.cfg, p.mem, p'.mem);
    QueueGrows(w.kind, w.db, p.mem, p'.mem, p.phase);
    UploadedIsBacked(p.mem.jobs, p.mem.inflight, p.workers, w.cloud, worker);
    assert OneBatch(p.cfg, p.workers[worker].claimed);
    assert forall a :: a in p.mem.acks ==> a.worker != worker;
  }

  lemma UploadedIsBacked(jobs: map<Path, Job>, inflight: set<Path>, workers: map<nat, Stage>, cloud: set<Row>, worker: nat)
    requires WorkersOk(jobs, inflight, workers, cloud) && worker in workers && workers[worker].Uploaded?
    ensures !workers[worker].failed ==> ClaimRows(workers[worker].claimed) <= cloud
    ensures HeldBy(jobs, inflight, workers[worker].claimed)
  {
  }

  lemma DieKeeps(w: World, worker: nat)
    requires Good(w) && Enabled(w, Die(worker))
    ensures Good(Do(w, Die(worker)))
  {
    hide DurableOk, Honest, Indexed, Mirrored, QueueOk, UidsByParent, TicketsKept, CallersOk, WorkersOk, AcksOk, OneBatch;
    var p := w.proc.value;
    var s := Dead(p.workers[worker].claimed);
    StageChanges(p.mem.jobs, p.mem.inflight, p.workers, w.cloud, worker, s);
    AcksFrame(p.mem.acks, p.workers, p.workers[worker := s], w.cloud, worker);
    assert OneBatch(p.cfg, p.workers[worker].claimed);
  }

  /* ---------- the unbatched database mode ---------- */

  lemma OneOutcomeBacked(jobs: map<Path, Job>, inflight: set<Path>, workers: map<nat, Stage>, cloud: set<Row>, worker: nat)
    requires WorkersOk(jobs, inflight, workers, cloud) && worker in workers && workers[worker].Uploaded?
    ensures Backed(jobs, [OutcomeOf(worker, workers[worker])], cloud)
  {
    var ack := OutcomeOf(worker, workers[worker]);
    UploadedIsBacked(jobs, inflight, workers, cloud, worker);
    forall p | p in Completed([ack]) && p in jobs ensures Row(p, jobs[p].payload) in cloud {
      var c :| c in ack.claimed && c.path == p;
      assert Row(c.path, c.payload) in ClaimRows(ack.claimed);
    }
  }

  lemma SettleMirrors(kind: Kind, db: Durable, m: Memory, cfg: Config, ack: Ack, now: real)
    requires Mirrored(kind, db, m.jobs, m.accepted, [], [], Open)
    requires CommitBatch(kind, db, [], [ack], now).Some?
    ensures
      var m' := ApplyAck(cfg, m, ack);
      Mirrored(kind, CommitBatch(kind, db, [], [ack], now).value, m'.jobs, m'.accepted, [], [], Open)
  {
    hide ScheduleAll, AfterAck, Identities;
    assert AfterAcks(db.jobs, [ack]) == AfterAck(db.jobs, ack) by {
      assert [ack][..0] == [];
    }
    assert InsertJobs(db.jobs, []) == db.jobs;
    AfterAckShrinks(db.jobs, ack);
  }

  lemma AfterAckShrinks(jobs: map<Path, Job>, ack: Ack)
    ensures AfterAck(jobs, ack).Keys <= jobs.Keys
  {
  }

  lemma SettleKeeps(w: World, worker: nat, now: real)
    requires Good(w) && Enabled(w, Settle(worker, now))
    ensures Good(Do(w, Settle(worker, now)))
  {
    hide DurableOk, Honest, Indexed, Mirrored, QueueOk, UidsByParent, TicketsKept, CallersOk, WorkersOk, CommitBatch, Secured,
         Backed, Completed, ApplyAck, AfterAck, OneBatch;
    var p := w.proc.value;
    var ack := OutcomeOf(worker, p.workers[worker]);
    var m' := ApplyAck(p.cfg, p.mem, ack);
    EmptyBatch(ack);
    OpenMirror(w.kind, w.db, p.mem);
    OneOutcomeBacked(p.mem.jobs, p.mem.inflight, p.workers, w.cloud, worker);
    CommitKeepsLedger(w.kind, w.db, w.cloud, [], [ack], now);
    CommitSecures(w.kind, w.db, w.cloud, [], [ack], now);
    var db' := CommitBatch(w.kind, w.db, [], [ack], now).value;
    PromisesSurvive(w.kind, w.db, w.cloud, db', w.cloud, w.acked, p);
    SettleMirrors(w.kind, w.db, p.mem, p.cfg, ack, now);
    AckSettles(p.cfg, p.mem, p.workers, w.cloud, ack);
    AckFields(p.cfg, p.mem, ack);
    NoQueue(m'.jobs, m'.accepted, p.tickets);
    NoTickets(p.mem.jobs, p.mem.accepted, p.mem.queuedBytes, p.tickets);
  }

  lemma EmptyBatch(ack: Ack)
    ensures TicketPaths([]) !! Completed([ack]) && TicketsOk([])
  {
  }

  lemma OpenMirror(kind: Kind, db: Durable, m: Memory)
    requires Mirrored(kind, db, m.jobs, m.accepted, m.queue, m.acks, Open)
    ensures m.jobs == db.jobs
  {
  }

  lemma AckFields(cfg: Config, m: Memory, ack: Ack)
    ensures
      var m' := ApplyAck(cfg, m, ack);
      m'.queue == m.queue && m'.queuedBytes == m.queuedBytes && m'.acks == m.acks &&
      m'.accepted == m.accepted && m'.uidsByParent == m.uidsByParent
  {
  }

  lemma NoQueue(jobs: map<Path, Job>, accepted: map<Path, Identity>, tickets: seq<TicketRecord>)
    ensures QueueOk(jobs, accepted, [], 0, tickets)
  {
  }

  lemma NoTickets(jobs: map<Path, Job>, accepted: map<Path, Identity>, bytes: int, tickets: seq<TicketRecord>)
    ensures QueueOk(jobs, accepted, [], bytes, tickets) ==> bytes == 0
  {
  }
}
