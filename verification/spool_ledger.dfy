/** The durable side of the outbox: what the three tables owe to callers and to each other. */
module SpoolLedger {
  import opened SpoolModel
  import opened SpoolIndex

  /** An accepted row records exactly the identity of one payload. */
  ghost predicate Faithful(p: Path, a: Acceptance)
  {
    var v := a.identity.digest.payload;
    v.uid.Some? && a.identity == IdentityOf(p, v)
  }

  /** Published means accepted and no longer waiting in the outbox. */
  ghost predicate LedgerOk(db: Durable)
  {
    forall p :: p in db.published <==> p in db.accepted && p !in db.jobs
  }

  ghost predicate AcceptedOk(db: Durable, cloud: set<Row>, p: Path)
    requires p in db.accepted
  {
    && Faithful(p, db.accepted[p])
    && var v := db.accepted[p].identity.digest.payload;
       if p in db.jobs then db.jobs[p].payload == v else Row(p, v) in cloud
  }

  ghost predicate DurableOk(kind: Kind, db: Durable, cloud: set<Row>)
  {
    && RowsOk(db.jobs)
    && (kind == Checkpoint ==> db.accepted == map[] && db.published == map[])
    && LedgerOk(db)
    && forall p :: p in db.accepted ==> AcceptedOk(db, cloud, p)
  }

  /** The promise behind an acknowledgement: still in the outbox, or already in the cloud. */
  ghost predicate Safe(db: Durable, cloud: set<Row>, r: Row)
  {
    (r.path in db.jobs && db.jobs[r.path].payload == r.payload) || r in cloud
  }

  /** For final records the promise includes being remembered for ever. */
  ghost predicate Secured(kind: Kind, db: Durable, cloud: set<Row>, r: Row)
  {
    && Safe(db, cloud, r)
    && (kind == FinalRecord ==> r.path in db.accepted && db.accepted[r.path].identity.digest == Sha256(r.payload))
  }

  /** A successful outcome is backed by an object in the cloud. */
  ghost predicate Backed(jobs: map<Path, Job>, acks: seq<Ack>, cloud: set<Row>)
  {
    forall p :: p in Completed(acks) && p in jobs ==> Row(p, jobs[p].payload) in cloud
  }

  ghost predicate SameContent(a: Job, b: Job)
  {
    a.payload == b.payload && a.size == b.size && a.parent == b.parent && a.created == b.created
  }

  lemma CompletedSnoc(acks: seq<Ack>)
    requires acks != []
    ensures
      var front, last := acks[..|acks| - 1], acks[|acks| - 1];
      Completed(acks) == Completed(front) + (if last.failed then {} else ClaimPaths(last.claimed))
  {
    var front, last := acks[..|acks| - 1], acks[|acks| - 1];
    assert acks == front + [last];
    forall p | p in Completed(acks) ensures p in Completed(front) || (!last.failed && p in ClaimPaths(last.claimed)) {
      var a :| a in acks && !a.failed && p in ClaimPaths(a.claimed);
    }
  }

  /** Acknowledgements delete exactly the completed rows and never touch a row's content. */
  lemma {:induction false} AfterAcksAt(jobs: map<Path, Job>, acks: seq<Ack>)
    ensures
      var after := AfterAcks(jobs, acks);
      && after.Keys == jobs.Keys - Completed(acks)
      && forall p :: p in after ==> SameContent(after[p], jobs[p])
    decreases |acks|
  {
    hide ClaimPaths, Completed;
    if acks == [] {
      NothingCompleted();
    } else {
      AfterAcksAt(jobs, acks[..|acks| - 1]);
      CompletedSnoc(acks);
    }
  }

  lemma NothingCompleted()
    ensures Completed([]) == {}
  {
  }

  /** A plain multi-row INSERT adds exactly the batch. */
  lemma {:induction false} InsertJobsAt(jobs: map<Path, Job>, batch: seq<Ticket>)
    requires DistinctTickets(batch)
    ensures
      var after := InsertJobs(jobs, batch);
      && (forall p :: p in after <==> p in jobs || p in TicketPaths(batch))
      && (forall t :: t in batch ==> t.path in after && after[t.path] == JobOf(t))
      && (forall p :: p in jobs && p !in TicketPaths(batch) ==> after[p] == jobs[p])
    decreases |batch|
  {
    if batch != [] {
      assert batch == batch[..|batch| - 1] + [batch[|batch| - 1]];
      InsertJobsAt(jobs, batch[..|batch| - 1]);
    }
  }

  lemma {:induction false} InsertAcceptedAt(accepted: map<Path, Acceptance>, batch: seq<Ticket>)
    requires DistinctTickets(batch)
    requires forall t :: t in batch ==> t.payload.uid.Some?
    ensures
      var after := InsertAccepted(accepted, batch);
      && (forall p :: p in after <==> p in accepted || p in TicketPaths(batch))
      && (forall t :: t in batch ==> t.path in after && after[t.path] == Acceptance(IdentityOf(t.path, t.payload), t.created))
      && (forall p :: p in accepted && p !in TicketPaths(batch) ==> after[p] == accepted[p])
    decreases |batch|
  {
    if batch != [] {
      assert batch == batch[..|batch| - 1] + [batch[|batch| - 1]];
      InsertAcceptedAt(accepted, batch[..|batch| - 1]);
    }
  }

  ghost predicate TicketsOk(batch: seq<Ticket>)
  {
    forall t :: t in batch ==> t.size == |t.payload.bytes|
  }

  /** The three tables after a commit, point by point. */
  lemma CommitAt(kind: Kind, db: Durable, batch: seq<Ticket>, acks: seq<Ack>, now: real)
    requires CommitBatch(kind, db, batch, acks, now).Some?
    ensures
      var after := CommitBatch(kind, db, batch, acks, now).value;
      && (forall p :: p in after.jobs <==> (p in db.jobs || p in TicketPaths(batch)) && p !in Completed(acks))
      && (forall p :: p in after.jobs && p in db.jobs ==> SameContent(after.jobs[p], db.jobs[p]))
      && (forall t :: t in batch && t.path in after.jobs ==> SameContent(after.jobs[t.path], JobOf(t)))
      && (kind == Checkpoint ==> after.accepted == db.accepted && after.published == db.published)
      && (kind == FinalRecord ==>
            && (forall p :: p in after.accepted <==> p in db.accepted || p in TicketPaths(batch))
            && (forall p :: p in db.accepted ==> after.accepted[p] == db.accepted[p])
            && (forall t :: t in batch ==> t.payload.uid.Some?)
            && (forall t :: t in batch ==> after.accepted[t.path] == Acceptance(IdentityOf(t.path, t.payload), t.created))
            && (forall p :: p in after.published <==> p in db.published || (p in after.accepted && p in Completed(acks)))
            && (forall p :: p in db.published ==> after.published[p] == db.published[p]))
  {
    hide Completed;
    assert DistinctTickets(batch);
    InsertJobsAt(db.jobs, batch);
    AfterAcksAt(InsertJobs(db.jobs, batch), acks);
    if kind == FinalRecord { InsertAcceptedAt(db.accepted, batch); }
  }

  /** A group commit keeps the ledger exact. */
  lemma CommitKeepsLedger(kind: Kind, db: Durable, cloud: set<Row>, batch: seq<Ticket>, acks: seq<Ack>, now: real)
    requires DurableOk(kind, db, cloud) && TicketsOk(batch) && Backed(db.jobs, acks, cloud)
    requires TicketPaths(batch) !! Completed(acks)
    requires CommitBatch(kind, db, batch, acks, now).Some?
    ensures DurableOk(kind, CommitBatch(kind, db, batch, acks, now).value, cloud)
  {
    hide Completed, AfterAcks, InsertJobs, InsertAccepted, Faithful;
    CommitAt(kind, db, batch, acks, now);
    var after := CommitBatch(kind, db, batch, acks, now).value;
    forall p | p in after.jobs ensures after.jobs[p].parent == p.parent && after.jobs[p].size == |after.jobs[p].payload.bytes| {
      if p !in db.jobs { var t :| t in batch && t.path == p; }
    }
    if kind == FinalRecord {
      forall p | p in after.accepted ensures AcceptedOk(after, cloud, p) {
        if p in db.accepted {
          assert AcceptedOk(db, cloud, p);
          assert p !in TicketPaths(batch) by { assert forall t :: t in batch ==> t.path !in db.accepted; }
        } else {
          var t :| t in batch && t.path == p;
          assert p !in db.jobs;
          FreshIsFaithful(t);
        }
      }
    }
  }

  lemma FreshIsFaithful(t: Ticket)
    requires t.payload.uid.Some?
    ensures Faithful(t.path, Acceptance(IdentityOf(t.path, t.payload), t.created))
  {
  }

  /** A commit loses nothing that was promised, and makes the whole batch durable. */
  lemma CommitSecures(kind: Kind, db: Durable, cloud: set<Row>, batch: seq<Ticket>, acks: seq<Ack>, now: real)
    requires Backed(db.jobs, acks, cloud) && TicketPaths(batch) !! Completed(acks)
    requires CommitBatch(kind, db, batch, acks, now).Some?
    ensures
      var after := CommitBatch(kind, db, batch, acks, now).value;
      && (forall r :: Secured(kind, db, cloud, r) ==> Secured(kind, after, cloud, r))
      && (forall t :: t in batch ==> Secured(kind, after, cloud, Row(t.path, t.payload)))
  {
    hide Completed, AfterAcks, InsertJobs, InsertAccepted;
    CommitAt(kind, db, batch, acks, now);
  }

  /** Reopening a database: the migration completes the ledger and forgets nothing. */
  lemma MigrateKeeps(kind: Kind, db: Durable, cloud: set<Row>, now: real)
    requires DurableOk(kind, db, cloud) && Migrate(kind, db, now).Some?
    ensures
      var after := Migrate(kind, db, now).value;
      && DurableOk(kind, after, cloud) && after.jobs == db.jobs
      && (kind == FinalRecord ==> after.jobs.Keys <= after.accepted.Keys)
      && (forall p :: p in db.accepted ==> p in after.accepted && after.accepted[p] == db.accepted[p])
      && (forall p :: p in db.published ==> p in after.published && after.published[p] == db.published[p])
      && (forall r :: Secured(kind, db, cloud, r) ==> Secured(kind, after, cloud, r))
  {
    if kind == FinalRecord {
      var after := Migrate(kind, db, now).value;
      forall p | p in after.accepted ensures AcceptedOk(after, cloud, p) {
        if p in db.accepted { assert AcceptedOk(db, cloud, p); }
      }
    }
  }
}
