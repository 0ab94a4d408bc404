/** The outbox as the program runs it: SQLite tables changed in chunked statements inside a
    transaction, and the in-memory mirror changed field by field, each method proved against
    the value model used by the run proofs. */
module CheckpointOutbox {
  import opened SpoolModel
  import opened SpoolIndex
  import opened SpoolLedger
  import opened SpoolRuns
  import opened SpoolSafety
  import opened SpoolSteps
  import opened SpoolPublish

  /** Bound parameters of one SQL statement. */
  const CHUNK: nat := 128

  function PathSet(paths: seq<Path>): set<Path>
  {
    set p | p in paths
  }

  /* ---------- deletions first, then retries ---------- */

  function RetryFailed(jobs: map<Path, Job>, acks: seq<Ack>): map<Path, Job>
  {
    if acks == [] then jobs
    else
      var front, last := RetryFailed(jobs, acks[..|acks| - 1]), acks[|acks| - 1];
      if last.failed then Retry(front, ClaimPaths(last.claimed), last.retryAt) else front
  }

  lemma {:induction false} DeletesCommute(jobs: map<Path, Job>, acks: seq<Ack>, gone: set<Path>)
    ensures RetryFailed(jobs - gone, acks) == RetryFailed(jobs, acks) - gone
    decreases |acks|
  {
    hide ClaimPaths;
    if acks != [] { DeletesCommute(jobs, acks[..|acks| - 1], gone); }
  }

  /** The transaction deletes first and retries afterwards; the mirror takes the outcomes one by one.
      Both reach the same rows. */
  lemma {:induction false} DeleteThenRetry(jobs: map<Path, Job>, acks: seq<Ack>)
    ensures AfterAcks(jobs, acks) == RetryFailed(jobs - Completed(acks), acks)
    decreases |acks|
  {
    hide ClaimPaths, Completed, Retry;
    if acks == [] {
      NothingCompleted();
      assert jobs - Completed([]) == jobs;
    } else {
      var front, last := acks[..|acks| - 1], acks[|acks| - 1];
      DeleteThenRetry(jobs, front);
      CompletedSnoc(acks);
      if last.failed {
        assert Completed(acks) == Completed(front);
      } else {
        DeletesCommute(jobs - Completed(front), front, ClaimPaths(last.claimed));
        MinusTwice(jobs, Completed(front), ClaimPaths(last.claimed));
      }
    }
  }

  lemma MinusTwice(jobs: map<Path, Job>, a: set<Path>, b: set<Path>)
    ensures jobs - a - b == jobs - (a + b)
  {
  }

  lemma RetryTwice(jobs: map<Path, Job>, a: set<Path>, b: set<Path>, at: real)
    requires a !! b
    ensures Retry(Retry(jobs, a, at), b, at) == Retry(jobs, a + b, at)
  {
  }

  class Tables {
    var jobs: map<Path, Job>
    var accepted: map<Path, Acceptance>
    var published: map<Path, real>

    ghost function State(): Durable
      reads this
    {
      Durable(jobs, accepted, published)
    }

    constructor (db: Durable)
      ensures State() == db
    {
      jobs, accepted, published := db.jobs, db.accepted, db.published;
    }

    /** Start-up of a final-record database; refuses a row whose payload names no record. */
    method MigrateLedger(kind: Kind, now: real) returns (ok: bool)
      modifies this`accepted, this`published
      ensures ok <==> Migrate(kind, old(State()), now).Some?
      ensures ok ==> State() == Migrate(kind, old(State()), now).value
      ensures !ok ==> State() == old(State())
    {
      ok := true;
      if kind == Checkpoint { return; }
      var rows, entries, left := jobs, accepted, jobs.Keys;
      while left != {}
        invariant left <= rows.Keys && Entered(rows, accepted, rows.Keys - left, entries)
        decreases |left|
      {
        var p :| p in left;
        if rows[p].payload.uid.None? {
          ok := false;
          return;
        }
        if p !in entries { entries := entries[p := Acceptance(IdentityOf(p, rows[p].payload), rows[p].created)]; }
        left := left - {p};
      }
      MigrationIs(State(), entries, now);
      published := map p | p in published.Keys + (entries.Keys - rows.Keys) :: if p in published then published[p] else now;
      accepted := entries;
    }

    /** One multi-row INSERT; a repeated primary key fails the statement. */
    method InsertJobRows(chunk: seq<Ticket>) returns (ok: bool)
      modifies this`jobs
      ensures ok <==> DistinctTickets(chunk) && forall t :: t in chunk ==> t.path !in old(jobs)
      ensures ok ==> jobs == InsertJobs(old(jobs), chunk)
    {
      ok := true;
      var i := 0;
      while i < |chunk|
        invariant i <= |chunk| && DistinctTickets(chunk[..i])
        invariant forall t :: t in chunk[..i] ==> t.path !in old(jobs)
        invariant jobs == InsertJobs(old(jobs), chunk[..i])
      {
        InsertJobsAt(old(jobs), chunk[..i]);
        if chunk[i].path in jobs {
          if chunk[i].path !in old(jobs) {
            var t :| t in chunk[..i] && t.path == chunk[i].path;
            var j :| 0 <= j < i && chunk[j] == t;
          }
          ok := false;
          return;
        }
        jobs := jobs[chunk[i].path := JobOf(chunk[i])];
        assert chunk[..i + 1] == chunk[..i] + [chunk[i]] && chunk[..i + 1][..i] == chunk[..i];
        i := i + 1;
      }
      assert chunk[..i] == chunk;
    }

    /** `_execute_cloud_rows`: bounded statements over an arbitrary number of distinct rows. */
    method ExecuteCloudRows(kind: Kind, paths: seq<Path>, retryAt: Option<real>, now: real)
      requires NoDuplicates(paths)
      modifies this`jobs, this`published
      ensures retryAt.Some? ==> jobs == Retry(old(jobs), PathSet(paths), retryAt.value) && published == old(published)
      ensures retryAt.None? ==> jobs == old(jobs) - PathSet(paths)
      ensures retryAt.None? ==>
        published == (if kind == FinalRecord then NewlyPublished(old(State()), PathSet(paths), now) else old(published))
    {
      var offset := 0;
      NothingToDo(State(), retryAt, now);
      assert paths[..0] == [];
      while offset < |paths|
        invariant offset <= |paths|
        invariant retryAt.Some? ==> jobs == Retry(old(jobs), PathSet(paths[..offset]), retryAt.value) && published == old(published)
        invariant retryAt.None? ==> jobs == old(jobs) - PathSet(paths[..offset])
        invariant retryAt.None? ==>
          published == (if kind == FinalRecord && offset > 0 then NewlyPublished(old(State()), PathSet(paths[..offset]), now)
                        else old(published))
      {
        var next := if offset + CHUNK < |paths| then offset + CHUNK else |paths|;
        var chunk := PathSet(paths[offset..next]);
        ghost var before := PathSet(paths[..offset]);
        assert paths[..next] == paths[..offset] + paths[offset..next];
        assert PathSet(paths[..next]) == before + chunk;
        match retryAt {
          case Some(at) =>
            RetryTwice(old(jobs), before, chunk, at);
            jobs := Retry(jobs, chunk, at);
          case None =>
            if kind == FinalRecord {
              published := NewlyPublished(Durable(jobs, accepted, published), chunk, now);
              PublishTwice(old(State()), before, chunk, now, offset > 0);
            }
            jobs := jobs - chunk;
            MinusTwice(old(jobs), before, chunk);
        }
        offset := next;
      }
      assert paths[..offset] == paths;
    }

    method InsertAcceptedRows(chunk: seq<Ticket>) returns (ok: bool)
      requires DistinctTickets(chunk)
      modifies this`accepted
      ensures ok <==> forall t :: t in chunk ==> t.path !in old(accepted) && t.payload.uid.Some?
      ensures ok ==> accepted == InsertAccepted(old(accepted), chunk)
    {
      ok := true;
      var i := 0;
      while i < |chunk|
        invariant i <= |chunk|
        invariant forall t :: t in chunk[..i] ==> t.path !in old(accepted) && t.payload.uid.Some?
        invariant accepted == InsertAccepted(old(accepted), chunk[..i])
      {
        InsertAcceptedAt(old(accepted), chunk[..i]);
        if chunk[i].payload.uid.None? || chunk[i].path in accepted {
          ok := false;
          return;
        }
        accepted := accepted[chunk[i].path := Acceptance(IdentityOf(chunk[i].path, chunk[i].payload), chunk[i].created)];
        assert chunk[..i + 1] == chunk[..i] + [chunk[i]] && chunk[..i + 1][..i] == chunk[..i];
        i := i + 1;
      }
      assert chunk[..i] == chunk;
    }

    /** The INSERT half of the transaction, 128 rows a statement. */
    method InsertBatch(kind: Kind, batch: seq<Ticket>) returns (ok: bool)
      modifies this`jobs, this`accepted
      ensures ok <==> Insertable(kind, old(State()), batch)
      ensures ok ==> jobs == InsertJobs(old(jobs), batch)
      ensures ok ==> accepted == (if kind == FinalRecord then InsertAccepted(old(accepted), batch) else old(accepted))
    {
      hide InsertJobs, InsertAccepted;
      ok := true;
      var offset := 0;
      ghost var db := State();
      PrefixInsertable(kind, db, batch, 0);
      NothingInserted(db, batch);
      while offset < |batch|
        invariant offset <= |batch| && published == db.published
        invariant Insertable(kind, db, batch[..offset])
        invariant jobs == InsertJobs(db.jobs, batch[..offset])
        invariant accepted == (if kind == FinalRecord then InsertAccepted(db.accepted, batch[..offset]) else db.accepted)
      {
        var next := if offset + CHUNK < |batch| then offset + CHUNK else |batch|;
        var chunk := batch[offset..next];
        PrefixInsertable(kind, db, batch, next);
        ChunkFits(kind, db, batch, offset, next);
        ChunkExtends(kind, db, batch, offset, next);
        ok := InsertJobRows(chunk);
        if !ok { return; }
        if kind == FinalRecord {
          ok := InsertAcceptedRows(chunk);
          if !ok { return; }
        }
        offset := next;
      }
      assert batch[..offset] == batch;
    }

    /** `_commit_database_batch`: all of the batch and all outcomes, or a rollback to the old tables. */
    method CommitBatch(kind: Kind, batch: seq<Ticket>, acks: seq<Ack>, now: real) returns (ok: bool)
      requires NoDuplicates(CompletedPaths(acks))
      requires forall a :: a in acks ==> NoDuplicates(PathList(a.claimed))
      modifies this
      ensures ok <==> SpoolModel.CommitBatch(kind, old(State()), batch, acks, now).Some?
      ensures ok ==> State() == SpoolModel.CommitBatch(kind, old(State()), batch, acks, now).value
      ensures !ok ==> State() == old(State())
    {
      var savedJobs, savedAccepted, savedPublished := jobs, accepted, published;
      ok := InsertBatch(kind, batch);
      if !ok {
        jobs, accepted, published := savedJobs, savedAccepted, savedPublished;
        return;
      }
      ghost var inserted := jobs;
      CompletedPathSet(acks);
      DeleteThenRetry(inserted, acks);
      ExecuteCloudRows(kind, CompletedPaths(acks), None, now);
      ghost var left, announced := jobs, published;
      var i := 0;
      assert acks[..0] == [];
      while i < |acks|
        invariant i <= |acks| && jobs == RetryFailed(left, acks[..i])
        invariant accepted == (if kind == FinalRecord then InsertAccepted(savedAccepted, batch) else savedAccepted)
        invariant published == announced
      {
        if acks[i].failed {
          PathListSet(acks[i].claimed);
          ExecuteCloudRows(kind, PathList(acks[i].claimed), Some(acks[i].retryAt), now);
        }
        assert acks[..i + 1] == acks[..i] + [acks[i]] && acks[..i + 1][..i] == acks[..i];
        i := i + 1;
      }
      assert acks[..i] == acks;
    }
  }

  /** The ledger after the listed outbox rows were looked at. */
  ghost predicate Entered(rows: map<Path, Job>, accepted: map<Path, Acceptance>, seen: set<Path>, entries: map<Path, Acceptance>)
  {
    && (forall p :: p in entries <==> p in accepted || p in seen)
    && (forall p :: p in accepted ==> entries[p] == accepted[p])
    && (forall p :: p in seen ==> p in rows && rows[p].payload.uid.Some?)
    && (forall p :: p in seen && p !in accepted ==>
          entries[p] == Acceptance(IdentityOf(p, rows[p].payload), rows[p].created))
  }

  lemma MigrationIs(db: Durable, entries: map<Path, Acceptance>, now: real)
    requires Entered(db.jobs, db.accepted, db.jobs.Keys, entries)
    ensures Migrate(FinalRecord, db, now) == Some(Durable(db.jobs, entries,
              map p | p in db.published.Keys + (entries.Keys - db.jobs.Keys) ::
                if p in db.published then db.published[p] else now))
  {
    var after := Migrate(FinalRecord, db, now).value;
    assert after.accepted == entries;
  }

  /** `[row[0] for ack in acknowledgements if ack.error_name is None for row in ack.claimed]`. */
  function CompletedPaths(acks: seq<Ack>): seq<Path>
  {
    if acks == [] then []
    else CompletedPaths(acks[..|acks| - 1]) +
         (if acks[|acks| - 1].failed then [] else PathList(acks[|acks| - 1].claimed))
  }

  lemma {:induction false} CompletedPathSet(acks: seq<Ack>)
    ensures PathSet(CompletedPaths(acks)) == Completed(acks)
    decreases |acks|
  {
    hide Completed;
    if acks == [] {
      NothingCompleted();
    } else {
      var front, last := acks[..|acks| - 1], acks[|acks| - 1];
      CompletedPathSet(front);
      CompletedSnoc(acks);
      PathListSet(last.claimed);
      SetOfBoth(CompletedPaths(front), if last.failed then [] else PathList(last.claimed));
    }
  }

  lemma SetOfBoth(a: seq<Path>, b: seq<Path>)
    ensures PathSet(a + b) == PathSet(a) + PathSet(b)
  {
  }

  lemma {:induction false} InsertJobsSplit(jobs: map<Path, Job>, a: seq<Ticket>, b: seq<Ticket>)
    ensures InsertJobs(InsertJobs(jobs, a), b) == InsertJobs(jobs, a + b)
    decreases |b|
  {
    if b == [] {
      assert a + b == a;
    } else {
      assert (a + b)[..|a + b| - 1] == a + b[..|b| - 1];
      InsertJobsSplit(jobs, a, b[..|b| - 1]);
    }
  }

  lemma {:induction false} InsertAcceptedSplit(accepted: map<Path, Acceptance>, a: seq<Ticket>, b: seq<Ticket>)
    requires forall t :: t in a + b ==> t.payload.uid.Some?
    ensures InsertAccepted(InsertAccepted(accepted, a), b) == InsertAccepted(accepted, a + b)
    decreases |b|
  {
    assert forall t :: t in b ==> t in a + b;
    if b == [] {
      assert a + b == a;
    } else {
      assert (a + b)[..|a + b| - 1] == a + b[..|b| - 1];
      assert b[|b| - 1] in b;
      InsertAcceptedSplit(accepted, a, b[..|b| - 1]);
    }
  }

  lemma DistinctSplit(batch: seq<Ticket>, offset: nat, next: nat)
    requires offset <= next <= |batch|
    ensures DistinctTickets(batch[..next]) <==>
      DistinctTickets(batch[..offset]) && DistinctTickets(batch[offset..next]) &&
      forall t :: t in batch[offset..next] ==> t.path !in TicketPaths(batch[..offset])
  {
    var front, chunk, all := batch[..offset], batch[offset..next], batch[..next];
    assert all == front + chunk;
    if DistinctTickets(all) {
      forall i, j | 0 <= i < j < |chunk| ensures chunk[i].path != chunk[j].path {
        assert all[offset + i] == chunk[i] && all[offset + j] == chunk[j];
      }
      forall t | t in chunk ensures t.path !in TicketPaths(front) {
        var j :| 0 <= j < |chunk| && chunk[j] == t;
        assert all[offset + j] == t;
      }
    } else {
      var i, j :| 0 <= i < j < |all| && all[i].path == all[j].path;
      if i < offset <= j {
        assert chunk[j - offset] == all[j] && front[i] == all[i];
      } else if offset <= i {
        assert chunk[j - offset] == all[j] && chunk[i - offset] == all[i];
      } else {
        assert front[i] == all[i] && front[j] == all[j];
      }
    }
  }

  /** A chunk goes into the tables as they stand exactly when it could have gone in with the rest. */
  lemma ChunkFits(kind: Kind, db: Durable, batch: seq<Ticket>, offset: nat, next: nat)
    requires offset <= next <= |batch| && Insertable(kind, db, batch[..offset])
    ensures
      var jobs, chunk := InsertJobs(db.jobs, batch[..offset]), batch[offset..next];
      Insertable(kind, db, batch[..next]) <==>
        DistinctTickets(chunk) && (forall t :: t in chunk ==> t.path !in jobs) &&
        (kind == FinalRecord ==> forall t :: t in chunk ==>
           t.path !in InsertAccepted(db.accepted, batch[..offset]) && t.payload.uid.Some?)
  {
    hide InsertJobs, InsertAccepted, DistinctTickets, KeysFree;
    var front, chunk := batch[..offset], batch[offset..next];
    assert batch[..next] == front + chunk;
    InsertableIff(kind, db, front);
    InsertableIff(kind, db, batch[..next]);
    DistinctSplit(batch, offset, next);
    KeysFreeSplit(kind, db, front, chunk);
    KeysFreeAfter(kind, db, front, chunk);
  }

  /** The part of `Insertable` that looks at the tables. */
  predicate KeysFree(kind: Kind, db: Durable, batch: seq<Ticket>)
  {
    && (forall t :: t in batch ==> t.path !in db.jobs)
    && (kind == FinalRecord ==> forall t :: t in batch ==> t.path !in db.accepted && t.payload.uid.Some?)
  }

  lemma InsertableIff(kind: Kind, db: Durable, batch: seq<Ticket>)
    ensures Insertable(kind, db, batch) <==> DistinctTickets(batch) && KeysFree(kind, db, batch)
  {
  }

  lemma KeysFreeSplit(kind: Kind, db: Durable, a: seq<Ticket>, b: seq<Ticket>)
    ensures KeysFree(kind, db, a + b) <==> KeysFree(kind, db, a) && KeysFree(kind, db, b)
  {
  }

  /** The tables as they stand after `a` accept exactly what the old ones accept and `a` does not hold. */
  lemma KeysFreeAfter(kind: Kind, db: Durable, a: seq<Ticket>, b: seq<Ticket>)
    requires DistinctTickets(a) && KeysFree(kind, db, a)
    ensures
      (forall t :: t in b ==> t.path !in InsertJobs(db.jobs, a)) &&
      (kind == FinalRecord ==> forall t :: t in b ==> t.path !in InsertAccepted(db.accepted, a) && t.payload.uid.Some?)
      <==> KeysFree(kind, db, b) && forall t :: t in b ==> t.path !in TicketPaths(a)
  {
    hide InsertJobs, InsertAccepted;
    InsertJobsAt(db.jobs, a);
    if kind == FinalRecord { InsertAcceptedAt(db.accepted, a); }
  }

  lemma NothingInserted(db: Durable, batch: seq<Ticket>)
    ensures InsertJobs(db.jobs, batch[..0]) == db.jobs && InsertAccepted(db.accepted, batch[..0]) == db.accepted
  {
  }

  lemma PrefixInsertable(kind: Kind, db: Durable, batch: seq<Ticket>, next: nat)
    requires next <= |batch|
    ensures Insertable(kind, db, batch) ==> Insertable(kind, db, batch[..next])
    ensures Insertable(kind, db, batch[..0])
  {
  }

  lemma ChunkExtends(kind: Kind, db: Durable, batch: seq<Ticket>, offset: nat, next: nat)
    requires offset <= next <= |batch| && Insertable(kind, db, batch[..offset])
    ensures
      var jobs, chunk := InsertJobs(db.jobs, batch[..offset]), batch[offset..next];
      && InsertJobs(jobs, chunk) == InsertJobs(db.jobs, batch[..next])
      && (kind == FinalRecord && (forall t :: t in chunk ==> t.payload.uid.Some?) ==>
            (forall t :: t in batch[..next] ==> t.payload.uid.Some?) &&
            InsertAccepted(InsertAccepted(db.accepted, batch[..offset]), chunk) == InsertAccepted(db.accepted, batch[..next]))
  {
    var front, chunk := batch[..offset], batch[offset..next];
    assert batch[..next] == front + chunk;
    InsertJobsSplit(db.jobs, front, chunk);
    if kind == FinalRecord && forall t :: t in chunk ==> t.payload.uid.Some? {
      InsertAcceptedSplit(db.accepted, front, chunk);
    }
  }

  lemma NothingToDo(db: Durable, retryAt: Option<real>, now: real)
    ensures PathSet([]) == {} && db.jobs - {} == db.jobs
    ensures retryAt.Some? ==> Retry(db.jobs, {}, retryAt.value) == db.jobs
  {
  }

  lemma PublishTwice(db: Durable, a: set<Path>, b: set<Path>, now: real, started: bool)
    requires !started ==> a == {}
    ensures
      var first := if started then NewlyPublished(db, a, now) else db.published;
      NewlyPublished(db.(published := first), b, now) == NewlyPublished(db, a + b, now)
  {
  }

  /* ---------- the mirror ---------- */

  lemma WithoutTwice(group: seq<Path>, a: set<Path>, b: set<Path>)
    ensures Without(Without(group, a), b) == Without(group, a + b)
  {
    if group != [] { WithoutTwice(group[1..], a, b); }
  }

  lemma WithoutNothing(group: seq<Path>)
    ensures Without(group, {}) == group
  {
    if group != [] { WithoutNothing(group[1..]); }
  }

  lemma BeforeIsTotal(a: Entry, b: Entry, c: Entry)
    ensures Before(a, b) || Before(b, a)
    ensures Before(a, b) && Before(b, c) ==> Before(a, c)
  {
  }

  /** `heap[0]`: the entry no other comes before. */
  method Top(heap: set<Entry>) returns (least: Entry)
    requires heap != {}
    ensures least in heap && forall e :: e in heap ==> Before(least, e)
  {
    least :| least in heap;
    var rest := heap - {least};
    while rest != {}
      invariant least in heap && rest <= heap
      invariant forall e :: e in heap - rest ==> Before(least, e)
      decreases |rest|
    {
      var e :| e in rest;
      ghost var was := least;
      if !Before(least, e) { least := e; }
      forall f | f in heap - (rest - {e}) ensures Before(least, f) {
        BeforeIsTotal(least, was, f);
        BeforeIsTotal(was, e, f);
      }
      rest := rest - {e};
    }
  }

  class CheckpointSpool {
    const kind: Kind
    const cfg: Config
    const db: Tables
    var jobs: map<Path, Job>
    var ready: map<Path, nat>
    var readyByParent: map<string, seq<Path>>
    var readyHeap: set<Entry>
    var readySerial: nat
    var inflight: set<Path>
    var activeWriters: int
    var pending: int
    var pendingBytes: int
    var localQueue: seq<Ticket>
    var localQueuedBytes: int
    var cloudAckQueue: seq<Ack>
    var accepted: map<Path, Identity>
    var acceptedByParent: map<string, set<string>>

    ghost function Mem(): Memory
      reads this
    {
      Memory(jobs, Sched(ready, readyByParent, readyHeap, readySerial), inflight, activeWriters, pending, pendingBytes,
             localQueue, localQueuedBytes, cloudAckQueue, accepted, acceptedByParent)
    }

    /** Reopening: the mirror is rebuilt from the tables, oldest row first. */
    constructor (kind: Kind, cfg: Config, db: Tables, order: seq<Path>)
      requires LoadOrder(order, db.jobs)
      ensures this.kind == kind && this.cfg == cfg && this.db == db
      ensures Mem() == Load(cfg, db.State(), order)
    {
      this.kind, this.cfg, this.db := kind, cfg, db;
      jobs, ready, readyByParent, readyHeap, readySerial := map[], map[], map[], {}, 0;
      inflight, activeWriters, pending, pendingBytes := {}, 0, 0, 0;
      localQueue, localQueuedBytes, cloudAckQueue := [], 0, [];
      accepted, acceptedByParent := map[], map[];
      new;
      LoadRows(order);
      LoadLedger();
    }

    method LoadRows(order: seq<Path>)
      requires Mem() == EMPTY && forall p :: p in order ==> p in db.jobs
      modifies this`jobs, this`ready, this`readyByParent, this`readyHeap, this`readySerial, this`pending, this`pendingBytes
      ensures Mem() == LoadJobs(cfg, db.jobs, order)
    {
      var i := 0;
      assert order[..0] == [];
      while i < |order|
        invariant i <= |order| && Mem() == LoadJobs(cfg, db.jobs, order[..i])
      {
        var path := order[i];
        ghost var front := Mem();
        jobs := jobs[path := db.jobs[path]];
        Schedule(path);
        pending, pendingBytes := pending + 1, pendingBytes + db.jobs[path].size;
        assert Mem() == AddJob(cfg, front, path, db.jobs[path]);
        LoadJobsSnoc(cfg, db.jobs, order, i);
        i := i + 1;
      }
      assert order[..i] == order;
    }

    method LoadLedger()
      requires accepted == map[] && acceptedByParent == map[]
      modifies this`accepted, this`acceptedByParent
      ensures accepted == Identities(db.accepted) && acceptedByParent == UidsByParent(accepted)
    {
      hide UidsByParent;
      var rows, left := db.accepted, db.accepted.Keys;
      NoUidsYet();
      while left != {}
        invariant left <= rows.Keys && accepted.Keys == rows.Keys - left
        invariant forall p :: p in accepted ==> accepted[p] == rows[p].identity
        invariant acceptedByParent == UidsByParent(accepted)
        decreases |left|
      {
        var path :| path in left;
        var id := rows[path].identity;
        RememberUids(accepted, path, id);
        accepted := accepted[path := id];
        var known := if path.parent in acceptedByParent then acceptedByParent[path.parent] else {};
        acceptedByParent := acceptedByParent[path.parent := known + {id.uid}];
        left := left - {path};
      }
      assert accepted == Identities(rows);
    }

    method Schedule(path: Path)
      requires path in jobs
      modifies this`ready, this`readyByParent, this`readyHeap, this`readySerial
      ensures Mem() == old(Mem()).(sched := SpoolModel.Schedule(cfg, old(Mem()).sched, path, jobs[path]))
    {
      var job := jobs[path];
      var serial := readySerial;
      readySerial := readySerial + 1;
      ready := ready[path := serial];
      var group := if path.parent in readyByParent then readyByParent[path.parent] else [];
      readyByParent := readyByParent[path.parent := group + [path]];
      readyHeap := readyHeap + {Entry(Due(cfg, job), job.created, serial, path)};
    }

    /** `_remember_accepted`; a payload that does not parse never gets this far. */
    method RememberAccepted(path: Path, payload: Payload)
      modifies this`accepted, this`acceptedByParent
      ensures Mem() == Remember(kind, old(Mem()), path, payload)
    {
      if kind == FinalRecord && payload.uid.Some? {
        accepted := accepted[path := IdentityOf(path, payload)];
        var known := if path.parent in acceptedByParent then acceptedByParent[path.parent] else {};
        acceptedByParent := acceptedByParent[path.parent := known + {payload.uid.value}];
      }
    }

    /** Compaction and lazy deletion: drop stale generations until the top is live. */
    method PruneHeap() returns (top: Option<Entry>)
      modifies this`readyHeap
      ensures Pruned(old(Mem()).sched, readyHeap)
      ensures top.None? ==> readyHeap == {}
      ensures top.Some? ==> top.value in readyHeap && Live(old(Mem()).sched, top.value)
      ensures top.Some? ==> forall e :: e in readyHeap ==> Before(top.value, e)
    {
      ghost var s := Mem().sched;
      var limit := if 2 * |ready| > 1024 then 2 * |ready| else 1024;
      if |readyHeap| > limit {
        readyHeap := set e | e in readyHeap && e.path in ready && ready[e.path] == e.serial;
      }
      top := None;
      while readyHeap != {} && top.None?
        invariant Pruned(s, readyHeap)
        invariant top.Some? ==> top.value in readyHeap && Live(s, top.value) && forall e :: e in readyHeap ==> Before(top.value, e)
        decreases |readyHeap|, top.None?
      {
        var e := Top(readyHeap);
        if e.path in ready && ready[e.path] == e.serial { top := Some(e); } else { readyHeap := readyHeap - {e}; }
      }
    }

    /** `_claim_batch`: prune the lazy heap, then take the earliest due row and its siblings. */
    method ClaimBatch(now: real) returns (claimed: seq<Claim>)
      requires Indexed(cfg, Mem())
      modifies this`readyHeap, this`ready, this`readyByParent, this`inflight, this`activeWriters
      ensures Claims(cfg, old(Mem()), now, Mem(), claimed)
    {
      hide Indexed, Before, Live, RemoveFromGroup, BatchFrom, Earliest, Pruned, PathSet, TakeClaims, Claims;
      ghost var m := Mem();
      var top := PruneHeap();
      claimed := [];
      ghost var heap := readyHeap;
      if top.None? {
        NothingReady(cfg, m);
        ClaimsNothing(cfg, m, now, heap);
        return;
      }
      TopIsEarliest(cfg, m, heap, top.value);
      if top.value.due > now {
        ClaimsNothing(cfg, m, now, heap);
        return;
      }
      var first := top.value.path;
      var paths := CollectSiblings(first, now);
      ClaimableBatch(cfg, m, first, now);
      claimed := Detach(first.parent, paths);
      ClaimsBatch(cfg, m, now, heap, first);
    }

    /** The rows of one parent that may travel with `first`. */
    method CollectSiblings(first: Path, now: real) returns (paths: seq<Path>)
      requires first.parent in readyByParent && forall p :: p in readyByParent[first.parent] ==> p in jobs
      ensures paths == BatchFrom(cfg, jobs, readyByParent, first, now)
    {
      paths := [first];
      if cfg.batchWriter && cfg.batchSize > 1 {
        var group := readyByParent[first.parent];
        var i := 0;
        while i < |group| && |paths| < cfg.batchSize
          invariant i <= |group| && 1 <= |paths| <= cfg.batchSize
          invariant [first] + Companions(jobs, group, first, now, cfg.batchSize - 1)
                 == paths + Companions(jobs, group[i..], first, now, cfg.batchSize - |paths|)
        {
          assert group[i..][0] == group[i] && group[i..][1..] == group[i + 1..];
          if group[i] != first && jobs[group[i]].retryAt <= now {
            assert paths + ([group[i]] + Companions(jobs, group[i + 1..], first, now, cfg.batchSize - |paths| - 1))
                == (paths + [group[i]]) + Companions(jobs, group[i + 1..], first, now, cfg.batchSize - |paths| - 1);
            paths := paths + [group[i]];
          }
          i := i + 1;
        }
      }
    }

    /** Move the chosen rows from ready to in flight. */
    method Detach(parent: string, paths: seq<Path>) returns (claimed: seq<Claim>)
      requires paths != [] && NoDuplicates(paths) && parent in readyByParent
      requires forall p :: p in paths ==> p in jobs && p in ready
      modifies this`ready, this`readyByParent, this`inflight, this`activeWriters
      ensures claimed == TakeClaims(jobs, paths)
      ensures ready == old(ready) - PathSet(paths)
      ensures readyByParent == RemoveFromGroup(old(readyByParent), parent, PathSet(paths))
      ensures inflight == old(inflight) + PathSet(paths) && activeWriters == old(activeWriters) + 1
    {
      hide PathSet, Without, NoDuplicates;
      claimed := [];
      var group, gone, i := readyByParent[parent], {}, 0;
      WithoutNothing(group);
      NoPaths(paths);
      while i < |paths|
        invariant i <= |paths| && gone == PathSet(paths[..i])
        invariant |claimed| == i && forall k :: 0 <= k < i ==> claimed[k] == TakeClaims(jobs, paths)[k]
        invariant ready == old(ready) - gone && group == Without(old(readyByParent)[parent], gone)
        invariant unchanged(`readyByParent) && unchanged(`inflight) && unchanged(`activeWriters)
      {
        var path := paths[i];
        var job := jobs[path];
        ready := ready - {path};
        WithoutTwice(old(readyByParent)[parent], gone, {path});
        group := Without(group, {path});
        claimed := claimed + [Claim(path, job.payload, job.size, job.attempts)];
        PathSetSnoc(paths, i);
        gone := gone + {path};
        i := i + 1;
      }
      assert paths[..i] == paths;
      readyByParent := if group == [] then readyByParent - {parent} else readyByParent[parent := group];
      inflight := inflight + gone;
      activeWriters := activeWriters + 1;
    }

    /* ---------- producers ---------- */

    /** The head of `enqueue_many`: one entry per path, or the refusal the caller gets without waiting. */
    method Prepare(rows: seq<Row>) returns (r: Prepared)
      ensures r.TooLarge? ==> exists row :: row in rows && |row.payload.bytes| > cfg.maxBytes
      ensures r.Conflicting? ==> exists a, b :: a in rows && b in rows && Clash(a, b)
      ensures r.Ready? || r.TooMany? ==>
        && (forall row :: row in rows ==> |row.payload.bytes| <= cfg.maxBytes)
        && (forall a, b :: a in rows && b in rows ==> !Clash(a, b))
      ensures r.Ready? ==> r.rows == OnePerPath(rows)
      ensures r.Ready? <==>
        && !r.TooLarge? && !r.Conflicting?
        && |OnePerPath(rows)| <= cfg.maxFiles && RowBytes(OnePerPath(rows)) <= cfg.maxBytes
    {
      hide OnePerPath, RowPaths, RowBytes;
      var prepared: seq<Row> := [];
      var seen: map<Path, Payload> := map[];
      ghost var first: map<Path, nat> := map[];
      var i := 0;
      NothingPrepared(rows);
      while i < |rows|
        invariant i <= |rows| && prepared == OnePerPath(rows[..i]) && seen.Keys == RowPaths(rows[..i]) == first.Keys
        invariant forall k :: 0 <= k < i ==> |rows[k].payload.bytes| <= cfg.maxBytes
        invariant forall k :: 0 <= k < i ==> rows[k].path in seen && seen[rows[k].path] == rows[k].payload
        invariant forall p :: p in seen ==> first[p] < i && rows[first[p]].path == p && rows[first[p]].payload == seen[p]
      {
        var row := rows[i];
        if |row.payload.bytes| > cfg.maxBytes { return TooLarge; }
        PreparedOneMore(rows, i);
        if row.path in seen {
          if seen[row.path] != row.payload {
            assert Clash(rows[first[row.path]], row);
            return Conflicting;
          }
        } else {
          prepared, seen := prepared + [row], seen[row.path := row.payload];
          first := first[row.path := i];
        }
        i := i + 1;
      }
      assert rows[..i] == rows;
      return if |prepared| > cfg.maxFiles || RowBytes(prepared) > cfg.maxBytes then TooMany else Ready(prepared);
    }

    /** One pass of `enqueue_many` over its prepared rows; the first conflict ends it. */
    method Classify(rows: seq<Row>) returns (conflict: bool, tickets: map<Path, nat>, unseen: seq<Row>)
      ensures conflict <==> exists row :: row in rows && Judge(Mem(), row) == Conflict
      ensures !conflict ==> tickets == TicketIds(Mem(), rows) && unseen == FreshRows(Mem(), rows)
    {
      hide FreshRows, TicketIds, FindTicket;
      conflict, tickets, unseen := false, map[], [];
      ghost var m := Mem();
      var i := 0;
      NothingSeen(m, rows);
      while i < |rows|
        invariant i <= |rows| && !conflict && Mem() == m
        invariant forall k :: 0 <= k < i ==> Judge(m, rows[k]) != Conflict
        invariant tickets == TicketIds(m, rows[..i]) && unseen == FreshRows(m, rows[..i])
      {
        var row := rows[i];
        SeenOneMore(m, rows, i);
        if row.path in accepted {
          if accepted[row.path].digest != Sha256(row.payload) { conflict := true; return; }
        } else {
          var queued := FindTicket(localQueue, row.path);
          if queued.Some? {
            if queued.value.payload != row.payload { conflict := true; return; }
            tickets := tickets[row.path := queued.value.id];
          } else if row.path in jobs {
            if jobs[row.path].payload != row.payload { conflict := true; return; }
          } else {
            unseen := unseen + [row];
          }
        }
        i := i + 1;
      }
      assert rows[..i] == rows;
    }

    /** The critical section of a batched `enqueue_many`: refuse, wait for room, or queue the new rows. */
    method TryEnqueue(rows: seq<Row>, base: nat, created: real) returns (outcome: Outcome)
      requires DistinctRows(rows)
      modifies this`localQueue, this`localQueuedBytes
      ensures outcome == Refused <==> exists row :: row in rows && Judge(old(Mem()), row) == Conflict
      ensures outcome.Awaiting? <==> Admissible(cfg, old(Mem()), rows)
      ensures outcome.Awaiting? ==>
        Mem() == Admit(old(Mem()), rows, base, created) && outcome.tickets == TicketIds(Mem(), rows)
      ensures !outcome.Awaiting? ==> Mem() == old(Mem())
    {
      hide FreshRows, TicketIds, Judge, NewTickets, RowBytes, DistinctRows;
      ghost var m := Mem();
      var conflict, tickets, unseen := Classify(rows);
      if conflict { return Refused; }
      if !(pending + |localQueue| + |unseen| <= cfg.maxFiles
           && pendingBytes + localQueuedBytes + RowBytes(unseen) <= cfg.maxBytes) { return NoRoom; }
      var i := 0;
      NothingQueued(m, tickets, unseen, base, created);
      while i < |unseen|
        invariant i <= |unseen| && localQueue == m.queue + NewTickets(unseen[..i], base, created)
        invariant localQueuedBytes == m.queuedBytes + RowBytes(unseen[..i])
        invariant tickets == WithNew(TicketIds(m, rows), unseen[..i], base)
      {
        QueuedOneMore(m, TicketIds(m, rows), unseen, i, base, created);
        var row := unseen[i];
        localQueue := localQueue + [Ticket(base + i, row.path, row.payload, |row.payload.bytes|, created)];
        localQueuedBytes := localQueuedBytes + |row.payload.bytes|;
        tickets := tickets[row.path := base + i];
        i := i + 1;
      }
      assert unseen[..i] == unseen;
      AllTicketed(m, rows, base, created);
      return Awaiting(tickets);
    }

    /** `_commit_single`: one row, one transaction, then the mirror. */
    method CommitSingle(row: Row, created: real) returns (ok: bool)
      modifies this, db
      ensures ok <==> SpoolModel.CommitBatch(kind, old(db.State()), [TicketOf(row, created)], [], created).Some?
      ensures ok ==> db.State() == SpoolModel.CommitBatch(kind, old(db.State()), [TicketOf(row, created)], [], created).value
      ensures ok ==> Mem() == AddJob(cfg, Remember(kind, old(Mem()), row.path, row.payload), row.path, JobOf(TicketOf(row, created)))
      ensures !ok ==> db.State() == old(db.State()) && Mem() == old(Mem())
    {
      hide SpoolModel.CommitBatch;
      ok := db.CommitBatch(kind, [TicketOf(row, created)], [], created);
      if !ok { return; }
      RememberAccepted(row.path, row.payload);
      jobs := jobs[row.path := JobOf(TicketOf(row, created))];
      Schedule(row.path);
      pending, pendingBytes := pending + 1, pendingBytes + |row.payload.bytes|;
    }

    /* ---------- the commit owner, after COMMIT ---------- */

    /** The committed tickets leave the queue and enter the mirror. */
    method PublishBatch(n: nat)
      requires n <= |localQueue|
      modifies this
      ensures Mem() == PublishTickets(kind, cfg, old(Mem()), n)
    {
      hide PublishTicket, TicketBytes;
      ghost var m := Mem();
      var batch := localQueue[..n];
      var i := 0;
      ghost var done := m;
      NoBytes(batch);
      while i < n
        invariant i <= n && done == PublishTickets(kind, cfg, m, i)
        invariant done.pending == pending + i && done.pendingBytes == pendingBytes + TicketBytes(batch[..i])
        invariant Mem() == done.(pending := pending, pendingBytes := pendingBytes)
        invariant unchanged(`pending) && unchanged(`pendingBytes)
      {
        assert done.queue[0] == batch[i];
        PublishedTicket(kind, cfg, done, pending, pendingBytes);
        done := PublishTicket(kind, cfg, done);
        PublishOne();
        BytesSnoc(batch, i);
        i := i + 1;
      }
      assert batch[..i] == batch;
      pending, pendingBytes := pending + n, pendingBytes + TicketBytes(batch);
    }

    method PublishOne()
      requires localQueue != []
      modifies this`localQueue, this`localQueuedBytes, this`jobs, this`accepted, this`acceptedByParent
      modifies this`ready, this`readyByParent, this`readyHeap, this`readySerial
      ensures Mem() == PublishTicket(kind, cfg, old(Mem())).(pending := pending, pendingBytes := pendingBytes)
    {
      hide Remember, SpoolModel.Schedule;
      var t := localQueue[0];
      RememberBeside(kind, Mem().(queue := localQueue[1..], queuedBytes := localQueuedBytes - t.size), t, jobs[t.path := JobOf(t)]);
      localQueue, localQueuedBytes := localQueue[1..], localQueuedBytes - t.size;
      jobs := jobs[t.path := JobOf(t)];
      RememberAccepted(t.path, t.payload);
      Schedule(t.path);
    }

    /** `_apply_cloud_ack`: forget a confirmed batch, or schedule a failed one again. */
    method ApplyCloudAck(ack: Ack)
      requires NoDuplicates(PathList(ack.claimed)) && forall p :: p in PathList(ack.claimed) ==> p in jobs
      modifies this`jobs, this`inflight, this`activeWriters, this`pending, this`pendingBytes
      modifies this`ready, this`readyByParent, this`readyHeap, this`readySerial
      ensures Mem() == ApplyAck(cfg, old(Mem()), ack)
    {
      hide PathList, NoDuplicates, ScheduleAll, ClaimBytes, PathSet, ClaimPaths, Retry;
      var paths := PathList(ack.claimed);
      ghost var m := Mem();
      PathListSet(ack.claimed);
      ListedPaths(ack.claimed);
      inflight := inflight - PathSet(paths);
      activeWriters := activeWriters - 1;
      if ack.failed {
        Reschedule(paths, ack.retryAt);
      } else {
        pending := pending - |ack.claimed|;
        Forget(paths);
        pendingBytes := pendingBytes - ClaimBytes(ack.claimed);
      }
    }

    method Forget(paths: seq<Path>)
      requires NoDuplicates(paths) && forall p :: p in paths ==> p in jobs
      modifies this`jobs
      ensures Mem() == old(Mem()).(jobs := old(jobs) - PathSet(paths))
    {
      var i := 0;
      NoPaths(paths);
      while i < |paths|
        invariant i <= |paths| && jobs == old(jobs) - PathSet(paths[..i])
      {
        PathSetSnoc(paths, i);
        MinusTwice(old(jobs), PathSet(paths[..i]), {paths[i]});
        jobs := jobs - {paths[i]};
        i := i + 1;
      }
      assert paths[..i] == paths;
    }

    method Reschedule(paths: seq<Path>, at: real)
      requires NoDuplicates(paths) && forall p :: p in paths ==> p in jobs
      modifies this`jobs, this`ready, this`readyByParent, this`readyHeap, this`readySerial
      ensures Mem() == old(Mem()).(jobs := Retry(old(jobs), PathSet(paths), at),
                                   sched := ScheduleAll(cfg, old(Mem()).sched, Retry(old(jobs), PathSet(paths), at), paths))
    {
      hide PathSet, ScheduleAll;
      ghost var m := Mem();
      ghost var final := Retry(m.jobs, PathSet(paths), at);
      var i := 0;
      NoPaths(paths);
      NothingScheduled(cfg, m.sched, final, paths);
      RetryNothing(m.jobs, at);
      while i < |paths|
        invariant i <= |paths| && jobs == Retry(m.jobs, PathSet(paths[..i]), at)
        invariant Mem().sched == ScheduleAll(cfg, m.sched, final, paths[..i])
      {
        var path := paths[i];
        RetriedOneMore(m.jobs, paths, i, at);
        ScheduledOneMore(cfg, m.sched, final, paths, i);
        jobs := jobs[path := jobs[path].(attempts := jobs[path].attempts + 1, retryAt := at)];
        Schedule(path);
        i := i + 1;
      }
      assert paths[..i] == paths;
    }

    /** `_fail_local_queue`: the queued tickets are answered with an error and dropped. */
    method FailLocalQueue() returns (failed: seq<Ticket>)
      modifies this`localQueue, this`localQueuedBytes
      ensures failed == old(localQueue)
      ensures Mem() == old(Mem()).(queue := [], queuedBytes := 0)
    {
      failed := localQueue;
      localQueue, localQueuedBytes := [], 0;
    }
  }

  datatype Prepared = TooLarge | Conflicting | TooMany | Ready(rows: seq<Row>)

  predicate Clash(a: Row, b: Row)
  {
    a.path == b.path && a.payload != b.payload
  }

  /** The dictionary of `enqueue_many`, in insertion order: the first row of each path. */
  function OnePerPath(rows: seq<Row>): seq<Row>
  {
    if rows == [] then []
    else
      var front, row := OnePerPath(rows[..|rows| - 1]), rows[|rows| - 1];
      if row.path in RowPaths(front) then front else front + [row]
  }

  lemma NothingPrepared(rows: seq<Row>)
    ensures OnePerPath(rows[..0]) == [] && RowPaths(rows[..0]) == {}
  {
  }

  lemma PreparedOneMore(rows: seq<Row>, i: nat)
    requires i < |rows|
    ensures OnePerPath(rows[..i + 1]) == OnePerPath(rows[..i]) + if rows[i].path in RowPaths(rows[..i]) then [] else [rows[i]]
    ensures RowPaths(rows[..i + 1]) == RowPaths(rows[..i]) + {rows[i].path}
  {
    assert rows[..i + 1] == rows[..i] + [rows[i]] && rows[..i + 1][..i] == rows[..i];
    OnePerPathSame(rows[..i], rows[i].path);
  }

  lemma {:induction false} OnePerPathSame(rows: seq<Row>, p: Path)
    ensures p in RowPaths(OnePerPath(rows)) <==> p in RowPaths(rows)
    decreases |rows|
  {
    if rows != [] {
      OnePerPathSame(rows[..|rows| - 1], p);
      OnePerPathSame(rows[..|rows| - 1], rows[|rows| - 1].path);
      assert rows == rows[..|rows| - 1] + [rows[|rows| - 1]];
    }
  }

  /** What is prepared satisfies what a run's `Enqueue` step asks, and stands for every row of the call. */
  lemma {:induction false} OnePerPathIsDistinct(rows: seq<Row>)
    requires forall a, b :: a in rows && b in rows ==> !Clash(a, b)
    ensures DistinctRows(OnePerPath(rows))
    ensures forall row :: row in OnePerPath(rows) <==> row in rows
    decreases |rows|
  {
    if rows != [] {
      var front, row := rows[..|rows| - 1], rows[|rows| - 1];
      assert rows == front + [row];
      OnePerPathIsDistinct(front);
      if row.path in RowPaths(OnePerPath(front)) {
        var same :| same in OnePerPath(front) && same.path == row.path;
        assert !Clash(same, row);
      }
    }
  }

  datatype Outcome = Refused | NoRoom | Awaiting(tickets: map<Path, nat>)

  lemma NothingSeen(m: Memory, rows: seq<Row>)
    ensures TicketIds(m, rows[..0]) == map[] && FreshRows(m, rows[..0]) == []
  {
    assert rows[..0] == [];
  }

  lemma SeenOneMore(m: Memory, rows: seq<Row>, i: nat)
    requires i < |rows|
    ensures
      var row, t := rows[i], FindTicket(m.queue, rows[i].path);
      && TicketIds(m, rows[..i + 1]) ==
           (if row.path !in m.accepted && t.Some? then TicketIds(m, rows[..i])[row.path := t.value.id] else TicketIds(m, rows[..i]))
      && FreshRows(m, rows[..i + 1]) == FreshRows(m, rows[..i]) + (if Judge(m, row) == Fresh then [row] else [])
  {
    hide FindTicket;
    assert rows[..i + 1] == rows[..i] + [rows[i]] && rows[..i + 1][..i] == rows[..i];
  }

  function WithNew(tickets: map<Path, nat>, unseen: seq<Row>, base: nat): map<Path, nat>
  {
    if unseen == [] then tickets
    else WithNew(tickets, unseen[..|unseen| - 1], base)[unseen[|unseen| - 1].path := base + |unseen| - 1]
  }

  lemma NothingQueued(m: Memory, tickets: map<Path, nat>, unseen: seq<Row>, base: nat, created: real)
    ensures m.queue + NewTickets(unseen[..0], base, created) == m.queue && RowBytes(unseen[..0]) == 0
    ensures WithNew(tickets, unseen[..0], base) == tickets
  {
  }

  lemma {:induction false} RowBytesSnoc(rows: seq<Row>, row: Row)
    ensures RowBytes(rows + [row]) == RowBytes(rows) + |row.payload.bytes|
  {
    if rows == [] {
      assert (rows + [row])[1..] == [];
    } else {
      RowBytesSnoc(rows[1..], row);
      assert (rows + [row])[1..] == rows[1..] + [row];
    }
  }

  lemma QueuedOneMore(m: Memory, tickets: map<Path, nat>, unseen: seq<Row>, i: nat, base: nat, created: real)
    requires i < |unseen|
    ensures
      var t := Ticket(base + i, unseen[i].path, unseen[i].payload, |unseen[i].payload.bytes|, created);
      && m.queue + NewTickets(unseen[..i + 1], base, created) == m.queue + NewTickets(unseen[..i], base, created) + [t]
      && RowBytes(unseen[..i + 1]) == RowBytes(unseen[..i]) + t.size
      && WithNew(tickets, unseen[..i + 1], base) == WithNew(tickets, unseen[..i], base)[t.path := t.id]
  {
    assert unseen[..i + 1] == unseen[..i] + [unseen[i]] && unseen[..i + 1][..i] == unseen[..i];
    RowBytesSnoc(unseen[..i], unseen[i]);
  }

  lemma {:induction false} FindAppended(queue: seq<Ticket>, more: seq<Ticket>, p: Path)
    ensures FindTicket(queue + more, p) == if FindTicket(queue, p).Some? then FindTicket(queue, p) else FindTicket(more, p)
  {
    if queue == [] {
      assert queue + more == more;
    } else {
      FindAppended(queue[1..], more, p);
      assert (queue + more)[1..] == queue[1..] + more;
    }
  }

  lemma {:induction false} FindNew(unseen: seq<Row>, base: nat, created: real, p: Path)
    requires DistinctRows(unseen)
    ensures
      var t := FindTicket(NewTickets(unseen, base, created), p);
      && (t.Some? <==> exists i :: 0 <= i < |unseen| && unseen[i].path == p)
      && (t.Some? ==> 0 <= t.value.id - base < |unseen| && unseen[t.value.id - base].path == p)
  {
    var tickets := NewTickets(unseen, base, created);
    var t := FindTicket(tickets, p);
    if t.Some? {
      var i :| 0 <= i < |tickets| && tickets[i] == t.value;
      assert unseen[i].path == p;
    }
    forall i | 0 <= i < |unseen| && unseen[i].path == p ensures t.Some? {
      assert tickets[i].path == p && tickets[i] in tickets;
    }
  }

  lemma {:induction false} WithNewAt(tickets: map<Path, nat>, unseen: seq<Row>, base: nat, p: Path)
    requires DistinctRows(unseen)
    ensures
      var r := WithNew(tickets, unseen, base);
      && (p in r <==> p in tickets || exists i :: 0 <= i < |unseen| && unseen[i].path == p)
      && (forall i :: 0 <= i < |unseen| && unseen[i].path == p ==> p in r && r[p] == base + i)
      && ((forall i :: 0 <= i < |unseen| ==> unseen[i].path != p) && p in tickets ==> r[p] == tickets[p])
    decreases |unseen|
  {
    if unseen != [] {
      var k := |unseen| - 1;
      WithNewAt(tickets, unseen[..k], base, p);
      assert forall i :: 0 <= i < k ==> unseen[..k][i] == unseen[i];
      if unseen[k].path == p {
        assert exists i :: 0 <= i < |unseen| && unseen[i].path == p;
      } else if exists i :: 0 <= i < |unseen| && unseen[i].path == p {
        var i :| 0 <= i < |unseen| && unseen[i].path == p;
        assert unseen[..k][i].path == p;
      }
    }
  }

  /** Every row that must be waited for has exactly the ticket that sits in the queue. */
  lemma AllTicketed(m: Memory, rows: seq<Row>, base: nat, created: real)
    requires DistinctRows(rows)
    ensures WithNew(TicketIds(m, rows), FreshRows(m, rows), base) == TicketIds(Admit(m, rows, base, created), rows)
  {
    hide FreshRows, FindTicket, NewTickets, WithNew, RowBytes, TicketIds, Admit, DistinctRows;
    var built, expected := WithNew(TicketIds(m, rows), FreshRows(m, rows), base), TicketIds(Admit(m, rows, base, created), rows);
    forall p
      ensures p in built <==> p in expected
      ensures p in built ==> built[p] == expected[p]
    {
      TicketedAt(m, rows, base, created, p);
    }
  }

  lemma TicketedAt(m: Memory, rows: seq<Row>, base: nat, created: real, p: Path)
    requires DistinctRows(rows)
    ensures
      var built, expected := WithNew(TicketIds(m, rows), FreshRows(m, rows), base), TicketIds(Admit(m, rows, base, created), rows);
      && (p in built <==> p in expected)
      && (p in built ==> built[p] == expected[p])
  {
    hide FreshRows, FindTicket, NewTickets, WithNew, RowBytes, DistinctRows;
    var unseen := FreshRows(m, rows);
    FreshAreDistinct(m, rows);
    WithNewAt(TicketIds(m, rows), unseen, base, p);
    FindNew(unseen, base, created, p);
    FindAppended(m.queue, NewTickets(unseen, base, created), p);
    var known := FindTicket(m.queue, p);
    if exists i :: 0 <= i < |unseen| && unseen[i].path == p {
      var i :| 0 <= i < |unseen| && unseen[i].path == p;
      assert unseen[i] in unseen && Judge(m, unseen[i]) == Fresh;
      var t := FindTicket(NewTickets(unseen, base, created), p).value;
      SamePlace(unseen, i, t.id - base);
    } else if known.None? {
      assert forall row :: row in rows && row.path == p ==> p in m.accepted || row !in unseen;
    }
  }

  lemma SamePlace(rows: seq<Row>, i: nat, j: nat)
    requires DistinctRows(rows) && i < |rows| && j < |rows| && rows[i].path == rows[j].path
    ensures i == j
  {
  }

  lemma {:induction false} FreshAreDistinct(m: Memory, rows: seq<Row>)
    requires DistinctRows(rows)
    ensures DistinctRows(FreshRows(m, rows))
    decreases |rows|
  {
    hide Judge;
    if rows != [] {
      var front := rows[..|rows| - 1];
      FreshAreDistinct(m, front);
      forall r | r in FreshRows(m, front) ensures r.path != rows[|rows| - 1].path {
        var i :| 0 <= i < |front| && front[i] == r;
      }
    }
  }

  lemma RememberBeside(kind: Kind, m: Memory, t: Ticket, jobs: map<Path, Job>)
    ensures Remember(kind, m.(jobs := jobs), t.path, t.payload) == Remember(kind, m, t.path, t.payload).(jobs := jobs)
    ensures Remember(kind, m, t.path, t.payload).sched == m.sched && Remember(kind, m, t.path, t.payload).jobs == m.jobs
  {
  }

  /** The counters are brought up to date once, after the loop. */
  lemma PublishedTicket(kind: Kind, cfg: Config, m: Memory, pending: int, pendingBytes: int)
    requires m.queue != []
    ensures
      var after := PublishTicket(kind, cfg, m);
      && after.pending == m.pending + 1 && after.pendingBytes == m.pendingBytes + m.queue[0].size
      && PublishTicket(kind, cfg, m.(pending := pending, pendingBytes := pendingBytes)).(pending := pending, pendingBytes := pendingBytes)
           == after.(pending := pending, pendingBytes := pendingBytes)
  {
  }

  lemma NoBytes(batch: seq<Ticket>)
    ensures TicketBytes(batch[..0]) == 0
  {
  }

  lemma {:induction false} BytesSnoc(batch: seq<Ticket>, i: nat)
    requires i < |batch|
    ensures TicketBytes(batch[..i + 1]) == TicketBytes(batch[..i]) + batch[i].size
  {
    if i > 0 {
      BytesSnoc(batch[1..], i - 1);
      assert batch[..i + 1][1..] == batch[1..][..i] && batch[..i][1..] == batch[1..][..i - 1];
    }
  }

  lemma ListedPaths(claimed: seq<Claim>)
    ensures PathSet(PathList(claimed)) == ClaimPaths(claimed)
  {
    PathListSet(claimed);
  }

  lemma NothingScheduled(cfg: Config, s: Sched, jobs: map<Path, Job>, paths: seq<Path>)
    ensures ScheduleAll(cfg, s, jobs, paths[..0]) == s
  {
  }

  lemma RetryNothing(jobs: map<Path, Job>, at: real)
    ensures Retry(jobs, {}, at) == jobs
  {
  }

  lemma RetriedOneMore(jobs: map<Path, Job>, paths: seq<Path>, i: nat, at: real)
    requires i < |paths| && NoDuplicates(paths) && paths[i] in jobs
    ensures
      var before, p := Retry(jobs, PathSet(paths[..i]), at), paths[i];
      && p in before
      && before[p := before[p].(attempts := before[p].attempts + 1, retryAt := at)] == Retry(jobs, PathSet(paths[..i + 1]), at)
      && before[p] == jobs[p]
      && Retry(jobs, PathSet(paths[..i + 1]), at)[p] == Retry(jobs, PathSet(paths), at)[p]
  {
    PathSetSnoc(paths, i);
    assert paths[i] !in paths[..i];
    assert paths[i] in paths;
  }

  lemma ScheduledOneMore(cfg: Config, s: Sched, jobs: map<Path, Job>, paths: seq<Path>, i: nat)
    requires i < |paths| && paths[i] in jobs
    ensures ScheduleAll(cfg, s, jobs, paths[..i + 1])
         == SpoolModel.Schedule(cfg, ScheduleAll(cfg, s, jobs, paths[..i]), paths[i], jobs[paths[i]])
  {
    assert paths[..i + 1] == paths[..i] + [paths[i]] && paths[..i + 1][..i] == paths[..i];
  }

  /** Nothing is due: only the heap has been pruned. */
  lemma ClaimsNothing(cfg: Config, m: Memory, now: real, heap: set<Entry>)
    requires Pruned(m.sched, heap)
    requires forall p :: p in m.sched.ready && p in m.jobs ==> Due(cfg, m.jobs[p]) > now
    ensures Claims(cfg, m, now, m.(sched := m.sched.(heap := heap)), [])
  {
  }

  /** The earliest row is due: it and its siblings have moved. */
  lemma ClaimsBatch(cfg: Config, m: Memory, now: real, heap: set<Entry>, first: Path)
    requires Pruned(m.sched, heap) && Earliest(cfg, m.jobs, m.sched, first) && Due(cfg, m.jobs[first]) <= now
    requires forall p :: p in BatchFrom(cfg, m.jobs, m.sched.byParent, first, now) ==> p in m.jobs
    ensures
      var paths := BatchFrom(cfg, m.jobs, m.sched.byParent, first, now);
      var gone := PathSet(paths);
      Claims(cfg, m, now,
        m.(sched := Sched(m.sched.ready - gone, RemoveFromGroup(m.sched.byParent, first.parent, gone), heap, m.sched.serial),
           inflight := m.inflight + gone, activeWriters := m.activeWriters + 1),
        TakeClaims(m.jobs, paths))
  {
    hide Pruned, Earliest, Companions;
    var paths := BatchFrom(cfg, m.jobs, m.sched.byParent, first, now);
    assert paths[0] == first;
    assert TakeClaims(m.jobs, paths)[0].path == first;
    assert PathSet(paths) <= m.jobs.Keys;
  }

  lemma NoPaths(paths: seq<Path>)
    ensures PathSet(paths[..0]) == {}
  {
  }

  lemma PathSetSnoc(paths: seq<Path>, i: nat)
    requires i < |paths|
    ensures PathSet(paths[..i + 1]) == PathSet(paths[..i]) + {paths[i]}
  {
    assert paths[..i + 1] == paths[..i] + [paths[i]];
  }

  lemma ClaimableBatch(cfg: Config, m: Memory, first: Path, now: real)
    requires Indexed(cfg, m) && first in m.sched.ready
    ensures
      var paths := BatchFrom(cfg, m.jobs, m.sched.byParent, first, now);
      paths != [] && NoDuplicates(paths) && forall p :: p in paths ==> p in m.jobs && p in m.sched.ready
  {
    hide RowsOk, Counted, BatchFrom, HeapOk;
    BatchIsOneParent(cfg, m.jobs, m.sched, first, now);
    BatchHasHead(cfg, m.jobs, m.sched, first, now);
  }

  lemma BatchHasHead(cfg: Config, jobs: map<Path, Job>, s: Sched, first: Path, now: real)
    ensures BatchFrom(cfg, jobs, s.byParent, first, now) != []
  {
  }

  lemma LoadJobsSnoc(cfg: Config, jobs: map<Path, Job>, order: seq<Path>, i: nat)
    requires i < |order| && order[i] in jobs
    ensures LoadJobs(cfg, jobs, order[..i + 1]) == AddJob(cfg, LoadJobs(cfg, jobs, order[..i]), order[i], jobs[order[i]])
  {
    assert order[..i + 1] == order[..i] + [order[i]] && order[..i + 1][..i] == order[..i];
  }

  lemma NoUidsYet()
    ensures UidsByParent(map[]) == map[]
  {
  }

  lemma NothingReady(cfg: Config, m: Memory)
    requires Indexed(cfg, m) && Pruned(m.sched, {})
    ensures m.sched.ready == map[]
  {
    hide Grouped, RowsOk, Counted;
    assert forall p :: p in m.sched.ready ==> Live(m.sched, EntryOf(cfg, m.jobs, m.sched, p));
  }

  lemma TopIsEarliest(cfg: Config, m: Memory, heap: set<Entry>, top: Entry)
    requires Indexed(cfg, m) && Pruned(m.sched, heap) && top in heap && Live(m.sched, top)
    requires forall e :: e in heap ==> Before(top, e)
    ensures top.path in m.jobs && top.due == Due(cfg, m.jobs[top.path]) && Earliest(cfg, m.jobs, m.sched, top.path)
    ensures forall p :: p in m.sched.ready && p in m.jobs ==> top.due <= Due(cfg, m.jobs[p])
    ensures top.path.parent in m.sched.byParent && forall p :: p in m.sched.byParent[top.path.parent] ==> p in m.jobs
  {
    hide RowsOk, Counted;
    assert GroupOk(m.sched, top.path.parent);
    forall p | p in m.sched.ready && p in m.jobs ensures Before(top, EntryOf(cfg, m.jobs, m.sched, p)) {
      assert Live(m.sched, EntryOf(cfg, m.jobs, m.sched, p));
    }
  }
}
