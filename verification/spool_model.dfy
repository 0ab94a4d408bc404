/** The outbox of scripts/checkpoint_spool.py as values: the durable SQLite tables, the
    volatile mirror kept beside them, and the effect of each critical section on both.
    Time is a real, SHA-256 an injective constructor, and a payload carries the result of
    parsing its own `provenance.input_record_uid`. */
module SpoolModel {

  datatype Option<+T> = None | Some(value: T)

  newtype Byte = i: int | 0 <= i < 256

  datatype Kind = Checkpoint | FinalRecord

  datatype Path = Path(parent: string, name: string)

  datatype Payload = Payload(bytes: seq<Byte>, uid: Option<string>)

  datatype Digest = Sha256(payload: Payload)

  datatype Row = Row(path: Path, payload: Payload)

  datatype Job = Job(payload: Payload, size: nat, created: real, parent: string, attempts: nat, retryAt: real)

  datatype Identity = Identity(uid: string, digest: Digest, parent: string)

  datatype Acceptance = Acceptance(identity: Identity, created: real)

  /** The tables `jobs`, `accepted` and `published`. */
  datatype Durable = Durable(jobs: map<Path, Job>, accepted: map<Path, Acceptance>, published: map<Path, real>)

  datatype Ticket = Ticket(id: nat, path: Path, payload: Payload, size: nat, created: real)

  datatype Claim = Claim(path: Path, payload: Payload, size: nat, attempts: nat)

  datatype Ack = Ack(worker: nat, claimed: seq<Claim>, failed: bool, retryAt: real)

  datatype Entry = Entry(due: real, created: real, serial: nat, path: Path)

  datatype Config = Config(batched: bool, batchWriter: bool, batchSize: nat, batchDelay: real,
                           localBatchSize: nat, maxFiles: nat, maxBytes: nat)

  /** The claim index: `ready`, `ready_by_parent`, `ready_heap` and `ready_serial`. */
  datatype Sched = Sched(ready: map<Path, nat>, byParent: map<string, seq<Path>>, heap: set<Entry>, serial: nat)

  /** The in-memory mirror guarded by the condition's mutex. */
  datatype Memory = Memory(
    jobs: map<Path, Job>, sched: Sched, inflight: set<Path>, activeWriters: int, pending: int, pendingBytes: int,
    queue: seq<Ticket>, queuedBytes: int, acks: seq<Ack>,
    accepted: map<Path, Identity>, uidsByParent: map<string, set<string>>)

  const EMPTY: Memory := Memory(map[], Sched(map[], map[], {}, 0), {}, 0, 0, 0, [], 0, [], map[], map[])

  /* ---------- sequences of tickets, rows, claims ---------- */

  function TicketPaths(tickets: seq<Ticket>): (r: set<Path>)
  {
    set t | t in tickets :: t.path
  }

  function RowPaths(rows: seq<Row>): set<Path>
  {
    set r | r in rows :: r.path
  }

  function ClaimPaths(claimed: seq<Claim>): set<Path>
  {
    set c | c in claimed :: c.path
  }

  ghost predicate DistinctTickets(tickets: seq<Ticket>)
  {
    forall i, j :: 0 <= i < j < |tickets| ==> tickets[i].path != tickets[j].path
  }

  function TicketBytes(tickets: seq<Ticket>): nat
  {
    if tickets == [] then 0 else tickets[0].size + TicketBytes(tickets[1..])
  }

  function RowBytes(rows: seq<Row>): nat
  {
    if rows == [] then 0 else |rows[0].payload.bytes| + RowBytes(rows[1..])
  }

  function FindTicket(tickets: seq<Ticket>, p: Path): (r: Option<Ticket>)
    ensures r.Some? ==> r.value in tickets && r.value.path == p
    ensures r.None? ==> p !in TicketPaths(tickets)
  {
    if tickets == [] then None
    else if tickets[0].path == p then Some(tickets[0])
    else
      var rest := FindTicket(tickets[1..], p);
      assert tickets == [tickets[0]] + tickets[1..];
      rest
  }

  /* ---------- durable state ---------- */

  function JobOf(t: Ticket): Job
  {
    Job(t.payload, t.size, t.created, t.path.parent, 0, 0.0)
  }

  function IdentityOf(p: Path, v: Payload): Identity
    requires v.uid.Some?
  {
    Identity(v.uid.value, Sha256(v), p.parent)
  }

  /** `UPDATE jobs SET attempts=attempts+1, retry_at=? WHERE path IN (...)`. */
  function Retry(jobs: map<Path, Job>, paths: set<Path>, at: real): map<Path, Job>
  {
    map p | p in jobs ::
      if p in paths then jobs[p].(attempts := jobs[p].attempts + 1, retryAt := at) else jobs[p]
  }

  /** What one cloud acknowledgement does to the job table. */
  function AfterAck(jobs: map<Path, Job>, ack: Ack): map<Path, Job>
  {
    if ack.failed then Retry(jobs, ClaimPaths(ack.claimed), ack.retryAt)
    else jobs - ClaimPaths(ack.claimed)
  }

  function AfterAcks(jobs: map<Path, Job>, acks: seq<Ack>): map<Path, Job>
  {
    if acks == [] then jobs
    else AfterAck(AfterAcks(jobs, acks[..|acks| - 1]), acks[|acks| - 1])
  }

  /** Paths the cloud writer has confirmed. */
  function Completed(acks: seq<Ack>): set<Path>
  {
    set a, p | a in acks && !a.failed && p in ClaimPaths(a.claimed) :: p
  }

  function InsertJobs(jobs: map<Path, Job>, batch: seq<Ticket>): map<Path, Job>
  {
    if batch == [] then jobs
    else
      var t := batch[|batch| - 1];
      InsertJobs(jobs, batch[..|batch| - 1])[t.path := JobOf(t)]
  }

  function InsertAccepted(accepted: map<Path, Acceptance>, batch: seq<Ticket>): map<Path, Acceptance>
    requires forall t :: t in batch ==> t.payload.uid.Some?
  {
    if batch == [] then accepted
    else
      var t := batch[|batch| - 1];
      InsertAccepted(accepted, batch[..|batch| - 1])[t.path := Acceptance(IdentityOf(t.path, t.payload), t.created)]
  }

  /** `INSERT OR IGNORE INTO published SELECT ... FROM accepted WHERE path IN paths`. */
  function NewlyPublished(db: Durable, paths: set<Path>, now: real): map<Path, real>
  {
    map p | p in db.accepted.Keys * paths + db.published.Keys :: if p in db.published then db.published[p] else now
  }

  /** The primary keys of a plain INSERT must be new, and a final record must parse. */
  predicate Insertable(kind: Kind, db: Durable, batch: seq<Ticket>)
  {
    && (forall i, j :: 0 <= i < j < |batch| ==> batch[i].path != batch[j].path)
    && (forall t :: t in batch ==> t.path !in db.jobs)
    && (kind == FinalRecord ==> forall t :: t in batch ==> t.path !in db.accepted && t.payload.uid.Some?)
  }

  /** The whole group-commit transaction: all of it, or nothing. */
  function CommitBatch(kind: Kind, db: Durable, batch: seq<Ticket>, acks: seq<Ack>, now: real): Option<Durable>
  {
    if !Insertable(kind, db, batch) then None
    else
      var jobs := AfterAcks(InsertJobs(db.jobs, batch), acks);
      if kind == Checkpoint then Some(db.(jobs := jobs))
      else
        var accepted := InsertAccepted(db.accepted, batch);
        var published := NewlyPublished(db.(accepted := accepted), Completed(acks), now);
        Some(Durable(jobs, accepted, published))
  }

  /** Start-up migration of a final-record database. */
  function Migrate(kind: Kind, db: Durable, now: real): Option<Durable>
  {
    if kind == Checkpoint then Some(db)
    else if exists p :: p in db.jobs && db.jobs[p].payload.uid.None? then None
    else
      var accepted := map p | p in db.accepted.Keys + db.jobs.Keys ::
        if p in db.accepted then db.accepted[p]
        else Acceptance(IdentityOf(p, db.jobs[p].payload), db.jobs[p].created);
      Some(Durable(db.jobs, accepted,
        map p | p in db.published.Keys + (accepted.Keys - db.jobs.Keys) ::
          if p in db.published then db.published[p] else now))
  }

  /* ---------- volatile state ---------- */

  function Due(cfg: Config, job: Job): real
  {
    var first := if cfg.batchWriter then job.created + cfg.batchDelay else job.created;
    if job.retryAt > first then job.retryAt else first
  }

  function Append(groups: map<string, seq<Path>>, p: Path): map<string, seq<Path>>
  {
    groups[p.parent := (if p.parent in groups then groups[p.parent] else []) + [p]]
  }

  /** `_schedule`: a new generation of a path becomes claimable. */
  function Schedule(cfg: Config, s: Sched, p: Path, job: Job): Sched
  {
    Sched(s.ready[p := s.serial], Append(s.byParent, p), s.heap + {Entry(Due(cfg, job), job.created, s.serial, p)},
          s.serial + 1)
  }

  /** A row that is now durable enters the mirror. */
  function AddJob(cfg: Config, m: Memory, p: Path, job: Job): Memory
  {
    m.(jobs := m.jobs[p := job], sched := Schedule(cfg, m.sched, p, job),
       pending := m.pending + 1, pendingBytes := m.pendingBytes + job.size)
  }

  /** `_remember_accepted`. */
  function Remember(kind: Kind, m: Memory, p: Path, v: Payload): Memory
  {
    if kind == Checkpoint || v.uid.None? then m
    else
      var known := if p.parent in m.uidsByParent then m.uidsByParent[p.parent] else {};
      m.(accepted := m.accepted[p := IdentityOf(p, v)], uidsByParent := m.uidsByParent[p.parent := known + {v.uid.value}])
  }

  function PublishTicket(kind: Kind, cfg: Config, m: Memory): Memory
    requires m.queue != []
  {
    var t := m.queue[0];
    AddJob(cfg, Remember(kind, m.(queue := m.queue[1..], queuedBytes := m.queuedBytes - t.size), t.path, t.payload),
           t.path, JobOf(t))
  }

  /** Publication of the first `n` queued tickets, after their transaction committed. */
  function PublishTickets(kind: Kind, cfg: Config, m: Memory, n: nat): (r: Memory)
    requires n <= |m.queue|
    ensures r.queue == m.queue[n..] && r.acks == m.acks
    decreases n
  {
    if n == 0 then m else PublishTicket(kind, cfg, PublishTickets(kind, cfg, m, n - 1))
  }

  function ScheduleAll(cfg: Config, s: Sched, jobs: map<Path, Job>, paths: seq<Path>): Sched
  {
    if paths == [] then s
    else
      var front, p := ScheduleAll(cfg, s, jobs, paths[..|paths| - 1]), paths[|paths| - 1];
      if p in jobs then Schedule(cfg, front, p, jobs[p]) else front
  }

  function PathList(claimed: seq<Claim>): (r: seq<Path>)
    ensures |r| == |claimed| && forall i :: 0 <= i < |r| ==> r[i] == claimed[i].path
  {
    seq(|claimed|, i requires 0 <= i < |claimed| => claimed[i].path)
  }

  function ClaimBytes(claimed: seq<Claim>): nat
  {
    if claimed == [] then 0 else claimed[0].size + ClaimBytes(claimed[1..])
  }

  /** `_apply_cloud_ack`: forget a confirmed batch, or put a failed one back. */
  function ApplyAck(cfg: Config, m: Memory, ack: Ack): Memory
  {
    var held, jobs := ClaimPaths(ack.claimed), AfterAck(m.jobs, ack);
    if ack.failed then
      m.(jobs := jobs, inflight := m.inflight - held, activeWriters := m.activeWriters - 1,
         sched := ScheduleAll(cfg, m.sched, jobs, PathList(ack.claimed)))
    else
      m.(jobs := jobs, inflight := m.inflight - held, activeWriters := m.activeWriters - 1,
         pending := m.pending - |ack.claimed|, pendingBytes := m.pendingBytes - ClaimBytes(ack.claimed))
  }

  /** The first `k` queued outcomes, in order, each leaving the queue once applied. */
  function ApplyAcks(cfg: Config, m: Memory, k: nat): (r: Memory)
    requires k <= |m.acks|
    ensures r.acks == m.acks[k..] && r.queue == m.queue && r.queuedBytes == m.queuedBytes
    ensures r.accepted == m.accepted && r.uidsByParent == m.uidsByParent
    decreases k
  {
    if k == 0 then m
    else
      var front := ApplyAcks(cfg, m, k - 1);
      ApplyAck(cfg, front, front.acks[0]).(acks := front.acks[1..])
  }

  /* ---------- claiming ---------- */

  predicate Before(a: Entry, b: Entry)
  {
    a.due < b.due || (a.due == b.due && (a.created < b.created || (a.created == b.created && a.serial <= b.serial)))
  }

  predicate Live(s: Sched, e: Entry)
  {
    e.path in s.ready && s.ready[e.path] == e.serial
  }

  function EntryOf(cfg: Config, jobs: map<Path, Job>, s: Sched, p: Path): Entry
    requires p in jobs && p in s.ready
  {
    Entry(Due(cfg, jobs[p]), jobs[p].created, s.ready[p], p)
  }

  /** The siblings of `first` that may travel with it, oldest generation first. */
  function Companions(jobs: map<Path, Job>, group: seq<Path>, first: Path, now: real, room: nat): seq<Path>
  {
    if room == 0 || group == [] then []
    else if group[0] != first && group[0] in jobs && jobs[group[0]].retryAt <= now
      then [group[0]] + Companions(jobs, group[1..], first, now, room - 1)
    else Companions(jobs, group[1..], first, now, room)
  }

  function BatchFrom(cfg: Config, jobs: map<Path, Job>, groups: map<string, seq<Path>>, first: Path, now: real): seq<Path>
  {
    [first] + if cfg.batchWriter && cfg.batchSize > 1 && first.parent in groups
              then Companions(jobs, groups[first.parent], first, now, cfg.batchSize - 1) else []
  }

  function Without(group: seq<Path>, gone: set<Path>): (r: seq<Path>)
    ensures forall p :: p in r <==> p in group && p !in gone
  {
    if group == [] then []
    else
      var rest := Without(group[1..], gone);
      assert group == [group[0]] + group[1..];
      if group[0] in gone then rest else [group[0]] + rest
  }

  function RemoveFromGroup(groups: map<string, seq<Path>>, parent: string, gone: set<Path>): map<string, seq<Path>>
  {
    if parent !in groups then groups
    else
      var left := Without(groups[parent], gone);
      if left == [] then groups - {parent} else groups[parent := left]
  }

  function TakeClaims(jobs: map<Path, Job>, paths: seq<Path>): (r: seq<Claim>)
    requires forall p :: p in paths ==> p in jobs
    ensures |r| == |paths|
    ensures forall i :: 0 <= i < |r| ==>
      r[i] == Claim(paths[i], jobs[paths[i]].payload, jobs[paths[i]].size, jobs[paths[i]].attempts)
  {
    seq(|paths|, i requires 0 <= i < |paths| =>
      Claim(paths[i], jobs[paths[i]].payload, jobs[paths[i]].size, jobs[paths[i]].attempts))
  }

  /** The head of the schedule: no live generation comes before it. */
  ghost predicate Earliest(cfg: Config, jobs: map<Path, Job>, s: Sched, p: Path)
  {
    && p in s.ready && p in jobs
    && forall q :: q in s.ready && q in jobs ==> Before(EntryOf(cfg, jobs, s, p), EntryOf(cfg, jobs, s, q))
  }

  /** Stale heap entries may be dropped at any time, live ones never. */
  ghost predicate Pruned(s: Sched, heap: set<Entry>)
  {
    heap <= s.heap && forall e :: e in s.heap && Live(s, e) ==> e in heap
  }

  /** What `_claim_batch` may do.  Which stale heap entries it drops is left open. */
  ghost predicate Claims(cfg: Config, m: Memory, now: real, m': Memory, claimed: seq<Claim>)
  {
    && Pruned(m.sched, m'.sched.heap)
    && if claimed == [] then
         && m' == m.(sched := m.sched.(heap := m'.sched.heap))
         && forall p :: p in m.sched.ready && p in m.jobs ==> Due(cfg, m.jobs[p]) > now
       else
         var first := claimed[0].path;
         var paths := BatchFrom(cfg, m.jobs, m.sched.byParent, first, now);
         var gone := set p | p in paths;
         && Earliest(cfg, m.jobs, m.sched, first)
         && Due(cfg, m.jobs[first]) <= now
         && gone <= m.jobs.Keys
         && claimed == TakeClaims(m.jobs, paths)
         && m' == m.(sched := Sched(m.sched.ready - gone, RemoveFromGroup(m.sched.byParent, first.parent, gone),
                                    m'.sched.heap, m.sched.serial),
                     inflight := m.inflight + gone, activeWriters := m.activeWriters + 1)
  }

  /* ---------- admission ---------- */

  datatype Verdict = Conflict | Duplicate | Queued(ticket: Ticket) | Fresh

  function Judge(m: Memory, row: Row): Verdict
  {
    if row.path in m.accepted then
      if m.accepted[row.path].digest != Sha256(row.payload) then Conflict else Duplicate
    else
      match FindTicket(m.queue, row.path)
      case Some(t) => if t.payload != row.payload then Conflict else Queued(t)
      case None =>
        if row.path in m.jobs then
          if m.jobs[row.path].payload != row.payload then Conflict else Duplicate
        else Fresh
  }

  function FreshRows(m: Memory, rows: seq<Row>): (r: seq<Row>)
    ensures forall row :: row in r <==> row in rows && Judge(m, row) == Fresh
  {
    if rows == [] then []
    else
      var front := FreshRows(m, rows[..|rows| - 1]);
      assert rows == rows[..|rows| - 1] + [rows[|rows| - 1]];
      if Judge(m, rows[|rows| - 1]) == Fresh then front + [rows[|rows| - 1]] else front
  }

  predicate HasRoom(cfg: Config, m: Memory, unseen: seq<Row>)
  {
    && m.pending + |m.queue| + |unseen| <= cfg.maxFiles
    && m.pendingBytes + m.queuedBytes + RowBytes(unseen) <= cfg.maxBytes
  }

  predicate Admissible(cfg: Config, m: Memory, rows: seq<Row>)
  {
    && (forall row :: row in rows ==> Judge(m, row) != Conflict)
    && HasRoom(cfg, m, FreshRows(m, rows))
  }

  function NewTickets(unseen: seq<Row>, base: nat, created: real): (r: seq<Ticket>)
    ensures |r| == |unseen|
    ensures forall i :: 0 <= i < |r| ==>
      r[i] == Ticket(base + i, unseen[i].path, unseen[i].payload, |unseen[i].payload.bytes|, created)
  {
    seq(|unseen|, i requires 0 <= i < |unseen| =>
      Ticket(base + i, unseen[i].path, unseen[i].payload, |unseen[i].payload.bytes|, created))
  }

  /** Queue the new rows; their tickets take the identifiers from `base` on. */
  function Admit(m: Memory, rows: seq<Row>, base: nat, created: real): Memory
  {
    var unseen := FreshRows(m, rows);
    m.(queue := m.queue + NewTickets(unseen, base, created), queuedBytes := m.queuedBytes + RowBytes(unseen))
  }

  ghost predicate DistinctRows(rows: seq<Row>)
  {
    forall i, j :: 0 <= i < j < |rows| ==> rows[i].path != rows[j].path
  }
}
