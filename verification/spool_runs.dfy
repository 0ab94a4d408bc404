/** Every run of the outbox: producers, the commit owner, cloud workers, crashes and restarts,
    interleaved at the points where the condition's mutex is released. */
module SpoolRuns {
  import opened SpoolModel
  import opened SpoolIndex
  import opened SpoolLedger

  /** Where a busy cloud worker stands; an idle one has no stage. */
  datatype Stage =
    | Uploading(claimed: seq<Claim>)
    | Uploaded(claimed: seq<Claim>, failed: bool, retryAt: real)
    | Reported(claimed: seq<Claim>)
    | Dead(claimed: seq<Claim>)

  datatype TicketState = Waiting | Done | Failed

  datatype TicketRecord = TicketRecord(row: Row, state: TicketState)

  /** A producer inside `enqueue_many`, waiting for the tickets of its new or queued rows. */
  datatype Caller = Caller(rows: seq<Row>, tickets: map<Path, nat>)

  /** The commit owner: the batch is always the first `n` tickets and the first `k` outcomes. */
  datatype Phase = Open | Selected(n: nat, k: nat) | Committed(n: nat, k: nat) | Closed

  datatype Process = Process(cfg: Config, mem: Memory, phase: Phase, workers: map<nat, Stage>, tickets: seq<TicketRecord>,
                             callers: map<nat, Caller>, stopping: bool, failure: bool, room: nat, roomBytes: nat)

  /** `cloud` and `acked` are histories: objects written, and rows whose `enqueue_many` returned.  `late` are the
      writes processes had under way when they crashed; any of them may still arrive. */
  datatype World = World(kind: Kind, db: Durable, cloud: set<Row>, acked: set<Row>, proc: Option<Process>, late: set<Row>)

  datatype Step =
    | Start(cfg: Config, order: seq<Path>, now: real)
    | Crash
    | Land(row: Row)
    | Stop
    | Enqueue(caller: nat, rows: seq<Row>, created: real)
    | EnqueueDirect(rows: seq<Row>, created: real, count: nat)
    | Return(caller: nat)
    | Select
    | Commit(now: real)
    | CommitFails
    | Publish
    | CloseOwner
    | Take(worker: nat, now: real, after: Memory, claimed: seq<Claim>)
    | Upload(worker: nat, landed: set<Row>, failed: bool, now: real)
    | Report(worker: nat)
    | Settle(worker: nat, now: real)
    | Die(worker: nat)

  function ClaimRows(claimed: seq<Claim>): set<Row>
  {
    set c | c in claimed :: Row(c.path, c.payload)
  }

  /** The cloud writes under way. */
  function Flying(workers: map<nat, Stage>): set<Row>
  {
    set v, r | v in workers && workers[v].Uploading? && r in ClaimRows(workers[v].claimed) :: r
  }

  function MaxAttempts(claimed: seq<Claim>): nat
  {
    if claimed == [] then 0
    else
      var rest := MaxAttempts(claimed[1..]);
      if claimed[0].attempts > rest then claimed[0].attempts else rest
  }

  function PowerOfTwo(n: nat): real
  {
    if n == 0 then 1.0 else 2.0 * PowerOfTwo(n - 1)
  }

  /** The retry delay in seconds: doubling with the attempts, never more than a minute. */
  function Backoff(attempts: nat): (seconds: real)
  {
    var power := PowerOfTwo(if attempts + 1 < 6 then attempts + 1 else 6);
    if power < 60.0 then power else 60.0
  }

  /** Two seconds after the first failure, twice as long after each further one, one minute from the sixth on. */
  lemma BackoffDoubles(attempts: nat)
    ensures Backoff(0) == 2.0 && Backoff(5) == 60.0
    ensures attempts < 4 ==> Backoff(attempts + 1) == 2.0 * Backoff(attempts)
    ensures attempts >= 5 ==> Backoff(attempts) == 60.0
    ensures 2.0 <= Backoff(attempts) <= Backoff(attempts + 1) <= 60.0
  {
    assert PowerOfTwo(1) == 2.0;
    assert PowerOfTwo(2) == 4.0;
    assert PowerOfTwo(3) == 8.0;
    assert PowerOfTwo(4) == 16.0;
    assert PowerOfTwo(5) == 32.0;
    assert PowerOfTwo(6) == 64.0;
  }

  function OutcomeOf(worker: nat, s: Stage): Ack
    requires s.Uploaded?
  {
    Ack(worker, s.claimed, s.failed, s.retryAt)
  }

  /* ---------- recovery ---------- */

  ghost predicate LoadOrder(order: seq<Path>, jobs: map<Path, Job>)
  {
    && NoDuplicates(order)
    && (forall p :: p in order <==> p in jobs)
    && forall i, j :: 0 <= i < j < |order| && order[i] in jobs && order[j] in jobs ==>
      jobs[order[i]].created <= jobs[order[j]].created
  }

  function LoadJobs(cfg: Config, jobs: map<Path, Job>, order: seq<Path>): Memory
  {
    if order == [] then EMPTY
    else
      var front, p := LoadJobs(cfg, jobs, order[..|order| - 1]), order[|order| - 1];
      if p in jobs then AddJob(cfg, front, p, jobs[p]) else front
  }

  function Identities(accepted: map<Path, Acceptance>): map<Path, Identity>
  {
    map p | p in accepted :: accepted[p].identity
  }

  function Uids(accepted: map<Path, Identity>, parent: string): set<string>
  {
    set q | q in accepted && q.parent == parent :: accepted[q].uid
  }

  function UidsByParent(accepted: map<Path, Identity>): map<string, set<string>>
  {
    map d | d in (set p | p in accepted :: p.parent) :: Uids(accepted, d)
  }

  /** The mirror rebuilt from the tables at start-up. */
  function Load(cfg: Config, db: Durable, order: seq<Path>): Memory
  {
    var accepted := Identities(db.accepted);
    LoadJobs(cfg, db.jobs, order).(accepted := accepted, uidsByParent := UidsByParent(accepted))
  }

  /* ---------- the critical sections ---------- */

  function MarkFrom(tickets: seq<TicketRecord>, queue: seq<Ticket>, state: TicketState): (r: seq<TicketRecord>)
    ensures |r| == |tickets|
    ensures forall i :: 0 <= i < |r| ==> r[i].row == tickets[i].row
    ensures forall i :: 0 <= i < |r| ==> r[i].state == if exists t :: t in queue && t.id == i then state else tickets[i].state
  {
    seq(|tickets|, i requires 0 <= i < |tickets| =>
      if exists t :: t in queue && t.id == i then tickets[i].(state := state) else tickets[i])
  }

  /** `_fail_local_queue`: every queued ticket is answered with an error. */
  function FailQueue(p: Process): Process
  {
    p.(tickets := MarkFrom(p.tickets, p.mem.queue, Failed), mem := p.mem.(queue := [], queuedBytes := 0))
  }

  /** The owner leaves its loop: tickets and outcomes are answered with an error. */
  function CloseQueues(p: Process): Process
  {
    var q := FailQueue(p);
    q.(phase := Closed, stopping := true, mem := q.mem.(acks := []))
  }

  function TicketIds(m: Memory, rows: seq<Row>): map<Path, nat>
  {
    map r | r in rows && r.path !in m.accepted && FindTicket(m.queue, r.path).Some? ::
      r.path := FindTicket(m.queue, r.path).value.id
  }

  function Records(batch: seq<Row>): (r: seq<TicketRecord>)
    ensures |r| == |batch| && forall i :: 0 <= i < |r| ==> r[i] == TicketRecord(batch[i], Waiting)
  {
    seq(|batch|, i requires 0 <= i < |batch| => TicketRecord(batch[i], Waiting))
  }

  function Admission(p: Process, caller: nat, rows: seq<Row>, created: real): Process
  {
    var mem := Admit(p.mem, rows, |p.tickets|, created);
    p.(mem := mem, tickets := p.tickets + Records(FreshRows(p.mem, rows)),
       callers := p.callers[caller := Caller(rows, TicketIds(mem, rows))])
  }

  function TicketOf(r: Row, created: real): Ticket
  {
    Ticket(0, r.path, r.payload, |r.payload.bytes|, created)
  }

  /** `_commit_single` for each new row in turn; stops with None where a transaction fails. */
  function CommitDirect(kind: Kind, cfg: Config, db: Durable, m: Memory, batch: seq<Row>, created: real): Option<(Durable, Memory)>
  {
    if batch == [] then Some((db, m))
    else
      var r := batch[|batch| - 1];
      match CommitDirect(kind, cfg, db, m, batch[..|batch| - 1], created)
      case None => None
      case Some(front) =>
        match CommitBatch(kind, front.0, [TicketOf(r, created)], [], created)
        case None => None
        case Some(db') =>
          Some((db', AddJob(cfg, Remember(kind, front.1, r.path, r.payload), r.path, JobOf(TicketOf(r, created)))))
  }

  function Reporters(acks: seq<Ack>): set<nat>
  {
    set a | a in acks :: a.worker
  }

  /** After the COMMIT: tickets leave the queue, outcomes are applied, everyone is woken. */
  function Publication(kind: Kind, p: Process): Process
    requires p.phase.Committed? && p.phase.n <= |p.mem.queue| && p.phase.k <= |p.mem.acks|
  {
    var n, k := p.phase.n, p.phase.k;
    p.(mem := ApplyAcks(p.cfg, PublishTickets(kind, p.cfg, p.mem, n), k), phase := Open,
       tickets := MarkFrom(p.tickets, p.mem.queue[..n], Done),
       workers := p.workers - Reporters(p.mem.acks[..k]))
  }

  function Smaller(a: nat, b: nat): nat
  {
    if a < b then a else b
  }

  function Larger(a: nat, b: nat): nat
  {
    if a > b then a else b
  }

  /** The owner picks a prefix of the queue and all queued outcomes, then releases the mutex. */
  function Selection(p: Process): Process
  {
    var q := if p.stopping then FailQueue(p) else p;
    var n, k := Smaller(q.cfg.localBatchSize, |q.mem.queue|), |q.mem.acks|;
    if n == 0 && k == 0 then q else q.(phase := Selected(n, k))
  }

  ghost predicate Enabled(w: World, step: Step)
  {
    match step
    case Start(cfg, order, now) =>
      w.proc.None? && cfg.localBatchSize > 0 && Migrate(w.kind, w.db, now).Some? && LoadOrder(order, w.db.jobs)
    case Land(row) => row in w.late
    case _ => w.proc.Some? && EnabledIn(w.kind, w.db, w.proc.value, step)
  }

  ghost predicate EnabledIn(kind: Kind, db: Durable, p: Process, step: Step)
  {
    match step
    case Start(_, _, _) => false
    case Land(_) => false
    case Crash => true
    case Stop => true
    case Enqueue(caller, rows, created) =>
      p.cfg.batched && !p.stopping && caller !in p.callers && DistinctRows(rows) && Admissible(p.cfg, p.mem, rows)
    case EnqueueDirect(rows, created, count) =>
      && !p.cfg.batched && !p.stopping && DistinctRows(rows) && Admissible(p.cfg, p.mem, rows)
      && count <= |FreshRows(p.mem, rows)|
      && CommitDirect(kind, p.cfg, db, p.mem, FreshRows(p.mem, rows)[..count], created).Some?
    case Return(caller) =>
      caller in p.callers && forall q :: q in p.callers[caller].tickets ==>
        p.callers[caller].tickets[q] < |p.tickets| && p.tickets[p.callers[caller].tickets[q]].state != Waiting
    case Select => p.cfg.batched && p.phase == Open && !p.failure
    case Commit(now) =>
      && p.phase.Selected? && p.phase.n <= |p.mem.queue| && p.phase.k <= |p.mem.acks|
      && CommitBatch(kind, db, p.mem.queue[..p.phase.n], p.mem.acks[..p.phase.k], now).Some?
    case CommitFails => p.phase.Selected?
    case Publish => p.phase.Committed? && p.phase.n <= |p.mem.queue| && p.phase.k <= |p.mem.acks|
    case CloseOwner => p.cfg.batched && p.phase == Open && (p.failure || (p.stopping && p.mem.acks == [] && p.mem.activeWriters == 0))
    case Take(worker, now, after, claimed) => !p.stopping && worker !in p.workers && Claims(p.cfg, p.mem, now, after, claimed)
    case Upload(worker, landed, failed, now) =>
      && worker in p.workers && p.workers[worker].Uploading? && landed <= ClaimRows(p.workers[worker].claimed)
      && (!failed ==> landed == ClaimRows(p.workers[worker].claimed))
    case Report(worker) => p.cfg.batched && !p.failure && worker in p.workers && p.workers[worker].Uploaded?
    case Settle(worker, now) =>
      && !p.cfg.batched && worker in p.workers && p.workers[worker].Uploaded?
      && CommitBatch(kind, db, [], [OutcomeOf(worker, p.workers[worker])], now).Some?
    case Die(worker) =>
      worker in p.workers && (p.workers[worker].Uploaded? || (p.workers[worker].Reported? && forall a :: a in p.mem.acks ==> a.worker != worker))
  }

  ghost function Do(w: World, step: Step): World
    requires Enabled(w, step)
  {
    match step
    case Start(cfg, order, now) =>
      var db := Migrate(w.kind, w.db, now).value;
      var backlog := Total(Sizes(db.jobs));
      w.(db := db, proc := Some(Process(cfg, Load(cfg, db, order), Open, map[], [], map[], false, false,
                                        Larger(cfg.maxFiles, |db.jobs|), Larger(cfg.maxBytes, backlog))))
    case Crash => w.(proc := None, late := w.late + Flying(w.proc.value.workers))
    case Land(row) => w.(cloud := w.cloud + {row})
    case Stop => w.(proc := Some(w.proc.value.(stopping := true)))
    case Enqueue(caller, rows, created) => w.(proc := Some(Admission(w.proc.value, caller, rows, created)))
    case EnqueueDirect(rows, created, count) =>
      var p := w.proc.value;
      var batch := FreshRows(p.mem, rows);
      var done := CommitDirect(w.kind, p.cfg, w.db, p.mem, batch[..count], created).value;
      w.(db := done.0, proc := Some(p.(mem := done.1)),
         acked := if count == |batch| then w.acked + set r | r in rows else w.acked)
    case Return(caller) =>
      var p := w.proc.value;
      var c := p.callers[caller];
      w.(proc := Some(p.(callers := p.callers - {caller})),
         acked := if forall q :: q in c.tickets ==> p.tickets[c.tickets[q]].state == Done
                  then w.acked + set r | r in c.rows else w.acked)
    case Select => w.(proc := Some(Selection(w.proc.value)))
    case Commit(now) =>
      var p := w.proc.value;
      w.(db := CommitBatch(w.kind, w.db, p.mem.queue[..p.phase.n], p.mem.acks[..p.phase.k], now).value,
         proc := Some(p.(phase := Committed(p.phase.n, p.phase.k))))
    case CommitFails => w.(proc := Some(CloseQueues(w.proc.value).(failure := true)))
    case Publish => w.(proc := Some(Publication(w.kind, w.proc.value)))
    case CloseOwner => w.(proc := Some(CloseQueues(w.proc.value)))
    case Take(worker, now, after, claimed) =>
      var p := w.proc.value;
      w.(proc := Some(p.(mem := after,
                         workers := if claimed == [] then p.workers else p.workers[worker := Uploading(claimed)])))
    case Upload(worker, landed, failed, now) =>
      var p := w.proc.value;
      var claimed := p.workers[worker].claimed;
      w.(cloud := w.cloud + landed, proc := Some(p.(workers :=
           p.workers[worker := Uploaded(claimed, failed, now + Backoff(MaxAttempts(claimed)))])))
    case Report(worker) =>
      var p := w.proc.value;
      w.(proc := Some(p.(mem := p.mem.(acks := p.mem.acks + [OutcomeOf(worker, p.workers[worker])]),
                         workers := p.workers[worker := Reported(p.workers[worker].claimed)])))
    case Settle(worker, now) =>
      var p := w.proc.value;
      var ack := OutcomeOf(worker, p.workers[worker]);
      w.(db := CommitBatch(w.kind, w.db, [], [ack], now).value,
         proc := Some(p.(mem := ApplyAck(p.cfg, p.mem, ack), workers := p.workers - {worker})))
    case Die(worker) =>
      var p := w.proc.value;
      w.(proc := Some(p.(failure := true, stopping := true, workers := p.workers[worker := Dead(p.workers[worker].claimed)])))
  }

  /** A run: steps that are not enabled do nothing. */
  ghost function Run(w: World, steps: seq<Step>): World
  {
    if steps == [] then w
    else
      var before := Run(w, steps[..|steps| - 1]);
      if Enabled(before, steps[|steps| - 1]) then Do(before, steps[|steps| - 1]) else before
  }
}
