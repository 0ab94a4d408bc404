/** The claim index of the outbox: ready rows, their heap entries, their grouping by parent
    and the capacity counters always describe exactly the durable rows that are mirrored. */
module SpoolIndex {
  import opened SpoolModel

  ghost predicate RowsOk(jobs: map<Path, Job>)
  {
    forall p :: p in jobs ==> jobs[p].parent == p.parent && jobs[p].size == |jobs[p].payload.bytes|
  }

  ghost predicate NoDuplicates(s: seq<Path>)
  {
    forall i, j :: 0 <= i < j < |s| ==> s[i] != s[j]
  }

  ghost predicate GroupOk(s: Sched, d: string)
    requires d in s.byParent
  {
    && s.byParent[d] != [] && NoDuplicates(s.byParent[d])
    && forall p :: p in s.byParent[d] ==> p in s.ready && p.parent == d
  }

  /** `ready_by_parent` is exactly `ready` grouped by directory, without empty groups. */
  ghost predicate Grouped(s: Sched)
  {
    && (forall d :: d in s.byParent ==> GroupOk(s, d))
    && (forall p :: p in s.ready ==> p.parent in s.byParent && p in s.byParent[p.parent])
  }

  /** Every ready path has its entry in the heap, and no other entry passes for live. */
  ghost predicate HeapOk(cfg: Config, jobs: map<Path, Job>, s: Sched)
  {
    && s.ready.Keys <= jobs.Keys
    && (forall p :: p in s.ready ==> s.ready[p] < s.serial && EntryOf(cfg, jobs, s, p) in s.heap)
    && (forall e :: e in s.heap ==> e.serial < s.serial && (Live(s, e) ==> e == EntryOf(cfg, jobs, s, e.path)))
  }

  ghost function Total(sizes: map<Path, nat>): nat
    decreases |sizes|
  {
    if sizes == map[] then 0
    else
      var p :| p in sizes;
      sizes[p] + Total(sizes - {p})
  }

  function Sizes(jobs: map<Path, Job>): map<Path, nat>
  {
    map p | p in jobs :: jobs[p].size
  }

  ghost predicate Covered(m: Memory)
  {
    && (forall p :: p in m.jobs <==> p in m.sched.ready || p in m.inflight)
    && (forall p :: p in m.sched.ready ==> p !in m.inflight)
  }

  ghost predicate Counted(m: Memory)
  {
    m.pending == |m.jobs| && m.pendingBytes == Total(Sizes(m.jobs))
  }

  ghost predicate Indexed(cfg: Config, m: Memory)
  {
    RowsOk(m.jobs) && Covered(m) && HeapOk(cfg, m.jobs, m.sched) && Grouped(m.sched) && Counted(m)
  }

  /* ---------- byte accounting ---------- */

  lemma {:induction false} TotalTake(sizes: map<Path, nat>, p: Path)
    requires p in sizes
    ensures Total(sizes) == sizes[p] + Total(sizes - {p})
    decreases |sizes|
  {
    var q :| q in sizes && Total(sizes) == sizes[q] + Total(sizes - {q});
    if q != p {
      TotalTake(sizes - {q}, p);
      TotalTake(sizes - {p}, q);
      assert sizes - {q} - {p} == sizes - {p} - {q};
    }
  }

  lemma TotalPut(jobs: map<Path, Job>, p: Path, job: Job)
    requires p !in jobs
    ensures Total(Sizes(jobs[p := job])) == Total(Sizes(jobs)) + job.size
    ensures |jobs[p := job]| == |jobs| + 1
  {
    hide Total;
    TotalTake(Sizes(jobs[p := job]), p);
    assert Sizes(jobs[p := job]) - {p} == Sizes(jobs);
    assert jobs[p := job].Keys == jobs.Keys + {p};
  }

  lemma DropOne(jobs: map<Path, Job>, p: Path)
    requires p in jobs
    ensures Total(Sizes(jobs)) == jobs[p].size + Total(Sizes(jobs - {p}))
    ensures |jobs| == |jobs - {p}| + 1
  {
    hide Total;
    TotalTake(Sizes(jobs), p);
    assert Sizes(jobs) - {p} == Sizes(jobs - {p});
    assert (jobs - {p}).Keys == jobs.Keys - {p};
  }

  ghost predicate Describes(claimed: seq<Claim>, jobs: map<Path, Job>)
  {
    && (forall i, j :: 0 <= i < j < |claimed| ==> claimed[i].path != claimed[j].path)
    && forall c :: c in claimed ==> c.path in jobs && c.size == jobs[c.path].size && c.payload == jobs[c.path].payload
  }

  lemma ClaimPathsCons(claimed: seq<Claim>)
    requires claimed != []
    ensures ClaimPaths(claimed) == {claimed[0].path} + ClaimPaths(claimed[1..])
  {
    assert claimed == [claimed[0]] + claimed[1..];
  }

  lemma HeadIsDescribed(claimed: seq<Claim>, jobs: map<Path, Job>)
    requires claimed != [] && Describes(claimed, jobs)
    ensures Describes(claimed[1..], jobs - {claimed[0].path})
    ensures claimed[0].path in jobs && claimed[0].size == jobs[claimed[0].path].size
  {
    var rest := claimed[1..];
    assert forall i :: 0 <= i < |rest| ==> rest[i] == claimed[i + 1];
    assert claimed[0] in claimed;
  }

  lemma {:induction false} TotalDrop(jobs: map<Path, Job>, claimed: seq<Claim>)
    requires Describes(claimed, jobs)
    ensures Total(Sizes(jobs)) == Total(Sizes(jobs - ClaimPaths(claimed))) + ClaimBytes(claimed)
    ensures |jobs| == |jobs - ClaimPaths(claimed)| + |claimed|
    decreases |claimed|
  {
    hide Total, Sizes, Describes, ClaimPaths;
    if claimed == [] {
      DropNothing(jobs);
    } else {
      var p, rest := claimed[0].path, ClaimPaths(claimed[1..]);
      HeadIsDescribed(claimed, jobs);
      DropOne(jobs, p);
      TotalDrop(jobs - {p}, claimed[1..]);
      ClaimPathsCons(claimed);
      DropTwice(jobs, p, rest);
    }
  }

  lemma DropNothing(jobs: map<Path, Job>)
    ensures jobs - ClaimPaths([]) == jobs
  {
    assert ClaimPaths([]) == {};
  }

  lemma DropTwice(jobs: map<Path, Job>, p: Path, rest: set<Path>)
    ensures jobs - {p} - rest == jobs - ({p} + rest)
  {
  }

  lemma RetryKeepsSizes(jobs: map<Path, Job>, paths: set<Path>, at: real)
    ensures Sizes(Retry(jobs, paths, at)) == Sizes(jobs)
    ensures Retry(jobs, paths, at).Keys == jobs.Keys
    ensures RowsOk(jobs) ==> RowsOk(Retry(jobs, paths, at))
    ensures |Retry(jobs, paths, at)| == |jobs|
  {
    assert Retry(jobs, paths, at).Keys == jobs.Keys;
    assert |Retry(jobs, paths, at).Keys| == |jobs.Keys|;
  }

  /* ---------- scheduling ---------- */

  lemma ScheduleGroups(cfg: Config, s: Sched, p: Path, job: Job)
    requires p !in s.ready && Grouped(s)
    ensures Grouped(Schedule(cfg, s, p, job))
  {
    var s' := Schedule(cfg, s, p, job);
    var group := if p.parent in s.byParent then s.byParent[p.parent] else [];
    assert p.parent in s.byParent ==> GroupOk(s, p.parent);
    assert p !in group;
    assert s'.byParent[p.parent] == group + [p];
    assert GroupOk(s', p.parent);
    forall d | d in s'.byParent && d != p.parent ensures GroupOk(s', d) { assert GroupOk(s, d); }
    forall q | q in s'.ready ensures q.parent in s'.byParent && q in s'.byParent[q.parent] {
      if q == p { assert s'.byParent[p.parent][|group|] == p; }
    }
  }

  lemma ScheduleHeap(cfg: Config, jobs: map<Path, Job>, s: Sched, p: Path)
    requires p in jobs && p !in s.ready && HeapOk(cfg, jobs, s)
    ensures HeapOk(cfg, jobs, Schedule(cfg, s, p, jobs[p]))
  {
    var s' := Schedule(cfg, s, p, jobs[p]);
    forall e | e in s'.heap && Live(s', e) ensures e == EntryOf(cfg, jobs, s', e.path) {
      if e in s.heap { assert Live(s, e); }
    }
  }

  lemma {:induction false} ScheduleAllKeeps(cfg: Config, jobs: map<Path, Job>, s: Sched, paths: seq<Path>)
    requires forall p :: p in paths ==> p in jobs && p !in s.ready
    requires NoDuplicates(paths)
    requires HeapOk(cfg, jobs, s) && Grouped(s)
    ensures
      var s' := ScheduleAll(cfg, s, jobs, paths);
      HeapOk(cfg, jobs, s') && Grouped(s') && s'.ready.Keys == s.ready.Keys + (set p | p in paths)
    decreases |paths|
  {
    if paths != [] {
      var front, last := paths[..|paths| - 1], paths[|paths| - 1];
      assert paths == front + [last];
      ScheduleAllKeeps(cfg, jobs, s, front);
      var mid := ScheduleAll(cfg, s, jobs, front);
      assert last !in front && last !in mid.ready;
      ScheduleHeap(cfg, jobs, mid, last);
      ScheduleGroups(cfg, mid, last, jobs[last]);
      assert ScheduleAll(cfg, s, jobs, paths) == Schedule(cfg, mid, last, jobs[last]);
    }
  }

  /** Only the rows that are ready matter to the heap. */
  lemma HeapFrame(cfg: Config, jobs: map<Path, Job>, jobs': map<Path, Job>, s: Sched)
    requires HeapOk(cfg, jobs, s)
    requires forall p :: p in s.ready ==> p in jobs' && jobs'[p] == jobs[p]
    ensures HeapOk(cfg, jobs', s)
  {
    forall p | p in s.ready ensures EntryOf(cfg, jobs', s, p) in s.heap {
      assert EntryOf(cfg, jobs', s, p) == EntryOf(cfg, jobs, s, p);
    }
  }

  lemma RowPut(jobs: map<Path, Job>, p: Path, job: Job)
    requires RowsOk(jobs) && job.parent == p.parent && job.size == |job.payload.bytes|
    ensures RowsOk(jobs[p := job])
  {
  }

  lemma AddJobKeeps(cfg: Config, m: Memory, p: Path, job: Job)
    requires Indexed(cfg, m) && p !in m.jobs
    requires job.parent == p.parent && job.size == |job.payload.bytes|
    ensures Indexed(cfg, AddJob(cfg, m, p, job))
  {
    hide HeapOk, Grouped, Total, Append, Due, RowsOk, Sizes;
    var jobs := m.jobs[p := job];
    assert p !in m.sched.ready;
    HeapFrame(cfg, m.jobs, jobs, m.sched);
    ScheduleHeap(cfg, jobs, m.sched, p);
    ScheduleGroups(cfg, m.sched, p, job);
    TotalPut(m.jobs, p, job);
    RowPut(m.jobs, p, job);
  }

  /* ---------- acknowledgements ---------- */

  /** A claim list describes rows a worker holds. */
  ghost predicate Holds(m: Memory, claimed: seq<Claim>)
  {
    ClaimPaths(claimed) <= m.inflight && Describes(claimed, m.jobs)
  }

  lemma PathListSet(claimed: seq<Claim>)
    ensures (set p | p in PathList(claimed)) == ClaimPaths(claimed)
  {
    forall p | p in ClaimPaths(claimed) ensures p in PathList(claimed) {
      var c :| c in claimed && c.path == p;
      var i :| 0 <= i < |claimed| && claimed[i] == c;
      assert PathList(claimed)[i] == p;
    }
  }

  /** Applying a cloud outcome keeps every index exact, whether the write succeeded or not. */
  lemma AckKeeps(cfg: Config, m: Memory, ack: Ack)
    requires Indexed(cfg, m) && Holds(m, ack.claimed)
    ensures Indexed(cfg, ApplyAck(cfg, m, ack))
  {
    var held, jobs := ClaimPaths(ack.claimed), AfterAck(m.jobs, ack);
    assert held <= m.jobs.Keys;
    HeapFrame(cfg, m.jobs, jobs, m.sched);
    if ack.failed {
      RetryKeepsSizes(m.jobs, held, ack.retryAt);
      PathListSet(ack.claimed);
      assert forall p :: p in PathList(ack.claimed) ==> p in held;
      ScheduleAllKeeps(cfg, jobs, m.sched, PathList(ack.claimed));
    } else {
      TotalDrop(m.jobs, ack.claimed);
    }
  }

  /* ---------- claims ---------- */

  lemma {:induction false} CompanionsAreSiblings(jobs: map<Path, Job>, group: seq<Path>, first: Path, now: real, room: nat)
    requires NoDuplicates(group)
    ensures
      var s := Companions(jobs, group, first, now, room);
      && |s| <= room && NoDuplicates(s) && first !in s
      && forall p :: p in s ==> p in group && p in jobs && jobs[p].retryAt <= now
    decreases |group|
  {
    if room != 0 && group != [] {
      assert forall i :: 0 <= i < |group| - 1 ==> group[1..][i] == group[i + 1];
      assert group[0] !in group[1..];
      CompanionsAreSiblings(jobs, group[1..], first, now, room);
      CompanionsAreSiblings(jobs, group[1..], first, now, room - 1);
    }
  }

  lemma {:induction false} WithoutKeepsOrder(group: seq<Path>, gone: set<Path>)
    requires NoDuplicates(group)
    ensures NoDuplicates(Without(group, gone))
    decreases |group|
  {
    if group != [] {
      assert forall i :: 0 <= i < |group| - 1 ==> group[1..][i] == group[i + 1];
      assert group[0] !in group[1..];
      WithoutKeepsOrder(group[1..], gone);
    }
  }

  /** The batch grown from a ready path: its own directory only, each row once, within the size. */
  lemma BatchIsOneParent(cfg: Config, jobs: map<Path, Job>, s: Sched, first: Path, now: real)
    requires Grouped(s) && first in s.ready
    ensures
      var batch := BatchFrom(cfg, jobs, s.byParent, first, now);
      && NoDuplicates(batch)
      && (forall p :: p in batch ==> p in s.ready && p.parent == first.parent)
      && (forall p :: p in batch && p != first ==> p in jobs && jobs[p].retryAt <= now)
      && |batch| <= (if cfg.batchWriter && cfg.batchSize > 1 then cfg.batchSize else 1)
  {
    assert GroupOk(s, first.parent);
    if cfg.batchWriter && cfg.batchSize > 1 {
      CompanionsAreSiblings(jobs, s.byParent[first.parent], first, now, cfg.batchSize - 1);
    }
  }

  lemma RegroupKeeps(s: Sched, s': Sched, parent: string, gone: set<Path>)
    requires Grouped(s) && gone != {}
    requires forall p :: p in gone ==> p in s.ready && p.parent == parent
    requires s'.ready == s.ready - gone && s'.byParent == RemoveFromGroup(s.byParent, parent, gone)
    ensures Grouped(s')
  {
    var some :| some in gone;
    assert GroupOk(s, parent);
    WithoutKeepsOrder(s.byParent[parent], gone);
    forall d | d in s'.byParent ensures GroupOk(s', d) { assert GroupOk(s, d); }
  }

  lemma ClaimHeap(cfg: Config, jobs: map<Path, Job>, s: Sched, s': Sched, gone: set<Path>)
    requires HeapOk(cfg, jobs, s) && s'.ready == s.ready - gone && s'.serial == s.serial && Pruned(s, s'.heap)
    ensures HeapOk(cfg, jobs, s')
  {
    forall p | p in s'.ready ensures EntryOf(cfg, jobs, s', p) in s'.heap {
      assert EntryOf(cfg, jobs, s', p) == EntryOf(cfg, jobs, s, p) && Live(s, EntryOf(cfg, jobs, s, p));
    }
    forall e | e in s'.heap && Live(s', e) ensures e == EntryOf(cfg, jobs, s', e.path) { assert Live(s, e); }
  }

  /** What a claim hands out: rows nobody holds, one directory, bounded, and none when nothing is due. */
  ghost predicate ClaimIsExclusive(cfg: Config, m: Memory, now: real, m': Memory, claimed: seq<Claim>)
  {
    && m'.jobs == m.jobs && m'.inflight == m.inflight + ClaimPaths(claimed)
    && ClaimPaths(claimed) !! m.inflight && Holds(m', claimed)
    && (forall c, d :: c in claimed && d in claimed ==> c.path.parent == d.path.parent)
    && |claimed| <= (if cfg.batchWriter && cfg.batchSize > 1 then cfg.batchSize else 1)
  }

  lemma EmptyClaimKeeps(cfg: Config, m: Memory, now: real, m': Memory)
    requires Indexed(cfg, m) && Claims(cfg, m, now, m', [])
    ensures Indexed(cfg, m') && ClaimIsExclusive(cfg, m, now, m', [])
  {
    hide HeapOk, RowsOk, Total, Sizes, Earliest, Due, BatchFrom;
    ClaimHeap(cfg, m.jobs, m.sched, m'.sched, {});
    forall d | d in m.sched.byParent ensures GroupOk(m'.sched, d) { assert GroupOk(m.sched, d); }
  }

  /** A claim keeps the index exact and hands out rows nobody else holds. */
  lemma ClaimKeeps(cfg: Config, m: Memory, now: real, m': Memory, claimed: seq<Claim>)
    requires Indexed(cfg, m) && Claims(cfg, m, now, m', claimed)
    ensures Indexed(cfg, m') && ClaimIsExclusive(cfg, m, now, m', claimed)
  {
    hide HeapOk, RowsOk, Total, Sizes, RemoveFromGroup, BatchFrom, Due, Grouped, Describes, TakeClaims;
    if claimed == [] {
      EmptyClaimKeeps(cfg, m, now, m');
    } else {
      hide Earliest, Pruned;
      var first := claimed[0].path;
      var paths := BatchFrom(cfg, m.jobs, m.sched.byParent, first, now);
      var gone := set p | p in paths;
      EarliestIsMirrored(cfg, m.jobs, m.sched, first);
      BatchIsOneParent(cfg, m.jobs, m.sched, first, now);
      ClaimedRows(cfg, m, m', paths, claimed);
      ClaimHeap(cfg, m.jobs, m.sched, m'.sched, gone);
      RegroupKeeps(m.sched, m'.sched, first.parent, gone);
    }
  }

  lemma ClaimedRows(cfg: Config, m: Memory, m': Memory, paths: seq<Path>, claimed: seq<Claim>)
    requires NoDuplicates(paths) && forall p :: p in paths ==> p in m.jobs
    requires claimed == TakeClaims(m.jobs, paths)
    ensures ClaimPaths(claimed) == (set p | p in paths) && Describes(claimed, m.jobs)
  {
    assert PathList(claimed) == paths;
    PathListSet(claimed);
  }

  /** Nothing due is left behind, and the earliest generation goes first. */
  lemma DueWorkIsClaimed(cfg: Config, m: Memory, now: real, m': Memory, claimed: seq<Claim>, p: Path)
    requires Indexed(cfg, m) && Claims(cfg, m, now, m', claimed)
    requires p in m.sched.ready && Due(cfg, m.jobs[p]) <= now
    ensures claimed != []
    ensures Before(EntryOf(cfg, m.jobs, m.sched, claimed[0].path), EntryOf(cfg, m.jobs, m.sched, p))
  {
    assert p in m.jobs;
  }

  /** No row is written before its retry time, and the batch's oldest row has waited out the batch delay. */
  lemma NothingTooEarly(cfg: Config, m: Memory, now: real, m': Memory, claimed: seq<Claim>, c: Claim)
    requires Indexed(cfg, m) && Claims(cfg, m, now, m', claimed) && c in claimed
    ensures c.path in m.jobs && m.jobs[c.path].retryAt <= now
    ensures c == Claim(c.path, m.jobs[c.path].payload, m.jobs[c.path].size, m.jobs[c.path].attempts)
    ensures claimed[0].path in m.jobs
    ensures m.jobs[claimed[0].path].created + (if cfg.batchWriter then cfg.batchDelay else 0.0) <= now
  {
    hide HeapOk, RowsOk, Counted, BatchFrom, Earliest, RemoveFromGroup, Grouped;
    var first := claimed[0].path;
    var paths := BatchFrom(cfg, m.jobs, m.sched.byParent, first, now);
    EarliestIsMirrored(cfg, m.jobs, m.sched, first);
    BatchIsOneParent(cfg, m.jobs, m.sched, first, now);
    var i :| 0 <= i < |claimed| && claimed[i] == c;
    assert claimed[i].path == paths[i] && paths[i] in paths;
  }

  lemma EarliestIsMirrored(cfg: Config, jobs: map<Path, Job>, s: Sched, p: Path)
    requires Earliest(cfg, jobs, s, p)
    ensures p in jobs && p in s.ready
  {
  }
}
