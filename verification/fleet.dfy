/** The lease allocator of scripts/cpa_fleet_controller.py with the partition builder of
    scripts/build_cpa_dynamic_generation.py: durable ledgers, the workers that really run,
    and controller cycles that may be aborted between two writes. */
module FleetLeases {

  datatype Option<+T> = None | Some(value: T)

  /** `source:view=...`; the source part decides availability. */
  datatype Uid = Uid(source: string, view: Option<string>)

  type Slot = nat

  /** The controller's files; an assignment is the content of its immutable lease file. */
  datatype Ledgers = Ledgers(available: set<string>, completed: set<Uid>, attempts: map<Uid, nat>,
                             assignments: map<Slot, set<Uid>>, saved: set<Slot>)

  /** `live` is what the workers really hold. */
  datatype World = World(files: Ledgers, live: map<Slot, set<Uid>>)

  /** With `exactProbe` the liveness probe reports just the running slots; otherwise it may also report slots
      that do not run, as it does for every slot of a node it cannot reach. */
  datatype Config = Config(slots: nat, maxAttempts: nat, target: nat, perSlot: nat, exactProbe: bool)

  /* ---------- the choice of slots ---------- */

  function Min(a: int, b: int): int { if a < b then a else b }

  function Max(a: int, b: int): int { if a > b then a else b }

  function CeilDiv(a: nat, b: nat): nat
    requires b > 0
  {
    (a + b - 1) / b
  }

  function SlotCount(idle: nat, pending: nat, target: nat): (c: nat)
    requires idle > 0
    ensures 1 <= c <= idle
  {
    Min(idle, Max(1, CeilDiv(pending, Max(1, target))))
  }

  /** `index * len(idle) // count`. */
  function Spread(i: nat, n: nat, c: nat): nat
    requires c > 0
  {
    i * n / c
  }

  lemma ProductOrder(a: nat, b: nat, k: nat)
    requires a <= b
    ensures a * k <= b * k
  {
  }

  lemma QuotientAtLeast(b: nat, q: nat, c: nat)
    requires c > 0 && q * c <= b
    ensures q <= b / c
  {
    var t := b / c;
    assert b < t * c + c by { Remainder(b, c); }
    if t < q {
      ProductOrder(t + 1, q, c);
      NextMultiple(t, c);
    }
  }

  lemma Remainder(b: nat, c: nat)
    requires c > 0
    ensures (b / c) * c <= b < (b / c) * c + c
  {
  }

  lemma NextMultiple(t: nat, c: nat)
    ensures (t + 1) * c == t * c + c
  {
  }

  lemma SpreadIndex(i: nat, n: nat, c: nat)
    requires i < c <= n
    ensures Spread(i, n, c) < n
    ensures Spread(i, n, c) < Spread(i + 1, n, c)
  {
    var q := Spread(i, n, c);
    Remainder(i * n, c);
    NextMultiple(i, n);
    NextMultiple(q, c);
    assert (i + 1) * n == i * n + n >= (q + 1) * c;
    QuotientAtLeast((i + 1) * n, q + 1, c);
    ProductOrder(i + 1, c, n);
    BelowWhole(q, i * n, n, c);
  }

  lemma BelowWhole(q: nat, x: nat, n: nat, c: nat)
    requires q * c <= x && x + n <= c * n && n > 0 && c > 0
    ensures q < n
  {
    if q >= n { ProductOrder(n, q, c); }
  }

  function SpreadAt(i: nat, n: nat, c: nat): (r: nat)
    requires i < c <= n
    ensures r < n && r == Spread(i, n, c)
  {
    SpreadIndex(i, n, c);
    Spread(i, n, c)
  }

  function Picked(idle: seq<Slot>, c: nat): (r: seq<Slot>)
    requires c <= |idle|
    ensures |r| == c && forall i :: 0 <= i < c ==> r[i] == idle[SpreadAt(i, |idle|, c)]
  {
    seq(c, i requires 0 <= i < c => idle[SpreadAt(i, |idle|, c)])
  }

  /** `choose_generation_slots`: evenly spread over the idle list. */
  function ChooseSlots(idle: seq<Slot>, pending: nat, target: nat): seq<Slot>
  {
    if pending == 0 || idle == [] then [] else Picked(idle, SlotCount(|idle|, pending, target))
  }

  predicate Increasing(s: seq<Slot>)
  {
    forall i, j :: 0 <= i < j < |s| ==> s[i] < s[j]
  }

  lemma {:induction false} SpreadRises(i: nat, j: nat, n: nat, c: nat)
    requires i < j < c <= n
    ensures Spread(i, n, c) < Spread(j, n, c)
    decreases j
  {
    hide Spread;
    SpreadIndex(j - 1, n, c);
    if i < j - 1 { SpreadRises(i, j - 1, n, c); }
  }

  /** The chosen slots are strictly increasing members of the idle list, so none is chosen twice. */
  lemma ChosenSlotsRise(idle: seq<Slot>, pending: nat, target: nat)
    requires Increasing(idle)
    ensures
      var r := ChooseSlots(idle, pending, target);
      && Increasing(r) && (forall i :: 0 <= i < |r| ==> r[i] in idle)
      && (r == [] <==> pending == 0 || idle == [])
  {
    hide SlotCount, Spread, SpreadAt;
    var r := ChooseSlots(idle, pending, target);
    if pending > 0 && idle != [] {
      var c, n := SlotCount(|idle|, pending, target), |idle|;
      forall i, j | 0 <= i < j < |r| ensures r[i] < r[j] { SpreadRises(i, j, n, c); }
    }
  }

  /* ---------- the partition builder ---------- */

  predicate Eligible(d: Ledgers, excluded: set<Uid>, u: Uid)
  {
    u !in d.completed && u !in excluded && u.source in d.available
  }

  /** Members of bucket `k`, in master order, each once. */
  function Bucket(master: seq<Uid>, d: Ledgers, excluded: set<Uid>, hash: Uid -> nat, slots: nat, k: nat): (r: seq<Uid>)
    requires slots > 0
    ensures forall u :: u in r <==> u in master && Eligible(d, excluded, u) && hash(u) % slots == k
    ensures forall i, j :: 0 <= i < j < |r| ==> r[i] != r[j]
  {
    if master == [] then []
    else
      var front, u := Bucket(master[..|master| - 1], d, excluded, hash, slots, k), master[|master| - 1];
      assert master == master[..|master| - 1] + [u];
      if Eligible(d, excluded, u) && hash(u) % slots == k && u !in front then front + [u] else front
  }

  function Taken(s: seq<Uid>, most: nat): (r: seq<Uid>)
    ensures forall u :: u in r ==> u in s
  {
    if |s| <= most then s else s[..most]
  }

  /** `main` of the builder: dedupe, filter, place by hash, truncate. */
  method BuildPartitions(master: seq<Uid>, d: Ledgers, excluded: set<Uid>, hash: Uid -> nat, slots: nat, perSlot: nat)
    returns (partitions: seq<seq<Uid>>)
    requires slots > 0
    ensures |partitions| == slots
    ensures forall k :: 0 <= k < slots ==> partitions[k] == Taken(Bucket(master, d, excluded, hash, slots, k), perSlot)
  {
    var seen: set<Uid> := {};
    partitions := seq(slots, k => []);
    var i := 0;
    while i < |master|
      invariant i <= |master| && |partitions| == slots
      invariant forall u :: u in seen <==> u in master[..i]
      invariant forall k :: 0 <= k < slots ==> partitions[k] == Bucket(master[..i], d, excluded, hash, slots, k)
    {
      var uid := master[i];
      assert master[..i + 1][..i] == master[..i] && master[..i + 1] == master[..i] + [uid];
      var index := hash(uid) % slots;
      if uid !in seen {
        if Eligible(d, excluded, uid) { partitions := partitions[index := partitions[index] + [uid]]; }
        seen := seen + {uid};
      }
      i := i + 1;
    }
    assert master[..i] == master;
    partitions := seq(slots, k requires 0 <= k < slots => Taken(partitions[k], perSlot));
  }

  /* ---------- finished leases ---------- */

  /** The finished slots whose lease holds `u`. */
  function Holders(d: Ledgers, finished: set<Slot>, u: Uid): set<Slot>
  {
    set s | s in finished && s in d.assignments && u in d.assignments[s]
  }

  function Before(attempts: map<Uid, nat>, u: Uid): nat
  {
    if u in attempts then attempts[u] else 0
  }

  /** The ledger after `record_finished_attempts`, by its lookups. */
  ghost predicate Recorded(d: Ledgers, finished: set<Slot>, base: map<Uid, nat>, result: map<Uid, nat>)
  {
    forall u :: Before(result, u) == Before(base, u) +
      (if u !in d.completed && u.source in d.available then |Holders(d, finished, u)| else 0)
  }

  lemma HoldersGrow(d: Ledgers, finished: set<Slot>, s: Slot, u: Uid)
    requires s !in finished
    ensures |Holders(d, finished + {s}, u)| ==
      |Holders(d, finished, u)| + (if s in d.assignments && u in d.assignments[s] then 1 else 0)
  {
    var before := Holders(d, finished, u);
    if s in d.assignments && u in d.assignments[s] {
      assert Holders(d, finished + {s}, u) == before + {s};
    } else {
      assert Holders(d, finished + {s}, u) == before;
    }
  }

  /** `record_finished_attempts`: one more attempt for every unfinished UID of every ended lease. */
  method RecordFinishedAttempts(d: Ledgers, finished: set<Slot>, base: map<Uid, nat>) returns (result: map<Uid, nat>)
    ensures Recorded(d, finished, base, result)
  {
    hide Holders;
    result := base;
    var left, done := finished, {};
    NobodyHolds(d);
    while left != {}
      invariant done + left == finished && done !! left && Recorded(d, done, base, result)
      decreases |left|
    {
      var slot :| slot in left;
      ghost var was := result;
      forall u ensures |Holders(d, done + {slot}, u)| ==
        |Holders(d, done, u)| + (if slot in d.assignments && u in d.assignments[slot] then 1 else 0)
      {
        HoldersGrow(d, done, slot, u);
      }
      if slot in d.assignments { result := CountLease(d, d.assignments[slot], result); }
      left, done := left - {slot}, done + {slot};
    }
    assert done == finished;
  }

  lemma NobodyHolds(d: Ledgers)
    ensures forall u :: |Holders(d, {}, u)| == 0
  {
  }

  method CountLease(d: Ledgers, lease: set<Uid>, base: map<Uid, nat>) returns (result: map<Uid, nat>)
    ensures forall u :: Before(result, u) == Before(base, u) + (if u in lease && u !in d.completed && u.source in d.available then 1 else 0)
  {
    result := base;
    var left := lease;
    while left != {}
      invariant left <= lease
      invariant forall u ::
        Before(result, u) == Before(base, u) + (if u in lease - left && u !in d.completed && u.source in d.available then 1 else 0)
      decreases |left|
    {
      var uid :| uid in left;
      if uid !in d.completed && uid.source in d.available {
        result := result[uid := (if uid in result then result[uid] else 0) + 1];
      }
      left := left - {uid};
    }
  }

  /* ---------- one controller cycle ---------- */

  function Collected(d: Ledgers, available: set<string>, completed: set<Uid>): Ledgers
  {
    d.(available := d.available + available, completed := d.completed + completed)
  }

  function Kept(d: Ledgers): map<Uid, nat>
  {
    map u | u in d.attempts && u.source in d.available :: d.attempts[u]
  }

  function Counted(d: Ledgers, finished: set<Slot>): (r: map<Uid, nat>)
    ensures Recorded(d, finished, Kept(d), r)
  {
    var kept := Kept(d);
    var ended := set s, u | s in finished && s in d.assignments && u in d.assignments[s] :: u;
    var r := map u | u in kept.Keys + ended ::
      Before(kept, u) + (if u !in d.completed && u.source in d.available then |Holders(d, finished, u)| else 0);
    assert forall u :: u !in ended ==> Holders(d, finished, u) == {};
    r
  }

  function Quarantined(d: Ledgers, cfg: Config): set<Uid>
  {
    set u | u in d.attempts && d.attempts[u] >= cfg.maxAttempts && u !in d.completed
  }

  function ActiveUids(d: Ledgers, active: set<Slot>): set<Uid>
  {
    set s, u | s in active && s in d.assignments && u in d.assignments[s] :: u
  }

  function Excluded(d: Ledgers, cfg: Config, active: set<Slot>): set<Uid>
  {
    Quarantined(d, cfg) + ActiveUids(d, active)
  }

  /** `sorted(set(range(n)) - active)`. */
  function Idle(n: nat, active: set<Slot>): (r: seq<Slot>)
    ensures forall s: Slot :: s in r <==> s < n && s !in active
    ensures Increasing(r)
  {
    if n == 0 then []
    else
      var front := Idle(n - 1, active);
      assert forall i :: 0 <= i < |front| ==> front[i] in front;
      if n - 1 in active then front else front + [n - 1]
  }

  function Pending(master: seq<Uid>, d: Ledgers, excluded: set<Uid>): nat
  {
    |set u | u in master && Eligible(d, excluded, u)|
  }

  function IndexOf(slots: seq<Slot>, s: Slot): (i: nat)
    requires s in slots
    ensures i < |slots| && slots[i] == s
  {
    if slots[0] == s then 0 else 1 + IndexOf(slots[1..], s)
  }

  /** The lease file each chosen slot gets: the dense partition of the same rank. */
  function Plan(cfg: Config, d: Ledgers, excluded: set<Uid>, master: seq<Uid>, hash: Uid -> nat, slots: seq<Slot>): (r: map<Slot, set<Uid>>)
    ensures forall s :: s in r <==> s in slots
    ensures forall s, u :: s in r && u in r[s] ==>
      u in master && Eligible(d, excluded, u) && hash(u) % |slots| == IndexOf(slots, s)
  {
    map s | s in slots :: set u | u in Taken(Bucket(master, d, excluded, hash, |slots|, IndexOf(slots, s)), cfg.perSlot)
  }

  /** How far a cycle got before it failed; `Finished` is a normal return. */
  datatype Reach = Nowhere | LedgersSaved | AttemptsSaved | WorkersLaunched | AssignmentsSaved | Finished

  /** What a cycle learns and does: new records, the probe, the master list, the workers that really run once the
      launch scripts are through, and those among them that the launch probe gets to see. */
  datatype Cycle = Cycle(available: set<string>, completed: set<Uid>, active: set<Slot>, master: seq<Uid>,
                         launched: set<Slot>, seen: set<Slot>, reach: Reach)

  datatype Step = Exit(slot: Slot) | RunCycle(cycle: Cycle)

  predicate Launches(reach: Reach)
  {
    reach in {WorkersLaunched, AssignmentsSaved, Finished}
  }

  function CountedFiles(w: World, c: Cycle): Ledgers
  {
    var d := Collected(w.files, c.available, c.completed);
    d.(attempts := Counted(d, d.saved - c.active))
  }

  function Leases(cfg: Config, w: World, c: Cycle, hash: Uid -> nat): map<Slot, set<Uid>>
  {
    var d := CountedFiles(w, c);
    var excluded := Excluded(d, cfg, c.active);
    Plan(cfg, d, excluded, c.master, hash, ChooseSlots(Idle(cfg.slots, c.active), Pending(c.master, d, excluded), cfg.target))
  }

  /** A worker starts only for a chosen slot with a nonempty lease, and no probe sees one that did not start.
      A launch probe that times out or fails sees none of its node's workers. */
  ghost predicate Possible(cfg: Config, w: World, c: Cycle, hash: Uid -> nat)
  {
    && c.seen <= c.launched
    && forall s :: s in c.launched ==> s in Leases(cfg, w, c, hash) && Leases(cfg, w, c, hash)[s] != {}
  }

  function Started(cfg: Config, w: World, c: Cycle, hash: Uid -> nat): map<Slot, set<Uid>>
  {
    map s | s in c.launched && s in Leases(cfg, w, c, hash) :: Leases(cfg, w, c, hash)[s]
  }

  /** The assignments a cycle writes: those of the workers the launch probe saw. */
  function Noted(cfg: Config, w: World, c: Cycle, hash: Uid -> nat): map<Slot, set<Uid>>
  {
    map s | s in c.seen && s in Started(cfg, w, c, hash) :: Started(cfg, w, c, hash)[s]
  }

  /** `controller_cycle`, up to the point where it ends. */
  function After(cfg: Config, w: World, c: Cycle, hash: Uid -> nat): World
  {
    var d := CountedFiles(w, c);
    var running, noted := w.live + Started(cfg, w, c, hash), Noted(cfg, w, c, hash);
    match c.reach
    case Nowhere => w
    case LedgersSaved => w.(files := Collected(w.files, c.available, c.completed))
    case AttemptsSaved => w.(files := d)
    case WorkersLaunched => World(d, running)
    case AssignmentsSaved => World(d.(assignments := d.assignments + noted), running)
    case Finished => World(d.(assignments := d.assignments + noted, saved := c.active + noted.Keys), running)
  }

  /** A cycle that goes on to launch has found an assignment for every slot the probe reported. */
  predicate Probed(cfg: Config, w: World, c: Cycle)
  {
    && w.live.Keys <= c.active && (cfg.exactProbe ==> c.active == w.live.Keys)
    && (Launches(c.reach) ==> c.active <= w.files.assignments.Keys)
  }

  ghost predicate Enabled(cfg: Config, w: World, step: Step, hash: Uid -> nat)
  {
    match step
    case Exit(s) => s in w.live
    case RunCycle(c) => Probed(cfg, w, c) && Possible(cfg, w, c, hash)
  }

  function Do(cfg: Config, w: World, step: Step, hash: Uid -> nat): World
  {
    match step
    case Exit(s) => w.(live := w.live - {s})
    case RunCycle(c) => After(cfg, w, c, hash)
  }

  ghost function Run(cfg: Config, w: World, steps: seq<Step>, hash: Uid -> nat): World
  {
    if steps == [] then w
    else
      var before := Run(cfg, w, steps[..|steps| - 1], hash);
      if Enabled(cfg, before, steps[|steps| - 1], hash) then Do(cfg, before, steps[|steps| - 1], hash) else before
  }

  /* ---------- the invariant ---------- */

  ghost predicate Disjoint(leases: map<Slot, set<Uid>>)
  {
    forall s, t :: s in leases && t in leases && s != t ==> leases[s] !! leases[t]
  }

  ghost predicate Described(w: World)
  {
    forall s :: s in w.live ==> s in w.files.assignments && w.files.assignments[s] == w.live[s]
  }

  /** Pairwise disjoint leases, each as the files have it. */
  ghost predicate Safe(w: World)
  {
    Disjoint(w.live) && Described(w)
  }

  ghost predicate SavedDisjoint(d: Ledgers)
  {
    forall s, t :: s in d.saved && t in d.saved && s != t && s in d.assignments && t in d.assignments ==>
      d.assignments[s] !! d.assignments[t]
  }

  /** The first start: an assignment file that gives every slot its part of a disjoint seed, no saved slots,
      and any of the seed's workers already running. */
  lemma SeedIsSafe(w: World, seed: map<Slot, set<Uid>>)
    requires Disjoint(seed) && w.files.assignments == seed && w.files.saved == {}
    requires w.live.Keys <= seed.Keys && forall s :: s in w.live ==> w.live[s] == seed[s]
    ensures Safe(w) && SavedDisjoint(w.files)
  {
  }

  /** The workers a cycle starts and leaves unrecorded: it died before saving, or the launch probe did not see them,
      and what the files say about their slot is not their lease by chance. */
  function Unrecorded(cfg: Config, w: World, c: Cycle, hash: Uid -> nat): set<Slot>
  {
    var started, known := Started(cfg, w, c, hash), w.files.assignments;
    if !Launches(c.reach) then {}
    else set s | s in started && (c.reach.WorkersLaunched? || s !in c.seen) && !(s in known && known[s] == started[s])
  }

  /** Every cycle of the run records what it starts. */
  ghost predicate Recording(cfg: Config, w: World, steps: seq<Step>, hash: Uid -> nat)
  {
    steps == [] ||
    var front, step := steps[..|steps| - 1], steps[|steps| - 1];
    && Recording(cfg, w, front, hash)
    && (step.RunCycle? && Enabled(cfg, Run(cfg, w, front, hash), step, hash) ==>
          Unrecorded(cfg, Run(cfg, w, front, hash), step.cycle, hash) == {})
  }

  lemma StartedIsNew(cfg: Config, w: World, c: Cycle, hash: Uid -> nat)
    ensures
      var started := Started(cfg, w, c, hash);
      var d := CountedFiles(w, c);
      && Disjoint(started)
      && (forall s :: s in started ==> s !in c.active)
      && forall s, u :: s in started && u in started[s] ==> Eligible(d, Excluded(d, cfg, c.active), u)
  {
    hide Counted, Pending, Excluded, ChooseSlots, Eligible;
    var d := CountedFiles(w, c);
    var excluded := Excluded(d, cfg, c.active);
    var idle := Idle(cfg.slots, c.active);
    var slots := ChooseSlots(idle, Pending(c.master, d, excluded), cfg.target);
    ChosenSlotsRise(idle, Pending(c.master, d, excluded), cfg.target);
    var started := Started(cfg, w, c, hash);
    forall s, t | s in started && t in started && s != t ensures started[s] !! started[t] {
      assert IndexOf(slots, s) != IndexOf(slots, t);
    }
    forall s | s in started ensures s !in c.active {
      var i := IndexOf(slots, s);
      assert slots[i] in idle;
    }
  }

  lemma ActiveIsLive(w: World, c: Cycle)
    requires Described(w) && w.live.Keys <= c.active
    ensures forall s, u :: s in w.live && u in w.live[s] ==> u in ActiveUids(CountedFiles(w, c), c.active)
  {
  }

  lemma NotRunning(cfg: Config, w: World, c: Cycle, u: Uid)
    requires Described(w) && w.live.Keys <= c.active
    requires Eligible(CountedFiles(w, c), Excluded(CountedFiles(w, c), cfg, c.active), u)
    ensures forall t :: t in w.live ==> u !in w.live[t]
  {
    hide Counted, Quarantined;
    var d := CountedFiles(w, c);
    ActiveIsLive(w, c);
    assert u !in ActiveUids(d, c.active);
  }

  /** The leases a cycle starts are disjoint from everything that runs. */
  lemma StartedIsFree(cfg: Config, w: World, c: Cycle, hash: Uid -> nat)
    requires Safe(w) && Probed(cfg, w, c)
    ensures Disjoint(w.live + Started(cfg, w, c, hash))
  {
    hide Started, Counted, Quarantined, Excluded, Eligible;
    StartedIsNew(cfg, w, c, hash);
    var started, d := Started(cfg, w, c, hash), CountedFiles(w, c);
    var all := w.live + started;
    forall s, t | s in all && t in all && s != t ensures all[s] !! all[t] {
      if s in started && t !in started {
        forall u | u in started[s] ensures u !in w.live[t] { NotRunning(cfg, w, c, u); }
      } else if t in started && s !in started {
        forall u | u in started[t] ensures u !in w.live[s] { NotRunning(cfg, w, c, u); }
      }
    }
  }

  /** One cycle, wherever it ends: what runs stays disjoint, and the files still describe it exactly when every
      worker the cycle started is on record. */
  lemma CycleIsRecordedIff(cfg: Config, w: World, c: Cycle, hash: Uid -> nat)
    requires Safe(w) && Enabled(cfg, w, RunCycle(c), hash)
    ensures Disjoint(After(cfg, w, c, hash).live)
    ensures Described(After(cfg, w, c, hash)) <==> Unrecorded(cfg, w, c, hash) == {}
  {
    hide Started, Counted, Disjoint, Leases;
    StartedIsFree(cfg, w, c, hash);
    StartedIsNew(cfg, w, c, hash);
    var w', started := After(cfg, w, c, hash), Started(cfg, w, c, hash);
    if Launches(c.reach) {
      assert forall s :: s in w.live ==> s !in started;
      forall s | s in started ensures s !in Unrecorded(cfg, w, c, hash) <==>
        s in w'.files.assignments && w'.files.assignments[s] == w'.live[s]
      {
        assert w'.live[s] == started[s];
      }
      assert Unrecorded(cfg, w, c, hash) == {} <==> forall s :: s in started ==> s !in Unrecorded(cfg, w, c, hash);
    }
  }

  /** From any recorded, disjoint state: the files describe what runs throughout exactly when every cycle records
      what it starts. */
  lemma {:induction false} RunIsRecordedIff(cfg: Config, w: World, steps: seq<Step>, hash: Uid -> nat)
    requires Safe(w)
    ensures Recording(cfg, w, steps, hash) <==> forall n :: 0 <= n <= |steps| ==> Described(Run(cfg, w, steps[..n], hash))
    ensures Recording(cfg, w, steps, hash) ==> Safe(Run(cfg, w, steps, hash))
    decreases |steps|
  {
    hide After, Possible, Disjoint, Described, Unrecorded;
    if steps == [] {
      assert steps[..0] == steps;
    } else {
      var front, step := steps[..|steps| - 1], steps[|steps| - 1];
      RunIsRecordedIff(cfg, w, front, hash);
      assert forall n :: 0 <= n <= |front| ==> steps[..n] == front[..n];
      assert steps[..|steps|] == steps && front[..|front|] == front;
      var before := Run(cfg, w, front, hash);
      if Recording(cfg, w, front, hash) && Enabled(cfg, before, step, hash) { StepIsRecordedIff(cfg, before, step, hash); }
    }
  }

  lemma StepIsRecordedIff(cfg: Config, w: World, step: Step, hash: Uid -> nat)
    requires Safe(w) && Enabled(cfg, w, step, hash)
    ensures Disjoint(Do(cfg, w, step, hash).live)
    ensures Described(Do(cfg, w, step, hash)) <==> (step.RunCycle? ==> Unrecorded(cfg, w, step.cycle, hash) == {})
  {
    hide After, Unrecorded, Possible;
    if step.RunCycle? { CycleIsRecordedIff(cfg, w, step.cycle, hash); }
  }

  /* ---------- the guarantees ---------- */

  /** No UID is ever leased to two running workers while every cycle records what it starts, even when unreachable
      nodes are taken for running. */
  lemma LeasesAreDisjoint(cfg: Config, w: World, steps: seq<Step>, hash: Uid -> nat, s: Slot, t: Slot)
    requires Safe(w) && Recording(cfg, w, steps, hash)
    requires s in Run(cfg, w, steps, hash).live && t in Run(cfg, w, steps, hash).live && s != t
    ensures Run(cfg, w, steps, hash).live[s] !! Run(cfg, w, steps, hash).live[t]
  {
    hide Run, Recording;
    RunIsRecordedIff(cfg, w, steps, hash);
  }

  /** In any state a cycle schedules only available UIDs that are neither completed nor quarantined, and none that
      runs if the files describe what runs. */
  lemma SchedulesOnlyPending(cfg: Config, w: World, c: Cycle, hash: Uid -> nat, s: Slot, u: Uid)
    requires Enabled(cfg, w, RunCycle(c), hash)
    requires s in After(cfg, w, c, hash).live && s !in w.live && u in After(cfg, w, c, hash).live[s]
    ensures
      var d := CountedFiles(w, c);
      && u !in d.completed && u.source in d.available
      && (u in d.attempts ==> d.attempts[u] < cfg.maxAttempts)
      && (Described(w) ==> forall t :: t in w.live ==> u !in w.live[t])
  {
    hide Started, After, Eligible, Excluded, Described;
    StartedIsNew(cfg, w, c, hash);
    NewLease(cfg, w, c, hash, s);
    NotBarred(cfg, CountedFiles(w, c), c.active, u);
    if Described(w) { NotRunning(cfg, w, c, u); }
  }

  lemma NewLease(cfg: Config, w: World, c: Cycle, hash: Uid -> nat, s: Slot)
    requires s in After(cfg, w, c, hash).live && s !in w.live
    ensures s in Started(cfg, w, c, hash) && After(cfg, w, c, hash).live[s] == Started(cfg, w, c, hash)[s]
  {
    hide Started, Counted;
  }

  lemma NotBarred(cfg: Config, d: Ledgers, active: set<Slot>, u: Uid)
    requires Eligible(d, Excluded(d, cfg, active), u)
    ensures u !in d.completed && u.source in d.available && Before(d.attempts, u) < Max(cfg.maxAttempts, 1)
    ensures u in d.attempts ==> d.attempts[u] < cfg.maxAttempts
    ensures forall s :: s in active && s in d.assignments ==> u !in d.assignments[s]
  {
    assert u !in Quarantined(d, cfg) && u !in ActiveUids(d, active);
  }

  /* ---------- attempts ---------- */

  /** A cycle counts a UID more than once exactly when two slots whose ended leases both hold it left the saved set
      in that cycle. */
  lemma CountsTwiceIff(w: World, c: Cycle, u: Uid)
    ensures
      var d := Collected(w.files, c.available, c.completed);
      Before(CountedFiles(w, c).attempts, u) > Before(w.files.attempts, u) + 1 <==>
        u !in d.completed && u.source in d.available &&
        exists s, t :: s != t && s in Holders(d, d.saved - c.active, u) && t in Holders(d, d.saved - c.active, u)
  {
    hide Holders, Counted;
    var d := Collected(w.files, c.available, c.completed);
    assert Recorded(d, d.saved - c.active, Kept(d), Counted(d, d.saved - c.active));
    MoreThanOneIff(Holders(d, d.saved - c.active, u));
  }

  lemma MoreThanOneIff(h: set<Slot>)
    ensures |h| > 1 <==> exists s, t :: s != t && s in h && t in h
  {
    if |h| > 1 {
      var s :| s in h;
      var rest := h - {s};
      assert |rest| > 0;
      var t :| t in rest;
      assert s != t && t in h;
    }
    if s, t :| s != t && s in h && t in h {
      assert h == {s, t} + (h - {s, t});
      assert |{s, t}| == 2;
    }
  }

  /** The slots whose new assignment meets that of another slot still saved from before, because the cycle failed
      between the two files. */
  ghost function Overlapping(cfg: Config, w: World, c: Cycle, hash: Uid -> nat): set<Slot>
  {
    var noted := Noted(cfg, w, c, hash);
    var now := w.files.assignments + noted;
    if !c.reach.AssignmentsSaved? then {}
    else set s | s in noted && s in w.files.saved && exists t :: t in w.files.saved && t in now && t != s && !(noted[s] !! now[t])
  }

  /** With exact probes the saved leases stay pairwise disjoint exactly when no such slot appears. */
  lemma SavedStaysDisjointIff(cfg: Config, w: World, c: Cycle, hash: Uid -> nat)
    requires cfg.exactProbe && Safe(w) && SavedDisjoint(w.files) && Enabled(cfg, w, RunCycle(c), hash)
    ensures SavedDisjoint(After(cfg, w, c, hash).files) <==> Overlapping(cfg, w, c, hash) == {}
  {
    hide Started, Counted, Leases, Possible;
    var w' := After(cfg, w, c, hash);
    var noted := Noted(cfg, w, c, hash);
    if c.reach.Finished? {
      NotedIsFree(cfg, w, c, hash);
      SavedAreRunning(w', w.live, noted);
    } else if c.reach.AssignmentsSaved? {
      if s :| s in Overlapping(cfg, w, c, hash) {
        var t :| t in w.files.saved && t in w'.files.assignments && t != s && !(noted[s] !! w'.files.assignments[t]);
        assert w'.files.assignments[s] == noted[s];
      } else {
        SavedWithout(cfg, w, c, hash);
      }
    }
  }

  lemma NotedIsFree(cfg: Config, w: World, c: Cycle, hash: Uid -> nat)
    requires Safe(w) && Probed(cfg, w, c)
    ensures Disjoint(w.live + Noted(cfg, w, c, hash))
    ensures forall s :: s in Noted(cfg, w, c, hash) ==> s !in c.active
  {
    hide Started;
    StartedIsFree(cfg, w, c, hash);
    StartedIsNew(cfg, w, c, hash);
    var all, started := w.live + Noted(cfg, w, c, hash), w.live + Started(cfg, w, c, hash);
    forall s, t | s in all && t in all && s != t ensures all[s] !! all[t] {
      assert all[s] == started[s] && all[t] == started[t];
    }
  }

  lemma SavedAreRunning(w: World, live: map<Slot, set<Uid>>, noted: map<Slot, set<Uid>>)
    requires w.files.saved == live.Keys + noted.Keys && Disjoint(live + noted)
    requires forall s :: s in live + noted ==> s in w.files.assignments && w.files.assignments[s] == (live + noted)[s]
    ensures SavedDisjoint(w.files)
  {
  }

  lemma SavedWithout(cfg: Config, w: World, c: Cycle, hash: Uid -> nat)
    requires c.reach.AssignmentsSaved? && SavedDisjoint(w.files) && Overlapping(cfg, w, c, hash) == {}
    ensures SavedDisjoint(After(cfg, w, c, hash).files)
  {
    hide Started, Counted;
    var noted, d := Noted(cfg, w, c, hash), After(cfg, w, c, hash).files;
    forall s, t | s in d.saved && t in d.saved && s != t && s in d.assignments && t in d.assignments
      ensures d.assignments[s] !! d.assignments[t]
    {
      assert s in noted ==> s !in Overlapping(cfg, w, c, hash);
      assert t in noted ==> t !in Overlapping(cfg, w, c, hash);
    }
  }

  /** No cycle of the run failed between the two files with such an overlap. */
  ghost predicate Paired(cfg: Config, w: World, steps: seq<Step>, hash: Uid -> nat)
  {
    steps == [] ||
    var front, step := steps[..|steps| - 1], steps[|steps| - 1];
    && Paired(cfg, w, front, hash)
    && (step.RunCycle? && Enabled(cfg, Run(cfg, w, front, hash), step, hash) ==>
          Overlapping(cfg, Run(cfg, w, front, hash), step.cycle, hash) == {})
  }

  lemma {:induction false} RunKeepsSaved(cfg: Config, w: World, steps: seq<Step>, hash: Uid -> nat)
    requires cfg.exactProbe && Safe(w) && SavedDisjoint(w.files) && Recording(cfg, w, steps, hash) && Paired(cfg, w, steps, hash)
    ensures SavedDisjoint(Run(cfg, w, steps, hash).files)
    decreases |steps|
  {
    hide After, Possible, Safe, SavedDisjoint, Unrecorded, Overlapping;
    if steps != [] {
      var front, step := steps[..|steps| - 1], steps[|steps| - 1];
      RunKeepsSaved(cfg, w, front, hash);
      RunIsRecordedIff(cfg, w, front, hash);
      var before := Run(cfg, w, front, hash);
      if step.RunCycle? && Enabled(cfg, before, step, hash) { SavedStaysDisjointIff(cfg, before, step.cycle, hash); }
    }
  }

  /** With exact probes one cycle never counts a UID twice, unless an earlier one failed between the two files. */
  lemma AttemptsRiseByOne(cfg: Config, w: World, steps: seq<Step>, hash: Uid -> nat, c: Cycle, u: Uid)
    requires cfg.exactProbe && Safe(w) && SavedDisjoint(w.files) && Recording(cfg, w, steps, hash) && Paired(cfg, w, steps, hash)
    ensures
      var before := Run(cfg, w, steps, hash);
      Before(After(cfg, before, c, hash).files.attempts, u) <= Before(before.files.attempts, u) + 1
  {
    hide Run, Recording, Paired, Safe, Counted;
    RunKeepsSaved(cfg, w, steps, hash);
    CountsTwiceIff(Run(cfg, w, steps, hash), c, u);
  }

  /** Exact probes are needed for the attempts: a slot that ended long ago comes back into the saved set when its
      node cannot be reached, with a lease whose UID has been given to another slot since. */
  lemma UnreachableNodeOverlaps(cfg: Config, u: Uid, hash: Uid -> nat)
    requires !cfg.exactProbe
    ensures
      var w := World(Ledgers({u.source}, {}, map[], map[0 := {u}, 1 := {u}], {1}), map[1 := {u}]);
      var c := Cycle({}, {}, {0, 1}, [], {}, {}, Finished);
      && Safe(w) && SavedDisjoint(w.files) && Enabled(cfg, w, RunCycle(c), hash)
      && !SavedDisjoint(After(cfg, w, c, hash).files)
  {
    hide Leases, Counted;
    var w := World(Ledgers({u.source}, {}, map[], map[0 := {u}, 1 := {u}], {1}), map[1 := {u}]);
    var c := Cycle({}, {}, {0, 1}, [], {}, {}, Finished);
    var d := After(cfg, w, c, hash).files;
    assert d.saved == {0, 1} && d.assignments[0] == d.assignments[1] == {u};
    assert u in d.assignments[0] && u in d.assignments[1];
  }

  /* ---------- a lease that is not on record ---------- */

  /** `u` runs on `t` and nowhere else. */
  ghost predicate Sole(w: World, t: Slot, u: Uid)
  {
    t in w.live && u in w.live[t] && forall s :: s in w.live && s != t ==> u !in w.live[s]
  }

  ghost predicate LeasedTwice(w: World, t: Slot, u: Uid)
  {
    t in w.live && u in w.live[t] && exists s :: s in w.live && s != t && u in w.live[s]
  }

  /** The attempts of `u`, with those the ended leases of other slots are still going to add. */
  function Due(w: World, t: Slot, u: Uid): nat
  {
    Before(w.files.attempts, u) + |Holders(w.files, w.files.saved - {t}, u)|
  }

  /** The files do not know that `u` runs on `t`, and nothing else keeps it from being scheduled. */
  predicate Exposed(cfg: Config, w: World, t: Slot, u: Uid)
  {
    && t in w.files.assignments && u !in w.files.assignments[t] && u !in w.files.completed
    && (u.source in w.files.available ==> Due(w, t, u) < cfg.maxAttempts)
    && cfg.perSlot > 0 && (cfg.slots > 1 || (cfg.slots == 1 && t != 0))
  }

  /** Exactly the UIDs a worker runs off the record can be leased a second time while it still runs. */
  lemma SecondLeaseIff(cfg: Config, w: World, t: Slot, u: Uid, hash: Uid -> nat)
    requires cfg.maxAttempts > 0 && Sole(w, t, u)
    ensures Exposed(cfg, w, t, u) <==>
      exists steps :: Exit(t) !in steps && LeasedTwice(Run(cfg, w, steps, hash), t, u)
  {
    hide Exposed, Run, Sole, LeasedTwice;
    if Exposed(cfg, w, t, u) {
      var steps := LeaseAgain(cfg, w, t, u, hash);
    }
    forall steps | Exit(t) !in steps && !Exposed(cfg, w, t, u) ensures !LeasedTwice(Run(cfg, w, steps, hash), t, u) {
      StaysSole(cfg, w, steps, t, u, hash);
      SoleIsNotTwice(Run(cfg, w, steps, hash), t, u);
    }
  }

  lemma SoleIsNotTwice(w: World, t: Slot, u: Uid)
    requires Sole(w, t, u)
    ensures !LeasedTwice(w, t, u)
  {
  }

  lemma {:induction false} StaysSole(cfg: Config, w: World, steps: seq<Step>, t: Slot, u: Uid, hash: Uid -> nat)
    requires cfg.maxAttempts > 0 && Sole(w, t, u) && !Exposed(cfg, w, t, u) && Exit(t) !in steps
    ensures Sole(Run(cfg, w, steps, hash), t, u) && !Exposed(cfg, Run(cfg, w, steps, hash), t, u)
    decreases |steps|
  {
    hide After, Possible, Sole, Exposed;
    if steps != [] {
      var front, step := steps[..|steps| - 1], steps[|steps| - 1];
      assert step in steps && forall x :: x in front ==> x in steps;
      StaysSole(cfg, w, front, t, u, hash);
      var before := Run(cfg, w, front, hash);
      if Enabled(cfg, before, step, hash) { StepStaysSole(cfg, before, step, t, u, hash); }
    }
  }

  lemma StepStaysSole(cfg: Config, w: World, step: Step, t: Slot, u: Uid, hash: Uid -> nat)
    requires cfg.maxAttempts > 0 && Sole(w, t, u) && !Exposed(cfg, w, t, u) && Enabled(cfg, w, step, hash) && step != Exit(t)
    ensures Sole(Do(cfg, w, step, hash), t, u) && !Exposed(cfg, Do(cfg, w, step, hash), t, u)
  {
    hide Started, Counted, Leases, Possible, Due;
    match step
    case Exit(s) =>
      assert Due(Do(cfg, w, step, hash), t, u) == Due(w, t, u) by { SameDue(w, Do(cfg, w, step, hash), t, u); }
    case RunCycle(c) =>
      StartedIsNew(cfg, w, c, hash);
      if Launches(c.reach) {
        forall s | s in Started(cfg, w, c, hash) ensures u !in Started(cfg, w, c, hash)[s] {
          if u in Started(cfg, w, c, hash)[s] { NotScheduled(cfg, w, c, hash, t, u, s); }
        }
      }
      if u !in w.files.completed + c.completed && u.source in w.files.available { DueStays(cfg, w, c, hash, t, u); }
  }

  lemma SameDue(w: World, w': World, t: Slot, u: Uid)
    requires w.files == w'.files
    ensures Due(w', t, u) == Due(w, t, u)
  {
  }

  /** What is due never gets lost while `t` runs. */
  lemma DueStays(cfg: Config, w: World, c: Cycle, hash: Uid -> nat, t: Slot, u: Uid)
    requires t in w.live && Probed(cfg, w, c) && u !in w.files.completed + c.completed && u.source in w.files.available
    ensures Due(After(cfg, w, c, hash), t, u) >= Due(w, t, u)
  {
    hide Counted, Started, Holders;
    var d, w' := Collected(w.files, c.available, c.completed), After(cfg, w, c, hash);
    assert Recorded(d, d.saved - c.active, Kept(d), Counted(d, d.saved - c.active));
    HoldersSplit(w.files, c.active, t, u);
    SameHolders(w.files, d, d.saved - c.active, u);
    if c.reach in {AssignmentsSaved, Finished} {
      StartedIsNew(cfg, w, c, hash);
      HoldersStay(w.files, w'.files, w.files.saved * c.active - {t}, w'.files.saved - {t}, u);
    } else {
      SameHolders(w.files, w'.files, w.files.saved - {t}, u);
    }
  }

  lemma HoldersSplit(d: Ledgers, active: set<Slot>, t: Slot, u: Uid)
    requires t in active
    ensures |Holders(d, d.saved - {t}, u)| == |Holders(d, d.saved - active, u)| + |Holders(d, d.saved * active - {t}, u)|
  {
    assert Holders(d, d.saved - {t}, u) == Holders(d, d.saved - active, u) + Holders(d, d.saved * active - {t}, u);
  }

  lemma SameHolders(d: Ledgers, d': Ledgers, slots: set<Slot>, u: Uid)
    requires d'.assignments == d.assignments
    ensures Holders(d', slots, u) == Holders(d, slots, u)
  {
  }

  lemma HoldersStay(d: Ledgers, d': Ledgers, slots: set<Slot>, slots': set<Slot>, u: Uid)
    requires slots <= slots' && forall s :: s in slots && s in d.assignments ==> s in d'.assignments && d'.assignments[s] == d.assignments[s]
    ensures |Holders(d, slots, u)| <= |Holders(d', slots', u)|
  {
    Subset(Holders(d, slots, u), Holders(d', slots', u));
  }

  lemma Subset(a: set<Slot>, b: set<Slot>)
    requires a <= b
    ensures |a| <= |b|
  {
    assert b == a + (b - a);
  }

  /** A cycle that schedules `u` finds it exposed. */
  lemma NotScheduled(cfg: Config, w: World, c: Cycle, hash: Uid -> nat, t: Slot, u: Uid, s: Slot)
    requires cfg.maxAttempts > 0 && t in w.live && Probed(cfg, w, c) && Launches(c.reach)
    requires s in Started(cfg, w, c, hash) && u in Started(cfg, w, c, hash)[s]
    ensures Exposed(cfg, w, t, u)
  {
    hide Counted, Excluded, Eligible, Pending;
    var d := CountedFiles(w, c);
    StartedIsNew(cfg, w, c, hash);
    NotBarred(cfg, d, c.active, u);
    assert t in c.active && s != t;
    ChosenIsASlot(cfg, w, c, hash, s, u);
    var before := Collected(w.files, c.available, c.completed);
    assert Recorded(before, before.saved - c.active, Kept(before), Counted(before, before.saved - c.active));
    assert Holders(before, before.saved - c.active, u) == Holders(w.files, w.files.saved - {t}, u);
  }

  lemma ChosenIsASlot(cfg: Config, w: World, c: Cycle, hash: Uid -> nat, s: Slot, u: Uid)
    requires s in Started(cfg, w, c, hash) && u in Started(cfg, w, c, hash)[s]
    ensures s < cfg.slots && cfg.perSlot > 0
  {
    hide Counted, Excluded, Eligible, Pending, SlotCount, SpreadAt;
    var d := CountedFiles(w, c);
    var idle := Idle(cfg.slots, c.active);
    var pending := Pending(c.master, d, Excluded(d, cfg, c.active));
    ChosenSlotsRise(idle, pending, cfg.target);
    var slots := ChooseSlots(idle, pending, cfg.target);
    var i := IndexOf(slots, s);
    assert slots[i] in idle;
  }

  lemma OneUidOneSlot(cfg: Config, d: Ledgers, excluded: set<Uid>, u: Uid, hash: Uid -> nat, s: Slot)
    requires Eligible(d, excluded, u) && cfg.perSlot > 0
    ensures Plan(cfg, d, excluded, [u], hash, [s]) == map[s := {u}]
    ensures Pending([u], d, excluded) == 1
  {
    hide Eligible, Bucket;
    BucketOfOne(d, excluded, u, hash);
    var slots := [s];
    assert |slots| == 1 && IndexOf(slots, s) == 0;
    assert Taken([u], cfg.perSlot) == [u];
    var plan := Plan(cfg, d, excluded, [u], hash, slots);
    assert plan[s] == {u};
    assert (set x | x in [u] && Eligible(d, excluded, x)) == {u};
  }

  lemma BucketOfOne(d: Ledgers, excluded: set<Uid>, u: Uid, hash: Uid -> nat)
    requires Eligible(d, excluded, u)
    ensures Bucket([u], d, excluded, hash, 1, 0) == [u]
  {
    hide Eligible;
    assert [u][..0] == [];
    assert Bucket([], d, excluded, hash, 1, 0) == [];
  }

  lemma OneChosen(idle: seq<Slot>, target: nat)
    requires idle != []
    ensures ChooseSlots(idle, 1, target) == [idle[0]]
  {
    hide CeilDiv;
    var most := Max(1, target);
    assert CeilDiv(1, most) == 1 by { OneCeiling(most); }
    assert SlotCount(|idle|, 1, target) == 1;
    assert Spread(0, |idle|, 1) == 0;
  }

  lemma OneCeiling(b: nat)
    requires b > 0
    ensures CeilDiv(1, b) == 1
  {
    QuotientAtLeast(b, 1, b);
    Remainder(b, b);
  }

  /** With one UID left to schedule the first idle slot gets it. */
  lemma OneUidCycle(cfg: Config, w: World, c: Cycle, u: Uid, hash: Uid -> nat)
    requires c.master == [u] && cfg.perSlot > 0 && Idle(cfg.slots, c.active) != []
    requires Eligible(CountedFiles(w, c), Excluded(CountedFiles(w, c), cfg, c.active), u)
    ensures Leases(cfg, w, c, hash) == map[Idle(cfg.slots, c.active)[0] := {u}]
  {
    hide Plan, ChooseSlots, Pending, Idle, CountedFiles, Excluded, Eligible;
    var d := CountedFiles(w, c);
    var excluded, idle := Excluded(d, cfg, c.active), Idle(cfg.slots, c.active);
    OneUidOneSlot(cfg, d, excluded, u, hash, idle[0]);
    OneChosen(idle, cfg.target);
  }

  lemma FirstIdle(n: nat, active: set<Slot>, s: Slot)
    requires s < n && s !in active
    ensures Idle(n, active) != [] && Idle(n, active)[0] < n && Idle(n, active)[0] !in active
  {
    assert s in Idle(n, active);
    assert Idle(n, active)[0] in Idle(n, active);
  }

  lemma {:induction false} RunSplit(cfg: Config, w: World, a: seq<Step>, b: seq<Step>, hash: Uid -> nat)
    ensures Run(cfg, w, a + b, hash) == Run(cfg, Run(cfg, w, a, hash), b, hash)
    decreases |b|
  {
    hide Enabled, Do;
    if b == [] {
      assert a + b == a;
    } else {
      assert (a + b)[..|a + b| - 1] == a + b[..|b| - 1];
      RunSplit(cfg, w, a, b[..|b| - 1], hash);
    }
  }

  lemma RunOne(cfg: Config, w: World, step: Step, hash: Uid -> nat)
    requires Enabled(cfg, w, step, hash)
    ensures Run(cfg, w, [step], hash) == Do(cfg, w, step, hash)
  {
    hide Enabled, Do;
    assert [step][..0] == [];
  }

  /** Every other worker ends. */
  lemma {:induction false} OthersExit(cfg: Config, w: World, t: Slot, hash: Uid -> nat) returns (steps: seq<Step>)
    requires t in w.live
    ensures Exit(t) !in steps && Run(cfg, w, steps, hash) == w.(live := map[t := w.live[t]])
    decreases |w.live|
  {
    hide Run, After;
    if s :| s in w.live && s != t {
      var w1 := w.(live := w.live - {s});
      assert w1.live.Keys == w.live.Keys - {s};
      var rest := OthersExit(cfg, w1, t, hash);
      RunOne(cfg, w, Exit(s), hash);
      RunSplit(cfg, w, [Exit(s)], rest, hash);
      steps := [Exit(s)] + rest;
    } else {
      steps := [];
      assert w.live == map[t := w.live[t]];
      assert Run(cfg, w, [], hash) == w by { RunEmpty(cfg, w, hash); }
    }
  }

  lemma RunEmpty(cfg: Config, w: World, hash: Uid -> nat)
    ensures Run(cfg, w, [], hash) == w
  {
  }

  /** A cycle that finds nothing to schedule forgets the attempts of a UID whose source is not available. */
  lemma QuietCycle(cfg: Config, w: World, t: Slot, u: Uid, hash: Uid -> nat) returns (c: Cycle)
    requires w.live.Keys == {t} && t in w.files.assignments && u.source !in w.files.available
    ensures Enabled(cfg, w, RunCycle(c), hash)
    ensures
      var w' := After(cfg, w, c, hash);
      && w'.live == w.live && w'.files.assignments == w.files.assignments && w'.files.completed == w.files.completed
      && Due(w', t, u) == 0
  {
    hide Leases, Counted;
    c := Cycle({}, {}, {t}, [], {}, {}, Finished);
    var d, w' := Collected(w.files, {}, {}), After(cfg, w, c, hash);
    assert d.available == w.files.available;
    assert Recorded(d, d.saved - {t}, Kept(d), Counted(d, d.saved - {t}));
    assert w'.files.saved - {t} == {};
    assert Holders(w'.files, {}, u) == {};
  }

  /** With `u` exposed and nothing else running, the next cycle can lease it to the first idle slot. */
  lemma ExposedCycle(cfg: Config, w: World, t: Slot, u: Uid, hash: Uid -> nat) returns (c: Cycle)
    requires w.live.Keys == {t} && u in w.live[t] && Exposed(cfg, w, t, u) && Due(w, t, u) < cfg.maxAttempts
    ensures Enabled(cfg, w, RunCycle(c), hash) && LeasedTwice(After(cfg, w, c, hash), t, u)
  {
    hide Leases, CountedFiles, Excluded, Eligible, Due, After;
    FirstIdle(cfg.slots, {t}, if t == 0 then 1 else 0);
    var s := Idle(cfg.slots, {t})[0];
    c := Cycle({u.source}, {}, {t}, [u], {s}, {s}, Finished);
    StillEligible(cfg, w, c, t, u);
    OneUidCycle(cfg, w, c, u, hash);
    StartsOn(cfg, w, c, hash);
    assert s in w.live + Started(cfg, w, c, hash) && u in Started(cfg, w, c, hash)[s];
  }

  lemma StillEligible(cfg: Config, w: World, c: Cycle, t: Slot, u: Uid)
    requires Exposed(cfg, w, t, u) && Due(w, t, u) < cfg.maxAttempts
    requires c.available == {u.source} && c.completed == {} && c.active == {t}
    ensures Eligible(CountedFiles(w, c), Excluded(CountedFiles(w, c), cfg, c.active), u)
  {
    hide Counted, Holders;
    var d := Collected(w.files, c.available, c.completed);
    assert Recorded(d, d.saved - {t}, Kept(d), Counted(d, d.saved - {t}));
    SameHolders(w.files, d, d.saved - {t}, u);
    assert u !in Quarantined(CountedFiles(w, c), cfg);
    assert u !in ActiveUids(CountedFiles(w, c), {t});
  }

  /** The other workers end, and a cycle or two later `u` runs twice. */
  lemma LeaseAgain(cfg: Config, w: World, t: Slot, u: Uid, hash: Uid -> nat) returns (steps: seq<Step>)
    requires cfg.maxAttempts > 0 && Sole(w, t, u) && Exposed(cfg, w, t, u)
    ensures Exit(t) !in steps && LeasedTwice(Run(cfg, w, steps, hash), t, u)
  {
    hide Run, After, Enabled, Due, LeasedTwice;
    steps := OthersExit(cfg, w, t, hash);
    var w1 := Run(cfg, w, steps, hash);
    SameDue(w, w1, t, u);
    if u.source !in w.files.available {
      var quiet := QuietCycle(cfg, w1, t, u, hash);
      RunOne(cfg, w1, RunCycle(quiet), hash);
      RunSplit(cfg, w, steps, [RunCycle(quiet)], hash);
      steps := steps + [RunCycle(quiet)];
      w1 := Run(cfg, w, steps, hash);
    }
    var c := ExposedCycle(cfg, w1, t, u, hash);
    RunOne(cfg, w1, RunCycle(c), hash);
    RunSplit(cfg, w, steps, [RunCycle(c)], hash);
    steps := steps + [RunCycle(c)];
  }

  /** Two slots, nothing running and everything available. */
  function TwoSlots(u: Uid): World
  {
    World(Ledgers({u.source}, {}, map[], map[0 := {}, 1 := {}], {}), map[])
  }

  /** It happens: a cycle that starts its worker and dies before saving, or that returns normally although its
      launch probe saw nothing, leaves a lease the next cycle cannot see, and the same UID runs twice. */
  lemma UnseenWorkerLeasesTwice(cfg: Config, u: Uid, hash: Uid -> nat, reach: Reach)
    requires cfg.slots == 2 && cfg.perSlot > 0 && cfg.maxAttempts > 0 && Launches(reach)
    ensures
      var first := Cycle({}, {}, {}, [u], {0}, {}, reach);
      var second := Cycle({}, {}, {0}, [u], {1}, {1}, Finished);
      var w := TwoSlots(u);
      && Safe(w) && Enabled(cfg, w, RunCycle(first), hash) && Unrecorded(cfg, w, first, hash) == {0}
      && var w1 := After(cfg, w, first, hash);
      && Enabled(cfg, w1, RunCycle(second), hash)
      && After(cfg, w1, second, hash).live == map[0 := {u}, 1 := {u}]
  {
    hide Idle, After, Started, Noted, CountedFiles, Possible, Unrecorded;
    var first := Cycle({}, {}, {}, [u], {0}, {}, reach);
    var second := Cycle({}, {}, {0}, [u], {1}, {1}, Finished);
    var w := TwoSlots(u);
    SmallIdle();
    FirstLease(cfg, w, first, u, hash, 0);
    OffTheRecord(cfg, w, first, hash, u);
    var w1 := After(cfg, w, first, hash);
    FirstLease(cfg, w1, second, u, hash, 1);
    StartsOn(cfg, w1, second, hash);
    assert map[0 := {u}] + map[1 := {u}] == map[0 := {u}, 1 := {u}];
  }

  lemma StartsOn(cfg: Config, w: World, c: Cycle, hash: Uid -> nat)
    requires Launches(c.reach)
    ensures After(cfg, w, c, hash).live == w.live + Started(cfg, w, c, hash)
  {
    hide Started, CountedFiles;
  }

  lemma FirstLease(cfg: Config, w: World, c: Cycle, u: Uid, hash: Uid -> nat, s: Slot)
    requires w.files == TwoSlots(u).files && c.available == {} && c.completed == {} && c.master == [u] && c.launched == {s} && c.seen <= {s}
    requires cfg.maxAttempts > 0 && cfg.perSlot > 0 && c.active <= {0, 1}
    requires Idle(cfg.slots, c.active) != [] && Idle(cfg.slots, c.active)[0] == s
    ensures Started(cfg, w, c, hash) == map[s := {u}] && CountedFiles(w, c) == w.files && Possible(cfg, w, c, hash)
  {
    hide Leases, CountedFiles;
    NothingCounted(w, c);
    assert ActiveUids(w.files, c.active) == {};
    assert Quarantined(w.files, cfg) == {};
    OneUidCycle(cfg, w, c, u, hash);
  }

  lemma OffTheRecord(cfg: Config, w: World, c: Cycle, hash: Uid -> nat, u: Uid)
    requires w == TwoSlots(u) && Launches(c.reach) && c.active == {} && c.seen == {}
    requires Started(cfg, w, c, hash) == map[0 := {u}] && CountedFiles(w, c) == w.files
    ensures Unrecorded(cfg, w, c, hash) == {0}
    ensures After(cfg, w, c, hash) == World(w.files, map[0 := {u}])
  {
    hide Started, CountedFiles;
    assert u !in w.files.assignments[0];
    var noted := Noted(cfg, w, c, hash);
    assert noted == map[] && w.files.assignments + noted == w.files.assignments;
    assert w.live + map[0 := {u}] == map[0 := {u}];
  }

  lemma SmallIdle()
    ensures Idle(2, {}) == [0, 1] && Idle(2, {0}) == [1]
  {
    assert Idle(0, {}) == [] && Idle(1, {}) == [0];
    assert Idle(0, {0}) == [] && Idle(1, {0}) == [];
  }

  lemma NothingCounted(w: World, c: Cycle)
    requires w.files.attempts == map[] && w.files.saved == {} && c.available <= w.files.available && c.completed <= w.files.completed
    ensures CountedFiles(w, c) == w.files
  {
    var d := Collected(w.files, c.available, c.completed);
    assert d == w.files && d.saved - c.active == {};
    assert Counted(d, {}) == map[];
  }

  /** It happens: a cycle that fails between its two saves leaves two saved slots with the same UID, so that one
      later cycle counts it twice. */
  lemma FailureBetweenTheSaves(cfg: Config, u: Uid, hash: Uid -> nat)
    requires cfg.slots == 2 && cfg.perSlot > 0 && cfg.maxAttempts > 1
    ensures
      var w := World(Ledgers({u.source}, {}, map[], map[0 := {}, 1 := {u}], {0, 1}), map[]);
      var c := Cycle({}, {}, {}, [u], {0}, {0}, AssignmentsSaved);
      && Safe(w) && SavedDisjoint(w.files) && Enabled(cfg, w, RunCycle(c), hash)
      && Unrecorded(cfg, w, c, hash) == {} && Overlapping(cfg, w, c, hash) == {0}
  {
    hide Idle, Leases, CountedFiles, Eligible, Excluded, Unrecorded, Overlapping;
    var w := World(Ledgers({u.source}, {}, map[], map[0 := {}, 1 := {u}], {0, 1}), map[]);
    var c := Cycle({}, {}, {}, [u], {0}, {0}, AssignmentsSaved);
    SmallIdle();
    TriedOnce(cfg, w, c, u);
    OneUidCycle(cfg, w, c, u, hash);
    TakesOver(cfg, w, c, hash, u);
  }

  lemma TriedOnce(cfg: Config, w: World, c: Cycle, u: Uid)
    requires w.files == Ledgers({u.source}, {}, map[], map[0 := {}, 1 := {u}], {0, 1}) && cfg.maxAttempts > 1
    requires c.available == {} && c.completed == {} && c.active == {}
    ensures Eligible(CountedFiles(w, c), Excluded(CountedFiles(w, c), cfg, c.active), u)
  {
    hide Counted, Holders;
    OneAttempt(w.files, u);
    var d := Collected(w.files, {}, {});
    assert d == w.files && d.saved - {} == {0, 1};
    assert Recorded(d, {0, 1}, Kept(d), Counted(d, {0, 1}));
    assert u !in Quarantined(CountedFiles(w, c), cfg) && ActiveUids(CountedFiles(w, c), {}) == {};
  }

  lemma OneAttempt(d: Ledgers, u: Uid)
    requires d.assignments == map[0 := {}, 1 := {u}]
    ensures |Holders(d, {0, 1}, u)| == 1
  {
    assert Holders(d, {0, 1}, u) == {1};
  }

  lemma TakesOver(cfg: Config, w: World, c: Cycle, hash: Uid -> nat, u: Uid)
    requires Leases(cfg, w, c, hash) == map[0 := {u}] && c.launched == c.seen == {0} && c.reach.AssignmentsSaved?
    requires w.files.assignments == map[0 := {}, 1 := {u}] && w.files.saved == {0, 1}
    ensures Unrecorded(cfg, w, c, hash) == {} && Overlapping(cfg, w, c, hash) == {0}
  {
    hide Leases;
    var noted := Noted(cfg, w, c, hash);
    assert noted == map[0 := {u}];
    var now := w.files.assignments + noted;
    assert u in noted[0] && u in now[1];
  }

  /** A cycle that fails after saving the attempts is repeated by the next one: the same ended lease is
      counted again, because the active slots were not saved. */
  lemma AbortAfterAttemptsCountsTwice(cfg: Config, w: World, c: Cycle, hash: Uid -> nat, s: Slot, u: Uid)
    requires SavedDisjoint(w.files) && s in w.files.saved - c.active && s in w.files.assignments && u in w.files.assignments[s]
    requires u.source in w.files.available && u !in w.files.completed + c.completed && c.reach == AttemptsSaved
    ensures
      var once := After(cfg, w, c, hash);
      var twice := After(cfg, once, c, hash);
      && Before(once.files.attempts, u) == Before(w.files.attempts, u) + 1
      && Before(twice.files.attempts, u) == Before(w.files.attempts, u) + 2
  {
    CountedOnce(w, c, s, u);
    CountedOnce(After(cfg, w, c, hash), c, s, u);
  }

  lemma AtMostOneHolder(d: Ledgers, finished: set<Slot>, u: Uid)
    requires SavedDisjoint(d) && finished <= d.saved
    ensures |Holders(d, finished, u)| <= 1
  {
    var h := Holders(d, finished, u);
    if h != {} {
      var s :| s in h;
      assert h == {s};
    }
  }

  lemma CountedOnce(w: World, c: Cycle, s: Slot, u: Uid)
    requires SavedDisjoint(w.files) && s in w.files.saved - c.active && s in w.files.assignments && u in w.files.assignments[s]
    requires u.source in w.files.available && u !in w.files.completed + c.completed
    ensures Before(CountedFiles(w, c).attempts, u) == Before(w.files.attempts, u) + 1
  {
    hide Counted;
    var d := Collected(w.files, c.available, c.completed);
    var finished := d.saved - c.active;
    AtMostOneHolder(d, finished, u);
    assert s in Holders(d, finished, u);
    assert Recorded(d, finished, Kept(d), Counted(d, finished));
  }
}
