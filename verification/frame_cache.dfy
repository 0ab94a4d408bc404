/** The byte-bounded frame cache of scripts/bounded_media.py: an ordered hot part in memory,
    files on disk, and an optional mode that writes a frame only when it is evicted. */
module FrameCacheModel {

  type Key = nat

  newtype Byte = i: int | 0 <= i < 256

  datatype Value = Value(mime: string, bytes: seq<Byte>)

  /** The type every value read back from disk is given. */
  const JPEG: string := "image/jpeg"

  datatype Option<+T> = None | Some(value: T)

  datatype Entry = Entry(key: Key, value: Value)

  datatype Config = Config(budget: nat, writeThrough: bool)

  /** `paths`, `hot` (oldest use first), `dirty`, `bytes`, and the files below `root`. */
  datatype Cache = Cache(paths: set<Key>, hot: seq<Entry>, dirty: set<Key>, bytes: int, disk: map<Key, seq<Byte>>)

  const EMPTY: Cache := Cache({}, [], {}, 0, map[])

  datatype Op = Store(key: Key, value: Value) | Fetch(key: Key) | Delete(key: Key) | Clear

  function HotBytes(hot: seq<Entry>): nat
  {
    if hot == [] then 0 else |hot[0].value.bytes| + HotBytes(hot[1..])
  }

  function Lookup(hot: seq<Entry>, k: Key): (r: Option<Value>)
    ensures r.Some? ==> Entry(k, r.value) in hot
    ensures r.None? ==> forall e :: e in hot ==> e.key != k
  {
    if hot == [] then None
    else if hot[0].key == k then Some(hot[0].value)
    else
      var rest := Lookup(hot[1..], k);
      assert hot == [hot[0]] + hot[1..];
      rest
  }

  function Remove(hot: seq<Entry>, k: Key): (r: seq<Entry>)
    ensures forall e :: e in r <==> e in hot && e.key != k
  {
    if hot == [] then []
    else
      var rest := Remove(hot[1..], k);
      assert hot == [hot[0]] + hot[1..];
      if hot[0].key == k then rest else [hot[0]] + rest
  }

  /* ---------- the operations ---------- */

  function Persist(c: Cache, k: Key, v: Value): Cache
  {
    c.(disk := c.disk[k := v.bytes], dirty := c.dirty - {k})
  }

  function EvictOne(c: Cache): Cache
    requires c.hot != []
  {
    var victim := c.hot[0];
    var saved := if victim.key in c.dirty then Persist(c, victim.key, victim.value) else c;
    saved.(hot := saved.hot[1..], bytes := saved.bytes - |victim.value.bytes|)
  }

  function Evict(cfg: Config, c: Cache, size: nat): Cache
    decreases |c.hot|
  {
    if c.hot != [] && c.bytes + size > cfg.budget then Evict(cfg, EvictOne(c), size) else c
  }

  function PopHot(c: Cache, k: Key): Cache
  {
    match Lookup(c.hot, k)
    case None => c
    case Some(v) => c.(hot := Remove(c.hot, k), bytes := c.bytes - |v.bytes|)
  }

  function Keep(cfg: Config, c: Cache, k: Key, v: Value): Cache
  {
    if |v.bytes| <= cfg.budget then c.(hot := c.hot + [Entry(k, v)], bytes := c.bytes + |v.bytes|) else c
  }

  /** `_remember`. */
  function Remember(cfg: Config, c: Cache, k: Key, v: Value): Cache
  {
    Keep(cfg, Evict(cfg, PopHot(c, k), |v.bytes|), k, v)
  }

  function Put(cfg: Config, c: Cache, k: Key, v: Value): Cache
  {
    var known := c.(paths := c.paths + {k});
    var saved := if cfg.writeThrough || |v.bytes| > cfg.budget then Persist(known, k, v) else known;
    var kept := Remember(cfg, saved, k, v);
    if !cfg.writeThrough && Lookup(kept.hot, k).Some? then kept.(dirty := kept.dirty + {k}) else kept
  }

  /** `cache[key]`; None is the KeyError, or the read of a file that is not there. */
  function Get(cfg: Config, c: Cache, k: Key): (Cache, Option<Value>)
  {
    match Lookup(c.hot, k)
    case Some(v) => (c.(hot := Remove(c.hot, k) + [Entry(k, v)]), Some(v))
    case None =>
      if k !in c.paths || k !in c.disk then (c, None)
      else
        var v := Value(JPEG, c.disk[k]);
        (Remember(cfg, c, k, v), Some(v))
  }

  /** `del cache[key]`; unknown keys raise and change nothing. */
  function Drop(c: Cache, k: Key): Cache
  {
    if k !in c.paths then c
    else PopHot(c.(paths := c.paths - {k}, disk := c.disk - {k}, dirty := c.dirty - {k}), k)
  }

  function Apply(cfg: Config, c: Cache, op: Op): Cache
  {
    match op
    case Store(k, v) => Put(cfg, c, k, v)
    case Fetch(k) => Get(cfg, c, k).0
    case Delete(k) => Drop(c, k)
    case Clear => Cache({}, [], {}, 0, c.disk)
  }

  function Run(cfg: Config, ops: seq<Op>): Cache
  {
    if ops == [] then EMPTY else Apply(cfg, Run(cfg, ops[..|ops| - 1]), ops[|ops| - 1])
  }

  /* ---------- the plain map ---------- */

  function Plain(m: map<Key, Value>, op: Op): map<Key, Value>
  {
    match op
    case Store(k, v) => m[k := v]
    case Fetch(_) => m
    case Delete(k) => m - {k}
    case Clear => map[]
  }

  function Stored(ops: seq<Op>): map<Key, Value>
  {
    if ops == [] then map[] else Plain(Stored(ops[..|ops| - 1]), ops[|ops| - 1])
  }

  /* ---------- the invariant ---------- */

  ghost predicate OneEach(hot: seq<Entry>)
  {
    forall i, j :: 0 <= i < j < |hot| ==> hot[i].key != hot[j].key
  }

  /** A value read from the cache stands for the stored one; its type may have become JPEG. */
  predicate Stands(v: Value, stored: Value)
  {
    v.bytes == stored.bytes && (v == stored || v.mime == JPEG)
  }

  /** Key `k` can be read: from memory, or from an up-to-date file. */
  ghost predicate Readable(c: Cache, m: map<Key, Value>, k: Key)
    requires k in m
  {
    && (forall v :: Entry(k, v) in c.hot ==> Stands(v, m[k]))
    && (k !in c.dirty ==> k in c.disk && c.disk[k] == m[k].bytes)
    && (k in c.dirty ==> Lookup(c.hot, k).Some?)
  }

  ghost predicate Agrees(c: Cache, m: map<Key, Value>)
  {
    && c.paths == m.Keys
    && (forall e :: e in c.hot ==> e.key in m)
    && c.dirty <= m.Keys
    && forall k :: k in m ==> Readable(c, m, k)
  }

  ghost predicate Sized(cfg: Config, c: Cache)
  {
    OneEach(c.hot) && c.bytes == HotBytes(c.hot) <= cfg.budget
  }

  ghost predicate Valid(cfg: Config, c: Cache, m: map<Key, Value>)
  {
    Sized(cfg, c) && Agrees(c, m) && (cfg.writeThrough ==> c.dirty == {})
  }

  /* ---------- sequences of entries ---------- */

  lemma {:induction false} HotBytesSplit(a: seq<Entry>, b: seq<Entry>)
    ensures HotBytes(a + b) == HotBytes(a) + HotBytes(b)
  {
    if a == [] {
      assert a + b == b;
    } else {
      HotBytesSplit(a[1..], b);
      assert (a + b)[1..] == a[1..] + b;
    }
  }

  lemma {:induction false} LookupIs(hot: seq<Entry>, e: Entry)
    requires OneEach(hot) && e in hot
    ensures Lookup(hot, e.key) == Some(e.value)
  {
    assert hot == [hot[0]] + hot[1..];
    if hot[0] != e {
      var i :| 0 < i < |hot| && hot[i] == e;
      assert hot[1..][i - 1] == e;
      LookupIs(hot[1..], e);
    }
  }

  lemma {:induction false} RemoveKeeps(hot: seq<Entry>, k: Key)
    requires OneEach(hot)
    ensures OneEach(Remove(hot, k))
    ensures HotBytes(hot) == HotBytes(Remove(hot, k)) + (match Lookup(hot, k) case Some(v) => |v.bytes| case None => 0)
  {
    if hot != [] {
      RemoveKeeps(hot[1..], k);
      var rest := Remove(hot[1..], k);
      if hot[0].key == k {
        assert forall e :: e in hot[1..] ==> e.key != k;
        RemoveNothing(hot[1..], k);
      }
      assert forall e :: e in rest ==> e.key != hot[0].key;
    }
  }

  lemma {:induction false} RemoveNothing(hot: seq<Entry>, k: Key)
    requires forall e :: e in hot ==> e.key != k
    ensures Remove(hot, k) == hot && Lookup(hot, k) == None
  {
    if hot != [] { RemoveNothing(hot[1..], k); }
  }

  /* ---------- eviction ---------- */

  /** The shortest prefix whose departure makes room; nothing else moves. */
  ghost predicate EvictsPrefix(cfg: Config, c: Cache, size: nat, n: nat, c': Cache)
  {
    && n <= |c.hot| && c'.hot == c.hot[n..] && c'.bytes == c.bytes - HotBytes(c.hot[..n])
    && (n < |c.hot| ==> c.bytes - HotBytes(c.hot[..n]) + size <= cfg.budget)
    && (forall j :: 0 <= j < n ==> c.bytes - HotBytes(c.hot[..j]) + size > cfg.budget)
  }

  lemma {:induction false} EvictionIsAPrefix(cfg: Config, c: Cache, size: nat) returns (n: nat)
    ensures EvictsPrefix(cfg, c, size, n, Evict(cfg, c, size))
    decreases |c.hot|
  {
    if c.hot != [] && c.bytes + size > cfg.budget {
      var m := EvictionIsAPrefix(cfg, EvictOne(c), size);
      n := m + 1;
      var rest := c.hot[1..];
      forall j | 0 < j <= |c.hot| ensures HotBytes(c.hot[..j]) == |c.hot[0].value.bytes| + HotBytes(rest[..j - 1]) {
        assert c.hot[..j][1..] == rest[..j - 1];
      }
      assert EvictOne(c).hot == rest && rest[m..] == c.hot[n..];
    } else {
      n := 0;
    }
  }

  lemma EvictOneKeeps(cfg: Config, c: Cache, m: map<Key, Value>)
    requires c.hot != [] && OneEach(c.hot) && c.bytes == HotBytes(c.hot)
    requires forall k :: k in m ==> Readable(c, m, k)
    ensures
      var c' := EvictOne(c);
      && OneEach(c'.hot) && c'.bytes == HotBytes(c'.hot) && c'.paths == c.paths && c'.dirty <= c.dirty
      && (forall e :: e in c'.hot ==> e in c.hot)
      && forall k :: k in m ==> Readable(c', m, k)
  {
    var c', victim := EvictOne(c), c.hot[0];
    assert c.hot == [victim] + c'.hot;
    forall k | k in m ensures Readable(c', m, k) {
      assert Readable(c, m, k);
      if k == victim.key {
        assert victim in c.hot;
      } else if k in c'.dirty {
        assert Lookup(c.hot, k) == Lookup(c'.hot, k);
      }
    }
  }

  lemma {:induction false} EvictKeeps(cfg: Config, c: Cache, size: nat, m: map<Key, Value>)
    requires OneEach(c.hot) && c.bytes == HotBytes(c.hot)
    requires forall k :: k in m ==> Readable(c, m, k)
    ensures
      var c' := Evict(cfg, c, size);
      && OneEach(c'.hot) && c'.bytes == HotBytes(c'.hot) && c'.paths == c.paths && c'.dirty <= c.dirty
      && (forall e :: e in c'.hot ==> e in c.hot)
      && (c'.hot != [] ==> c'.bytes + size <= cfg.budget)
      && forall k :: k in m ==> Readable(c', m, k)
    decreases |c.hot|
  {
    hide Readable, OneEach, HotBytes;
    if c.hot != [] && c.bytes + size > cfg.budget {
      EvictOneKeeps(cfg, c, m);
      EvictKeeps(cfg, EvictOne(c), size, m);
    }
  }

  lemma PopKeeps(c: Cache, m: map<Key, Value>, k: Key)
    requires OneEach(c.hot) && c.bytes == HotBytes(c.hot)
    requires forall q :: q in m && q != k ==> Readable(c, m, q)
    ensures
      var c' := PopHot(c, k);
      && OneEach(c'.hot) && c'.bytes == HotBytes(c'.hot) && c'.paths == c.paths && c'.dirty == c.dirty
      && (forall e :: e in c'.hot <==> e in c.hot && e.key != k)
      && forall q :: q in m - {k} ==> Readable(c', m - {k}, q)
  {
    hide HotBytes;
    RemoveKeeps(c.hot, k);
    var c', rest := PopHot(c, k), m - {k};
    forall q | q in rest ensures Readable(c', rest, q) {
      assert Readable(c, m, q);
      if q in c.dirty { assert Entry(q, Lookup(c.hot, q).value) in c'.hot; }
    }
  }

  /** `_remember` of a value that stands for the stored one, whether or not the key was known. */
  lemma RememberKeeps(cfg: Config, c: Cache, m: map<Key, Value>, k: Key, v: Value)
    requires OneEach(c.hot) && c.bytes == HotBytes(c.hot) && k in m && Stands(v, m[k])
    requires forall q :: q in m && q != k ==> Readable(c, m, q)
    ensures
      var c' := Remember(cfg, c, k, v);
      && Sized(cfg, c') && c'.paths == c.paths && c'.dirty <= c.dirty
      && (forall e :: e in c'.hot ==> e == Entry(k, v) || (e in c.hot && e.key != k))
      && (Lookup(c'.hot, k) == if |v.bytes| <= cfg.budget then Some(v) else None)
      && forall q :: q in m && q != k ==> Readable(c', m, q)
  {
    hide HotBytes, OneEach, Evict;
    var popped := PopHot(c, k);
    var rest := m - {k};
    PopKeeps(c, m, k);
    var fit := Evict(cfg, popped, |v.bytes|);
    EvictKeeps(cfg, popped, |v.bytes|, rest);
    KeepAdds(cfg, fit, k, v);
    var c' := Remember(cfg, c, k, v);
    forall q | q in m && q != k ensures Readable(c', m, q) {
      assert Readable(fit, rest, q);
      KeepFinds(cfg, fit, k, v, q);
    }
  }

  lemma KeepAdds(cfg: Config, c: Cache, k: Key, v: Value)
    requires OneEach(c.hot) && c.bytes == HotBytes(c.hot) && forall e :: e in c.hot ==> e.key != k
    requires c.hot != [] ==> c.bytes + |v.bytes| <= cfg.budget
    ensures Sized(cfg, Keep(cfg, c, k, v))
    ensures Lookup(Keep(cfg, c, k, v).hot, k) == if |v.bytes| <= cfg.budget then Some(v) else None
  {
    HotBytesSplit(c.hot, [Entry(k, v)]);
    var c' := Keep(cfg, c, k, v);
    assert OneEach(c'.hot);
    if |v.bytes| <= cfg.budget {
      assert Entry(k, v) in c'.hot;
      LookupIs(c'.hot, Entry(k, v));
    }
  }

  lemma KeepFinds(cfg: Config, c: Cache, k: Key, v: Value, q: Key)
    requires q != k
    ensures Lookup(c.hot, q).Some? ==> Lookup(Keep(cfg, c, k, v).hot, q).Some?
  {
    var found := Lookup(c.hot, q);
    if found.Some? { assert Entry(q, found.value) in Keep(cfg, c, k, v).hot; }
  }

  /* ---------- every operation keeps the invariant ---------- */

  lemma PutKeeps(cfg: Config, c: Cache, m: map<Key, Value>, k: Key, v: Value)
    requires Valid(cfg, c, m)
    ensures Valid(cfg, Put(cfg, c, k, v), m[k := v])
  {
    hide HotBytes, OneEach, Remember, Lookup;
    var m' := m[k := v];
    var known := c.(paths := c.paths + {k});
    var saved := if cfg.writeThrough || |v.bytes| > cfg.budget then Persist(known, k, v) else known;
    forall q | q in m' && q != k ensures Readable(saved, m', q) {
      assert Readable(c, m, q);
    }
    RememberKeeps(cfg, saved, m', k, v);
    var kept, c' := Remember(cfg, saved, k, v), Put(cfg, c, k, v);
    if cfg.writeThrough || |v.bytes| > cfg.budget { FileSurvives(cfg, saved, k, v); }
    forall q | q in m' ensures Readable(c', m', q) {
      if q != k { assert Readable(kept, m', q); }
    }
    assert forall e :: e in c'.hot ==> e.key in m';
  }

  /** A clean key's file is not written while another key is evicted. */
  lemma FileSurvives(cfg: Config, c: Cache, k: Key, v: Value)
    requires k !in c.dirty && k in c.disk
    ensures
      var c' := Remember(cfg, c, k, v);
      k !in c'.dirty && k in c'.disk && c'.disk[k] == c.disk[k]
  {
    EvictLeaves(cfg, PopHot(c, k), |v.bytes|, k);
  }

  lemma {:induction false} EvictLeaves(cfg: Config, c: Cache, size: nat, k: Key)
    requires k !in c.dirty && k in c.disk
    ensures
      var c' := Evict(cfg, c, size);
      k !in c'.dirty && k in c'.disk && c'.disk[k] == c.disk[k]
    decreases |c.hot|
  {
    if c.hot != [] && c.bytes + size > cfg.budget { EvictLeaves(cfg, EvictOne(c), size, k); }
  }

  lemma GetKeeps(cfg: Config, c: Cache, m: map<Key, Value>, k: Key)
    requires Valid(cfg, c, m)
    ensures Valid(cfg, Get(cfg, c, k).0, m)
    ensures Get(cfg, c, k).1.None? <==> k !in m
    ensures k in m ==> Stands(Get(cfg, c, k).1.value, m[k])
  {
    hide HotBytes, OneEach, Remember;
    match Lookup(c.hot, k)
    case Some(v) =>
      assert Entry(k, v) in c.hot;
      assert Readable(c, m, k);
      MoveToEnd(c.hot, k, v);
      var c' := Get(cfg, c, k).0;
      forall q | q in m ensures Readable(c', m, q) {
        assert Readable(c, m, q);
        if q in c.dirty { assert Entry(q, Lookup(c.hot, q).value) in c'.hot; }
      }
    case None =>
      if k in m {
        assert Readable(c, m, k);
        var v := Value(JPEG, c.disk[k]);
        RememberKeeps(cfg, c, m, k, v);
        FileSurvives(cfg, c, k, v);
        var c' := Get(cfg, c, k).0;
        forall q | q in m ensures Readable(c', m, q) { }
      }
  }

  lemma MoveToEnd(hot: seq<Entry>, k: Key, v: Value)
    requires OneEach(hot) && Lookup(hot, k) == Some(v)
    ensures
      var hot' := Remove(hot, k) + [Entry(k, v)];
      && OneEach(hot') && HotBytes(hot') == HotBytes(hot)
      && (forall e :: e in hot' <==> e in hot)
  {
    RemoveKeeps(hot, k);
    HotBytesSplit(Remove(hot, k), [Entry(k, v)]);
    forall e | e in hot && e.key == k ensures e == Entry(k, v) { LookupIs(hot, e); }
  }

  lemma DropKeeps(cfg: Config, c: Cache, m: map<Key, Value>, k: Key)
    requires Valid(cfg, c, m)
    ensures Valid(cfg, Drop(c, k), m - {k})
  {
    hide HotBytes, OneEach;
    if k in c.paths {
      var gone := c.(paths := c.paths - {k}, disk := c.disk - {k}, dirty := c.dirty - {k});
      forall q | q in m && q != k ensures Readable(gone, m, q) { assert Readable(c, m, q); }
      PopKeeps(gone, m, k);
      SmallerFits(c.hot, k);
    } else {
      assert m - {k} == m;
    }
  }

  lemma SmallerFits(hot: seq<Entry>, k: Key)
    requires OneEach(hot)
    ensures HotBytes(Remove(hot, k)) <= HotBytes(hot)
  {
    RemoveKeeps(hot, k);
  }

  lemma {:induction false} RunKeeps(cfg: Config, ops: seq<Op>)
    ensures Valid(cfg, Run(cfg, ops), Stored(ops))
    decreases |ops|
  {
    hide Valid, Put, Get, Drop;
    if ops == [] {
      EmptyIsValid(cfg, EMPTY);
    } else {
      var c, m := Run(cfg, ops[..|ops| - 1]), Stored(ops[..|ops| - 1]);
      RunKeeps(cfg, ops[..|ops| - 1]);
      match ops[|ops| - 1]
      case Store(k, v) => PutKeeps(cfg, c, m, k, v);
      case Fetch(k) => GetKeeps(cfg, c, m, k);
      case Delete(k) => DropKeeps(cfg, c, m, k);
      case Clear => EmptyIsValid(cfg, Cache({}, [], {}, 0, c.disk));
    }
  }

  lemma EmptyIsValid(cfg: Config, c: Cache)
    requires c.paths == {} && c.hot == [] && c.dirty == {} && c.bytes == 0
    ensures Valid(cfg, c, map[])
  {
  }

  /* ---------- the guarantees ---------- */

  /** Any mix of operations, in either mode: a read finds the bytes stored last, and exactly the stored keys. */
  lemma ReadsTheLastBytes(cfg: Config, ops: seq<Op>, k: Key)
    ensures
      var read := Get(cfg, Run(cfg, ops), k).1;
      && (read.None? <==> k !in Stored(ops))
      && (read.Some? ==> read.value.bytes == Stored(ops)[k].bytes)
      && (read.Some? && Stored(ops)[k].mime == JPEG ==> read.value == Stored(ops)[k])
  {
    hide Valid, Get;
    RunKeeps(cfg, ops);
    GetKeeps(cfg, Run(cfg, ops), Stored(ops), k);
  }

  /** Memory stays inside the budget, unsaved frames stay in memory, every other frame is up to date on disk. */
  lemma BoundedAndBacked(cfg: Config, ops: seq<Op>)
    ensures
      var c, m := Run(cfg, ops), Stored(ops);
      && c.bytes == HotBytes(c.hot) <= cfg.budget
      && (forall k :: k in c.dirty ==> exists v :: Entry(k, v) in c.hot)
      && (forall k :: k in m && (k !in c.dirty || forall e :: e in c.hot ==> e.key != k) ==>
            k in c.disk && c.disk[k] == m[k].bytes)
      && (cfg.writeThrough ==> forall k :: k in m ==> k in c.disk && c.disk[k] == m[k].bytes)
  {
    hide HotBytes, OneEach, Run;
    RunKeeps(cfg, ops);
    var c, m := Run(cfg, ops), Stored(ops);
    forall k | k in c.dirty ensures exists v :: Entry(k, v) in c.hot {
      assert Readable(c, m, k);
      assert Entry(k, Lookup(c.hot, k).value) in c.hot;
    }
    forall k | k in m && (k !in c.dirty || forall e :: e in c.hot ==> e.key != k) ensures k in c.disk && c.disk[k] == m[k].bytes {
      assert Readable(c, m, k);
    }
  }

  predicate Touches(op: Op, k: Key)
  {
    op == Clear || (op.Store? && op.key == k) || (op.Delete? && op.key == k)
  }

  /** The cache is a plain map for a value exactly when its type is the one the disk path assumes:
      any other value stops being returned once its key has been pushed out of memory. */
  lemma ReturnsTheValueIffJpeg(cfg: Config, k: Key, v: Value)
    ensures
      v.mime == JPEG <==>
      forall before: seq<Op>, after: seq<Op> :: (forall op :: op in after ==> !Touches(op, k)) ==>
        Get(cfg, Run(cfg, before + [Store(k, v)] + after), k).1 == Some(v)
  {
    if v.mime == JPEG {
      forall before: seq<Op>, after: seq<Op> | forall op :: op in after ==> !Touches(op, k)
        ensures Get(cfg, Run(cfg, before + [Store(k, v)] + after), k).1 == Some(v)
      {
        StillStored(before, after, k, v);
        ReadsTheLastBytes(cfg, before + [Store(k, v)] + after, k);
      }
    } else {
      var big := Value(JPEG, seq(cfg.budget + 1, i => 0));
      PushedOut(cfg, k, v, big);
      var after := [Store(k + 1, big)];
      assert forall op :: op in after ==> !Touches(op, k);
      assert Get(cfg, Run(cfg, [] + [Store(k, v)] + after), k).1 != Some(v);
    }
  }

  lemma {:induction false} StillStored(before: seq<Op>, after: seq<Op>, k: Key, v: Value)
    requires forall op :: op in after ==> !Touches(op, k)
    ensures k in Stored(before + [Store(k, v)] + after) && Stored(before + [Store(k, v)] + after)[k] == v
    decreases |after|
  {
    var all := before + [Store(k, v)] + after;
    if after == [] {
      assert all[..|all| - 1] == before;
    } else {
      var front := after[..|after| - 1];
      assert all[..|all| - 1] == before + [Store(k, v)] + front;
      StillStored(before, front, k, v);
      assert after[|after| - 1] in after;
    }
  }

  /** An oversized frame empties the hot part; what is read afterwards comes from disk. */
  lemma PushedOut(cfg: Config, k: Key, v: Value, big: Value)
    requires |big.bytes| > cfg.budget
    ensures
      var read := Get(cfg, Run(cfg, [] + [Store(k, v)] + [Store(k + 1, big)]), k).1;
      read.None? || read.value.mime == JPEG
  {
    hide Evict, PopHot;
    var ops := [] + [Store(k, v)] + [Store(k + 1, big)];
    var c := Run(cfg, ops[..1]);
    assert ops[..|ops| - 1] == ops[..1];
    var saved := Persist(c.(paths := c.paths + {k + 1}), k + 1, big);
    var popped := PopHot(saved, k + 1);
    EvictsAll(cfg, popped, |big.bytes|);
    PoppedSize(cfg, ops[..1], k + 1, saved);
    assert Run(cfg, ops).hot == [];
  }

  lemma PoppedSize(cfg: Config, ops: seq<Op>, k: Key, saved: Cache)
    requires saved.hot == Run(cfg, ops).hot && saved.bytes == Run(cfg, ops).bytes
    ensures PopHot(saved, k).bytes == HotBytes(PopHot(saved, k).hot)
  {
    hide Run;
    RunKeeps(cfg, ops);
    RemoveKeeps(saved.hot, k);
  }

  lemma {:induction false} EvictsAll(cfg: Config, c: Cache, size: nat)
    requires size > cfg.budget
    ensures c.bytes == HotBytes(c.hot) ==> Evict(cfg, c, size).hot == []
    decreases |c.hot|
  {
    if c.hot != [] && c.bytes == HotBytes(c.hot) { EvictsAll(cfg, EvictOne(c), size); }
  }

  /* ---------- least recently used ---------- */

  /** The number of operations up to and including the last use of `k`; zero before any use. */
  function LastUse(ops: seq<Op>, k: Key): nat
  {
    if ops == [] then 0
    else
      var op := ops[|ops| - 1];
      if (op.Store? || op.Fetch?) && op.key == k then |ops| else LastUse(ops[..|ops| - 1], k)
  }

  ghost predicate ByUse(hot: seq<Entry>, ops: seq<Op>)
  {
    hot != [] ==> (forall e :: e in hot[1..] ==> LastUse(ops, hot[0].key) < LastUse(ops, e.key)) && ByUse(hot[1..], ops)
  }

  lemma {:induction false} ByUseAt(hot: seq<Entry>, ops: seq<Op>, i: nat, j: nat)
    requires ByUse(hot, ops) && i < j < |hot|
    ensures LastUse(ops, hot[i].key) < LastUse(ops, hot[j].key)
  {
    if i == 0 {
      assert hot[1..][j - 1] == hot[j];
    } else {
      ByUseAt(hot[1..], ops, i - 1, j - 1);
    }
  }

  /** After any run the hot part is ordered by last use, so the prefix that the next eviction takes
      was used before everything that stays. */
  lemma EvictsLeastRecentlyUsed(cfg: Config, ops: seq<Op>, size: nat) returns (n: nat)
    ensures
      var c := Run(cfg, ops);
      && EvictsPrefix(cfg, c, size, n, Evict(cfg, c, size))
      && forall i, j :: 0 <= i < n <= j < |c.hot| ==> LastUse(ops, c.hot[i].key) < LastUse(ops, c.hot[j].key)
  {
    hide Run, LastUse, EvictsPrefix, ByUse, Evict;
    var c := Run(cfg, ops);
    n := EvictionIsAPrefix(cfg, c, size);
    HotIsByUse(cfg, ops);
    forall i, j | 0 <= i < n <= j < |c.hot| ensures LastUse(ops, c.hot[i].key) < LastUse(ops, c.hot[j].key) {
      ByUseAt(c.hot, ops, i, j);
    }
  }

  lemma {:induction false} HotIsByUse(cfg: Config, ops: seq<Op>)
    ensures ByUse(Run(cfg, ops).hot, ops)
    decreases |ops|
  {
    hide ByUse, Put, Get, Drop;
    if ops == [] {
      NothingByUse(ops);
    } else {
      var front, op := ops[..|ops| - 1], ops[|ops| - 1];
      var c := Run(cfg, front);
      HotIsByUse(cfg, front);
      RunKeeps(cfg, front);
      match op
      case Store(k, v) => PutByUse(cfg, c, k, v, ops);
      case Fetch(k) => GetByUse(cfg, c, k, ops);
      case Delete(k) => DropByUse(c, k, ops);
      case Clear => NothingByUse(ops);
    }
  }

  lemma NothingByUse(ops: seq<Op>)
    ensures ByUse([], ops)
  {
  }

  lemma {:induction false} RemoveByUse(hot: seq<Entry>, k: Key, ops: seq<Op>)
    requires ByUse(hot, ops)
    ensures ByUse(Remove(hot, k), ops)
  {
    hide LastUse;
    if hot != [] {
      RemoveByUse(hot[1..], k, ops);
      var part := Remove(hot, k);
      if hot[0].key != k { assert part[1..] == Remove(hot[1..], k); }
    }
  }

  lemma {:induction false} SuffixByUse(hot: seq<Entry>, n: nat, ops: seq<Op>)
    requires ByUse(hot, ops) && n <= |hot|
    ensures ByUse(hot[n..], ops)
  {
    if n > 0 {
      SuffixByUse(hot[1..], n - 1, ops);
      assert hot[n..] == hot[1..][n - 1..];
    }
  }

  /** An operation that uses none of these keys leaves their order alone. */
  lemma {:induction false} UnusedByUse(hot: seq<Entry>, ops: seq<Op>)
    requires ops != [] && ByUse(hot, ops[..|ops| - 1])
    requires forall e :: e in hot ==> LastUse(ops, e.key) == LastUse(ops[..|ops| - 1], e.key)
    ensures ByUse(hot, ops)
  {
    hide LastUse;
    if hot != [] {
      assert forall e :: e in hot[1..] ==> e in hot;
      UnusedByUse(hot[1..], ops);
    }
  }

  lemma {:induction false} AppendByUse(hot: seq<Entry>, e: Entry, ops: seq<Op>)
    requires ByUse(hot, ops) && forall q :: q in hot ==> LastUse(ops, q.key) < LastUse(ops, e.key)
    ensures ByUse(hot + [e], ops)
  {
    hide LastUse;
    if hot != [] {
      AppendByUse(hot[1..], e, ops);
      assert (hot + [e])[1..] == hot[1..] + [e];
    }
  }

  lemma {:induction false} LastUseBounded(ops: seq<Op>, k: Key)
    ensures LastUse(ops, k) <= |ops|
    decreases |ops|
  {
    if ops != [] { LastUseBounded(ops[..|ops| - 1], k); }
  }

  /** The key just used goes to the end. */
  lemma UsedLast(part: seq<Entry>, e: Entry, ops: seq<Op>)
    requires ops != [] && ByUse(part, ops[..|ops| - 1]) && forall q :: q in part ==> q.key != e.key
    requires (ops[|ops| - 1].Store? || ops[|ops| - 1].Fetch?) && ops[|ops| - 1].key == e.key
    ensures ByUse(part, ops) && ByUse(part + [e], ops)
  {
    hide ByUse;
    UnusedByUse(part, ops);
    forall q | q in part ensures LastUse(ops, q.key) < |ops| { LastUseBounded(ops[..|ops| - 1], q.key); }
    AppendByUse(part, e, ops);
  }

  lemma RememberByUse(cfg: Config, c: Cache, k: Key, v: Value, ops: seq<Op>)
    requires ops != [] && ByUse(c.hot, ops[..|ops| - 1])
    requires (ops[|ops| - 1].Store? || ops[|ops| - 1].Fetch?) && ops[|ops| - 1].key == k
    ensures ByUse(Remember(cfg, c, k, v).hot, ops)
  {
    hide ByUse, Evict, HotBytes, LastUse;
    var popped := PopHot(c, k);
    RemoveByUse(c.hot, k, ops[..|ops| - 1]);
    var n := EvictionIsAPrefix(cfg, popped, |v.bytes|);
    SuffixByUse(popped.hot, n, ops[..|ops| - 1]);
    UsedLast(popped.hot[n..], Entry(k, v), ops);
  }

  lemma PutByUse(cfg: Config, c: Cache, k: Key, v: Value, ops: seq<Op>)
    requires ops != [] && ops[|ops| - 1] == Store(k, v) && ByUse(c.hot, ops[..|ops| - 1])
    ensures ByUse(Put(cfg, c, k, v).hot, ops)
  {
    hide ByUse, Remember;
    var known := c.(paths := c.paths + {k});
    var saved := if cfg.writeThrough || |v.bytes| > cfg.budget then Persist(known, k, v) else known;
    RememberByUse(cfg, saved, k, v, ops);
  }

  lemma GetByUse(cfg: Config, c: Cache, k: Key, ops: seq<Op>)
    requires ops != [] && ops[|ops| - 1] == Fetch(k) && ByUse(c.hot, ops[..|ops| - 1])
    ensures ByUse(Get(cfg, c, k).0.hot, ops)
  {
    hide ByUse, Remember;
    match Lookup(c.hot, k)
    case Some(v) =>
      RemoveByUse(c.hot, k, ops[..|ops| - 1]);
      UsedLast(Remove(c.hot, k), Entry(k, v), ops);
    case None =>
      if k in c.paths && k in c.disk {
        RememberByUse(cfg, c, k, Value(JPEG, c.disk[k]), ops);
      } else {
        UnusedByUse(c.hot, ops);
      }
  }

  lemma DropByUse(c: Cache, k: Key, ops: seq<Op>)
    requires ops != [] && ops[|ops| - 1] == Delete(k) && ByUse(c.hot, ops[..|ops| - 1])
    ensures ByUse(Drop(c, k).hot, ops)
  {
    hide ByUse;
    RemoveByUse(c.hot, k, ops[..|ops| - 1]);
    UnusedByUse(Drop(c, k).hot, ops);
  }

  /* ---------- the class ---------- */

  /** The object itself, fields changed step by step; each method is tied to the value model above. */
  class FrameCache {
    const cfg: Config
    var paths: set<Key>
    var hot: seq<Entry>
    var dirty: set<Key>
    var bytes: int
    var disk: map<Key, seq<Byte>>

    ghost function State(): Cache
      reads this
    {
      Cache(paths, hot, dirty, bytes, disk)
    }

    constructor (cfg: Config)
      ensures this.cfg == cfg && State() == EMPTY
    {
      this.cfg := cfg;
      paths, hot, dirty, bytes, disk := {}, [], {}, 0, map[];
    }

    method PersistFrame(k: Key, v: Value)
      modifies this`disk, this`dirty
      ensures State() == Persist(old(State()), k, v)
    {
      disk := disk[k := v.bytes];
      dirty := dirty - {k};
    }

    method PopFrame(k: Key)
      modifies this`hot, this`bytes
      ensures State() == PopHot(old(State()), k)
    {
      var found := Lookup(hot, k);
      if found.Some? {
        bytes := bytes - |found.value.bytes|;
        hot := Remove(hot, k);
      }
    }

    /** The eviction loop: oldest use first, until the new frame fits or nothing is left. */
    method EvictFrames(size: nat)
      modifies this`hot, this`bytes, this`disk, this`dirty
      ensures State() == Evict(cfg, old(State()), size)
    {
      ghost var before := State();
      while hot != [] && bytes + size > cfg.budget
        invariant Evict(cfg, State(), size) == Evict(cfg, before, size)
        decreases |hot|
      {
        var victim := hot[0];
        if victim.key in dirty { PersistFrame(victim.key, victim.value); }
        bytes := bytes - |victim.value.bytes|;
        hot := hot[1..];
      }
    }

    /** `_remember`. */
    method RememberFrame(k: Key, v: Value)
      modifies this`hot, this`bytes, this`disk, this`dirty
      ensures State() == Remember(cfg, old(State()), k, v)
    {
      hide PopHot, Evict;
      PopFrame(k);
      EvictFrames(|v.bytes|);
      if |v.bytes| <= cfg.budget {
        hot := hot + [Entry(k, v)];
        bytes := bytes + |v.bytes|;
      }
    }

    /** `cache[key] = value`. */
    method Set(k: Key, v: Value)
      modifies this
      ensures State() == Put(cfg, old(State()), k, v)
    {
      hide Remember;
      paths := paths + {k};
      if cfg.writeThrough || |v.bytes| > cfg.budget { PersistFrame(k, v); }
      RememberFrame(k, v);
      if !cfg.writeThrough && Lookup(hot, k).Some? { dirty := dirty + {k}; }
    }

    /** `cache[key]`; None stands for the KeyError. */
    method Item(k: Key) returns (v: Option<Value>)
      modifies this
      ensures (State(), v) == Get(cfg, old(State()), k)
    {
      hide Remember;
      v := Lookup(hot, k);
      if v.Some? {
        hot := Remove(hot, k) + [Entry(k, v.value)];
      } else if k in paths && k in disk {
        v := Some(Value(JPEG, disk[k]));
        RememberFrame(k, v.value);
      }
    }

    /** `del cache[key]`; false stands for the KeyError. */
    method DeleteItem(k: Key) returns (ok: bool)
      modifies this
      ensures State() == Drop(old(State()), k) && ok == (k in old(paths))
    {
      hide PopHot;
      ok := k in paths;
      if ok {
        paths, disk, dirty := paths - {k}, disk - {k}, dirty - {k};
        PopFrame(k);
      }
    }

    method Reset()
      modifies this
      ensures State() == Apply(cfg, old(State()), Clear)
    {
      paths, hot, dirty, bytes := {}, [], {}, 0;
    }
  }
}
