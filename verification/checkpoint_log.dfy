/** The append-only checkpoint log of scripts/annotate_videos.py: one JSON line per unit, each fsynced;
    a crash leaves any prefix of the last line; opening repairs the tail and replays the lines.
    SHA-256 of the canonical JSON is injective, so digests are compared as the values themselves. */
module CheckpointLog {
  import opened JsonText

  datatype Identity = Identity(schema: seq<Byte>, uid: seq<Byte>, task: seq<Byte>, digest: seq<Byte>, identity: Json)

  datatype Unit = Unit(key: seq<Byte>, value: Json)

  type Entries = map<seq<Byte>, Json>

  function Ascii(s: string): (r: seq<Byte>)
    ensures |r| == |s|
  {
    seq(|s|, i requires 0 <= i < |s| => if s[i] < 128 as char then s[i] as int as Byte else 63)
  }

  const SCHEMA: seq<Byte> := Ascii("schema_version")
  const UID: seq<Byte> := Ascii("input_record_uid")
  const TASK: seq<Byte> := Ascii("task")
  const DIGEST: seq<Byte> := Ascii("identity_sha256")
  const IDENTITY: seq<Byte> := Ascii("identity")
  const KEY: seq<Byte> := Ascii("unit_key")
  const VALUE: seq<Byte> := Ascii("value")

  /* ---------- one record ---------- */

  function Record(h: Identity, u: Unit): Json
  {
    Object(Cons(SCHEMA, Text(h.schema), Cons(UID, Text(h.uid), Cons(TASK, Text(h.task), Cons(DIGEST, Text(h.digest),
      Cons(IDENTITY, h.identity, Cons(KEY, Text(u.key), Cons(VALUE, u.value, Nil))))))))
  }

  /** `record.get(name)`. */
  function Get(fields: Fields, name: seq<Byte>): Option<Json>
  {
    match fields
    case Nil => None
    case Cons(n, v, rest) => if n == name then Some(v) else Get(rest, name)
  }

  datatype Reading = Foreign | Malformed | Found(unit: Unit)

  /** What one parsed line means to a checkpoint with identity `h`. */
  function Read(h: Identity, j: Json): Reading
  {
    if !j.Object? then Malformed
    else
      var f := j.fields;
      if Get(f, SCHEMA) != Some(Text(h.schema)) || Get(f, UID) != Some(Text(h.uid)) || Get(f, TASK) != Some(Text(h.task))
         || Get(f, DIGEST) != Some(Text(h.digest)) || Get(f, IDENTITY) != Some(h.identity) then Foreign
      else
        match (Get(f, KEY), Get(f, VALUE))
        case (Some(Text(key)), Some(value)) => Found(Unit(key, value))
        case _ => Malformed
  }

  lemma NamesDiffer()
    ensures |SCHEMA| == 14 && |UID| == 16 && |TASK| == 4 && |DIGEST| == 15 && |IDENTITY| == |KEY| == 8 && |VALUE| == 5
    ensures IDENTITY != KEY
  {
    assert IDENTITY[0] == 105 && KEY[0] == 117;
  }

  lemma ReadsRecord(h: Identity, owner: Identity, u: Unit)
    ensures Read(h, Record(owner, u)) == if h == owner then Found(u) else Foreign
  {
    RecordFields(owner, u);
    hide Get, Ascii;
  }

  lemma RecordFields(owner: Identity, u: Unit)
    ensures
      var f := Record(owner, u).fields;
      && Get(f, SCHEMA) == Some(Text(owner.schema)) && Get(f, UID) == Some(Text(owner.uid)) && Get(f, TASK) == Some(Text(owner.task))
      && Get(f, DIGEST) == Some(Text(owner.digest)) && Get(f, IDENTITY) == Some(owner.identity)
      && Get(f, KEY) == Some(Text(u.key)) && Get(f, VALUE) == Some(u.value)
  {
    NamesDiffer();
    hide Ascii;
    var f := Record(owner, u).fields;
    var f1 := f.rest;
    var f2 := f1.rest;
    var f3 := f2.rest;
    var f4 := f3.rest;
    var f5 := f4.rest;
    var f6 := f5.rest;
    assert f5 == Cons(KEY, Text(u.key), f6) && f6 == Cons(VALUE, u.value, Nil);
    assert Get(f, UID) == Get(f1, UID);
    assert Get(f, TASK) == Get(f1, TASK) == Get(f2, TASK);
    assert Get(f, DIGEST) == Get(f1, DIGEST) == Get(f2, DIGEST) == Get(f3, DIGEST);
    assert Get(f, IDENTITY) == Get(f1, IDENTITY) == Get(f2, IDENTITY) == Get(f3, IDENTITY) == Get(f4, IDENTITY);
    assert Get(f, KEY) == Get(f1, KEY) == Get(f2, KEY) == Get(f3, KEY) == Get(f4, KEY) == Get(f5, KEY);
    assert Get(f, VALUE) == Get(f1, VALUE) == Get(f2, VALUE) == Get(f3, VALUE) == Get(f4, VALUE) == Get(f5, VALUE) == Get(f6, VALUE);
  }

  /* ---------- lines ---------- */

  function Line(h: Identity, u: Unit): (r: seq<Byte>)
    ensures NEWLINE !in r
  {
    Encode(Record(h, u))
  }

  function FileOf(h: Identity, log: seq<Unit>): seq<Byte>
  {
    if log == [] then [] else FileOf(h, log[..|log| - 1]) + Line(h, log[|log| - 1]) + [NEWLINE]
  }

  /** Iterating over the file: the text between newlines. */
  function Lines(file: seq<Byte>): seq<seq<Byte>>
  {
    LinesFrom([], file)
  }

  function LinesFrom(sofar: seq<Byte>, file: seq<Byte>): seq<seq<Byte>>
    decreases |file|
  {
    if file == [] then (if sofar == [] then [] else [sofar])
    else if file[0] == NEWLINE then [sofar] + LinesFrom([], file[1..])
    else LinesFrom(sofar + [file[0]], file[1..])
  }

  /** The file up to and including its last newline. */
  function Kept(file: seq<Byte>): (r: seq<Byte>)
    ensures r <= file && (r != [] ==> r[|r| - 1] == NEWLINE)
    ensures NEWLINE !in file[|r|..]
  {
    if file == [] || file[|file| - 1] == NEWLINE then file else Kept(file[..|file| - 1])
  }

  lemma {:induction false} KeptIs(head: seq<Byte>, tail: seq<Byte>)
    requires (head == [] || head[|head| - 1] == NEWLINE) && NEWLINE !in tail
    ensures Kept(head + tail) == head
    decreases |tail|
  {
    if tail == [] {
      assert head + tail == head;
    } else {
      var n := |tail| - 1;
      assert tail[n] in tail;
      assert (head + tail)[..|head + tail| - 1] == head + tail[..n];
      KeptIs(head, tail[..n]);
    }
  }

  lemma {:induction false} LinesFromPlain(sofar: seq<Byte>, line: seq<Byte>, rest: seq<Byte>)
    requires NEWLINE !in line
    ensures LinesFrom(sofar, line + [NEWLINE] + rest) == [sofar + line] + LinesFrom([], rest)
    decreases |line|
  {
    var all := line + [NEWLINE] + rest;
    if line == [] {
      assert all[1..] == rest && sofar + line == sofar;
    } else {
      assert all[1..] == line[1..] + [NEWLINE] + rest;
      LinesFromPlain(sofar + [line[0]], line[1..], rest);
      assert sofar + [line[0]] + line[1..] == sofar + line;
    }
  }

  lemma {:induction false} LinesFromAppend(sofar: seq<Byte>, file: seq<Byte>, line: seq<Byte>)
    requires NEWLINE !in line && (if file == [] then sofar == [] else file[|file| - 1] == NEWLINE)
    ensures LinesFrom(sofar, file + line + [NEWLINE]) == LinesFrom(sofar, file) + [line]
    decreases |file|
  {
    var all := file + line + [NEWLINE];
    if file == [] {
      assert all == line + [NEWLINE] + [] && sofar + line == line;
      LinesFromPlain(sofar, line, []);
    } else {
      assert all[1..] == file[1..] + line + [NEWLINE];
      if file[0] == NEWLINE {
        LinesFromAppend([], file[1..], line);
      } else {
        LinesFromAppend(sofar + [file[0]], file[1..], line);
      }
    }
  }

  lemma FileEndsWithNewline(h: Identity, log: seq<Unit>)
    ensures FileOf(h, log) == [] || FileOf(h, log)[|FileOf(h, log)| - 1] == NEWLINE
  {
  }

  function LinesOf(h: Identity, log: seq<Unit>): seq<seq<Byte>>
  {
    if log == [] then [] else LinesOf(h, log[..|log| - 1]) + [Line(h, log[|log| - 1])]
  }

  lemma {:induction false} LinesAreTheLog(h: Identity, log: seq<Unit>)
    ensures Lines(FileOf(h, log)) == LinesOf(h, log)
    decreases |log|
  {
    hide Line, LinesFrom;
    if log == [] {
      NoLines();
    } else {
      var front := log[..|log| - 1];
      LinesAreTheLog(h, front);
      FileEndsWithNewline(h, front);
      LinesFromAppend([], FileOf(h, front), Line(h, log[|log| - 1]));
    }
  }

  lemma NoLines()
    ensures Lines([]) == []
  {
  }

  /* ---------- loading ---------- */

  datatype Loaded = Entries(entries: Entries) | Incompatible | Broken

  predicate Blank(line: seq<Byte>)
  {
    forall c :: c in line ==> c == 32 || 9 <= c <= 13
  }

  /** A second value for a key is refused unless the first was null. */
  predicate Clashes(entries: Entries, u: Unit)
  {
    u.key in entries && entries[u.key] != Null && entries[u.key] != u.value
  }

  /** The loop of `_load`. */
  function LoadLines(h: Identity, lines: seq<seq<Byte>>): Loaded
  {
    if lines == [] then Entries(map[])
    else
      var line := lines[|lines| - 1];
      match LoadLines(h, lines[..|lines| - 1])
      case Incompatible => Incompatible
      case Broken => Broken
      case Entries(entries) =>
        if Blank(line) then Entries(entries)
        else match Decode(line)
          case None => Broken
          case Some(j) =>
            match Read(h, j)
            case Foreign => Incompatible
            case Malformed => Broken
            case Found(u) => if Clashes(entries, u) then Broken else Entries(entries[u.key := u.value])
  }

  function Replay(log: seq<Unit>): Entries
  {
    if log == [] then map[] else Replay(log[..|log| - 1])[log[|log| - 1].key := log[|log| - 1].value]
  }

  predicate Consistent(log: seq<Unit>)
  {
    forall i :: 0 <= i < |log| ==> !Clashes(Replay(log[..i]), log[i])
  }

  lemma LineIsNotBlank(h: Identity, u: Unit)
    ensures !Blank(Line(h, u))
  {
    assert Line(h, u)[0] == OPEN && Line(h, u)[0] in Line(h, u);
  }

  /** Lines the checkpoint itself wrote replay to its entries, and never conflict. */
  lemma {:induction false} LoadsTheLog(h: Identity, log: seq<Unit>)
    requires Consistent(log)
    ensures LoadLines(h, LinesOf(h, log)) == Entries(Replay(log))
    decreases |log|
  {
    hide Line, Read, Decode, Clashes, Blank;
    if log != [] {
      var n := |log| - 1;
      var u := log[n];
      ConsistentPrefix(log);
      LoadsTheLog(h, log[..n]);
      LineReads(h, h, u);
    }
  }

  lemma ConsistentPrefix(log: seq<Unit>)
    requires log != [] && Consistent(log)
    ensures Consistent(log[..|log| - 1]) && !Clashes(Replay(log[..|log| - 1]), log[|log| - 1])
  {
    hide Replay, Clashes;
    var front := log[..|log| - 1];
    forall i | 0 <= i < |front| ensures !Clashes(Replay(front[..i]), front[i]) {
      assert front[..i] == log[..i];
    }
  }

  lemma LineReads(h: Identity, owner: Identity, u: Unit)
    ensures !Blank(Line(owner, u)) && Decode(Line(owner, u)) == Some(Record(owner, u))
    ensures Read(h, Record(owner, u)) == if h == owner then Found(u) else Foreign
  {
    hide Read, Decode, Blank;
    LineIsNotBlank(owner, u);
    DecodesBack(Record(owner, u));
    ReadsRecord(h, owner, u);
  }

  /** A log of another identity is recognized at its first line. */
  lemma {:induction false} ForeignLog(h: Identity, owner: Identity, log: seq<Unit>)
    requires h != owner && log != []
    ensures LoadLines(h, LinesOf(owner, log)) == Incompatible
    decreases |log|
  {
    hide Line, Read, Decode, Clashes, Blank;
    var n := |log| - 1;
    LineReads(h, owner, log[n]);
    if n > 0 { ForeignLog(h, owner, log[..n]); } else { assert log[..0] == []; }
  }

  /* ---------- runs ---------- */

  /** `file` is on disk; `owner` and `log` say what it holds; `entries` is the open checkpoint with its identity.
      `acked` are the puts that returned since the file was started. */
  datatype World = World(file: seq<Byte>, owner: Identity, log: seq<Unit>, open: Option<(Identity, Entries)>, acked: Entries)

  datatype Step =
    | Open(h: Identity)
    | Put(u: Unit)
    | Tear(u: Unit, bytes: nat)
    | Die

  /** What `put` does about a unit that is there already. */
  datatype Verdict = Write | Known | Conflict

  function Judge(entries: Entries, u: Unit): Verdict
  {
    if u.key in entries && entries[u.key] != Null then (if entries[u.key] != u.value then Conflict else Known) else Write
  }

  function Opening(w: World, h: Identity): World
  {
    var kept := Kept(w.file);
    match LoadLines(h, Lines(kept))
    case Entries(entries) => World(kept, if w.log == [] then h else w.owner, w.log, Some((h, entries)), w.acked)
    case Incompatible => World([], h, [], Some((h, map[])), map[])
    case Broken => w.(file := kept)
  }

  /** `put`. */
  function Putting(w: World, u: Unit): World
    requires w.open.Some?
  {
    var h, entries := w.open.value.0, w.open.value.1;
    match Judge(entries, u)
    case Conflict => w
    case Known => w.(acked := w.acked[u.key := u.value])
    case Write =>
      World(w.file + Line(h, u) + [NEWLINE], h, w.log + [u], Some((h, entries[u.key := u.value])), w.acked[u.key := u.value])
  }

  function Do(w: World, step: Step): World
  {
    match step
    case Open(h) => if w.open.Some? then w else Opening(w, h)
    case Put(u) => if w.open.None? then w else Putting(w, u)
    case Tear(u, bytes) =>
      if w.open.None? || !Judge(w.open.value.1, u).Write? then w
      else
        var h, line := w.open.value.0, Line(w.open.value.0, u) + [NEWLINE];
        if bytes >= |line| then World(w.file + line, h, w.log + [u], None, w.acked)
        else World(w.file + line[..bytes], h, w.log, None, w.acked)
    case Die => w.(open := None)
  }

  function Run(h: Identity, steps: seq<Step>): World
  {
    if steps == [] then World([], h, [], None, map[]) else Do(Run(h, steps[..|steps| - 1]), steps[|steps| - 1])
  }

  /** The file is the log's lines and at most a torn tail; an open checkpoint mirrors the log. */
  ghost predicate Valid(w: World, tail: seq<Byte>)
  {
    && w.file == FileOf(w.owner, w.log) + tail && NEWLINE !in tail && Consistent(w.log)
    && (w.open.Some? ==> tail == [] && w.open.value.1 == Replay(w.log) && w.open.value.0 == w.owner)
    && (forall k :: k in w.acked ==> k in Replay(w.log) && (w.acked[k] != Null ==> Replay(w.log)[k] == w.acked[k]))
  }

  lemma OpeningIs(w: World, h: Identity, tail: seq<Byte>)
    requires Valid(w, tail)
    ensures
      Opening(w, h) ==
        (if w.log == [] || h == w.owner
         then World(FileOf(w.owner, w.log), if w.log == [] then h else w.owner, w.log, Some((h, Replay(w.log))), w.acked)
         else World([], h, [], Some((h, map[])), map[]))
  {
    hide Kept, Lines, LoadLines, Line;
    FileEndsWithNewline(w.owner, w.log);
    KeptIs(FileOf(w.owner, w.log), tail);
    LinesAreTheLog(w.owner, w.log);
    if w.log == [] {
      LoadsTheLog(h, []);
    } else if h == w.owner {
      LoadsTheLog(h, w.log);
    } else {
      ForeignLog(h, w.owner, w.log);
    }
  }

  lemma OpeningKeeps(w: World, h: Identity, tail: seq<Byte>)
    requires Valid(w, tail)
    ensures Valid(Opening(w, h), [])
  {
    hide Kept, Lines, LoadLines, Line, Opening;
    OpeningIs(w, h, tail);
    var w' := Opening(w, h);
    assert FileOf(w'.owner, w'.log) + [] == FileOf(w'.owner, w'.log);
  }

  lemma FileGrows(h: Identity, log: seq<Unit>, u: Unit)
    ensures FileOf(h, log + [u]) == FileOf(h, log) + Line(h, u) + [NEWLINE]
    ensures Replay(log + [u]) == Replay(log)[u.key := u.value]
  {
    hide Line;
    assert (log + [u])[..|log|] == log;
  }

  lemma LogGrows(log: seq<Unit>, u: Unit)
    requires Consistent(log) && Judge(Replay(log), u).Write?
    ensures Consistent(log + [u])
  {
    hide Replay;
    var more := log + [u];
    forall i | 0 <= i < |more| ensures !Clashes(Replay(more[..i]), more[i]) {
      if i < |log| { assert more[..i] == log[..i]; } else { assert more[..i] == log; }
    }
  }

  lemma PutKeeps(w: World, u: Unit, tail: seq<Byte>)
    requires Valid(w, tail) && w.open.Some?
    ensures Valid(Do(w, Put(u)), tail)
  {
    hide Line, Consistent, FileOf, Replay;
    if Judge(w.open.value.1, u).Write? {
      LogGrows(w.log, u);
      FileGrows(w.owner, w.log, u);
      assert FileOf(w.owner, w.log) + [] == FileOf(w.owner, w.log);
      var file := FileOf(w.owner, w.log + [u]);
      assert file + [] == file;
    }
  }

  lemma TearKeeps(w: World, u: Unit, bytes: nat, tail: seq<Byte>) returns (torn: seq<Byte>)
    requires Valid(w, tail) && w.open.Some?
    ensures Valid(Do(w, Tear(u, bytes)), torn)
  {
    hide Line, Consistent, FileOf, Replay;
    torn := tail;
    var line := Line(w.owner, u) + [NEWLINE];
    assert FileOf(w.owner, w.log) + [] == FileOf(w.owner, w.log);
    if Judge(w.open.value.1, u).Write? {
      if bytes >= |line| {
        LogGrows(w.log, u);
        FileGrows(w.owner, w.log, u);
        torn := [];
        var file := FileOf(w.owner, w.log + [u]);
        assert file + [] == file && w.file + line == file;
      } else {
        torn := line[..bytes];
        assert forall c :: c in torn ==> c in Line(w.owner, u);
      }
    }
  }

  lemma {:induction false} RunIsValid(h: Identity, steps: seq<Step>) returns (tail: seq<Byte>)
    ensures Valid(Run(h, steps), tail)
    decreases |steps|
  {
    hide Valid, Opening, Judge, Line;
    if steps == [] {
      tail := [];
      EmptyIsValid(h);
    } else {
      var w := Run(h, steps[..|steps| - 1]);
      tail := RunIsValid(h, steps[..|steps| - 1]);
      match steps[|steps| - 1]
      case Open(g) =>
        if w.open.None? {
          OpeningKeeps(w, g, tail);
          tail := [];
        }
      case Put(u) => if w.open.Some? { PutKeeps(w, u, tail); }
      case Tear(u, bytes) => if w.open.Some? { tail := TearKeeps(w, u, bytes, tail); }
      case Die => ClosedIsValid(w, tail);
    }
  }

  lemma EmptyIsValid(h: Identity)
    ensures Valid(World([], h, [], None, map[]), [])
  {
  }

  lemma ClosedIsValid(w: World, tail: seq<Byte>)
    requires Valid(w, tail)
    ensures Valid(w.(open := None), tail)
  {
  }

  /** After any puts, torn writes, deaths and identities, opening never fails: it finds exactly the lines whose
      newline reached the disk, or sets a file of another identity aside. */
  lemma OpeningRebuildsTheLog(h: Identity, steps: seq<Step>, g: Identity)
    requires Run(h, steps).open.None?
    ensures
      var w, w' := Run(h, steps), Do(Run(h, steps), Open(g));
      && w'.open.Some?
      && (w.log == [] || g == w.owner ==> w'.open.value.1 == Replay(w.log) && w'.log == w.log)
      && (w.log != [] && g != w.owner ==> w'.open.value.1 == map[] && w'.file == [])
  {
    hide Opening, Replay, Run;
    var tail := RunIsValid(h, steps);
    OpeningIs(Run(h, steps), g, tail);
  }

  /** A put that returned is found by every later opening of the same identity, unless its value was null. */
  lemma AcknowledgedIsRecovered(h: Identity, steps: seq<Step>, k: seq<Byte>)
    requires Run(h, steps).open.Some? && k in Run(h, steps).acked
    ensures
      var w := Run(h, steps);
      k in w.open.value.1 && (w.acked[k] != Null ==> w.open.value.1[k] == w.acked[k])
  {
    hide Replay, Run;
    var tail := RunIsValid(h, steps);
  }

  /** A second, different value is refused exactly when the first one is not null: the guard of `put` cannot
      tell a stored null from a missing unit. */
  lemma SecondValueIsRefusedIff(h: Identity, steps: seq<Step>, k: seq<Byte>, value: Json)
    requires Run(h, steps).open.Some? && k in Run(h, steps).open.value.1 && Run(h, steps).open.value.1[k] != value
    ensures
      var w := Run(h, steps);
      && (Do(w, Put(Unit(k, value))) == w <==> w.open.value.1[k] != Null)
      && (w.open.value.1[k] == Null ==> Do(w, Put(Unit(k, value))).open.value.1[k] == value)
  {
    hide Run, Line;
    var w := Run(h, steps);
    if w.open.value.1[k] == Null { assert |Do(w, Put(Unit(k, value))).log| == |w.log| + 1; }
  }

  /* ---------- a write error the process survives ---------- */

  /** A put fails after some bytes of its line, and the checkpoint stays open without the unit. */
  function Stumbling(w: World, u: Unit, bytes: nat): World
    requires w.open.Some? && bytes <= |Line(w.open.value.0, u)| + 1
  {
    w.(file := w.file + (Line(w.open.value.0, u) + [NEWLINE])[..bytes])
  }

  lemma LineOpens(h: Identity, u: Unit)
    ensures Opens(Line(h, u))
  {
    hide Parse, Escape, EncodeFields;
    ParsesBack(Record(h, u), []);
    var line := Line(h, u);
    assert line + [] == line;
    LineStarts(h, u);
  }

  lemma LineStarts(h: Identity, u: Unit)
    ensures |Line(h, u)| > 2 && Line(h, u)[0] == OPEN && Line(h, u)[1] == QUOTE && Line(h, u)[2] == 115
  {
    hide Encode, EncodeFields, Quoted, Ascii;
    var fields := Record(h, u).fields;
    QuotedSchema();
    FieldsText(fields);
    StartsWithOpen(fields);
    assert EncodeFields(fields)[0] == Quoted(SCHEMA)[0] && EncodeFields(fields)[1] == Quoted(SCHEMA)[1];
  }

  lemma QuotedSchema()
    ensures |Quoted(SCHEMA)| > 2 && Quoted(SCHEMA)[0] == QUOTE && Quoted(SCHEMA)[1] == 115
  {
    assert SCHEMA[0] == 115 && |SCHEMA| == 14;
    hide Ascii;
    assert Escape(SCHEMA)[0] == EscapeByte(115)[0] == 115;
  }

  lemma StartsWithOpen(fields: Fields)
    ensures Encode(Object(fields)) == [OPEN] + EncodeFields(fields) + [CLOSE]
  {
  }

  /** The next put after such an error returns; whether the log can be opened again depends on what the failed one
      left behind: nothing at all, or its whole line, which the next unit must then not contradict. */
  lemma SurvivedWriteErrorIff(first: Identity, steps: seq<Step>, u: Unit, bytes: nat, v: Unit)
    requires Run(first, steps).open.Some? && Judge(Run(first, steps).open.value.1, u).Write?
    requires Judge(Run(first, steps).open.value.1, v).Write? && bytes <= |Line(Run(first, steps).open.value.0, u)| + 1
    ensures
      var w := Run(first, steps);
      var h, entries := w.open.value.0, w.open.value.1;
      var later := Opening(Putting(Stumbling(w, u, bytes), v).(open := None), h);
      later.open.Some? <==>
        bytes == 0 || (bytes == |Line(h, u)| + 1 && !(v.key == u.key && u.value != Null && v.value != u.value))
  {
    hide Run, Line, Valid, Judge, Opening, Kept, Lines;
    var tail := RunIsValid(first, steps);
    var w := Run(first, steps);
    var h := w.open.value.0;
    var cut := (Line(h, u) + [NEWLINE])[..bytes];
    OpenIsWhole(w, tail);
    if bytes <= |Line(h, u)| {
      assert cut == Line(h, u)[..bytes];
      assert forall c :: c in cut ==> c in Line(h, u);
      CutAndLine(h, w.log, u, cut, v);
      OpensIf(Putting(Stumbling(w, u, bytes), v).(open := None), h, FileOf(h, w.log) + (cut + Line(h, v)) + [NEWLINE]);
    } else {
      assert cut == Line(h, u) + [NEWLINE];
      WholeLine(h, w.log, u, v);
      OpensIf(Putting(Stumbling(w, u, bytes), v).(open := None), h, FileOf(h, w.log + [u] + [v]));
    }
  }

  lemma OpenIsWhole(w: World, tail: seq<Byte>)
    requires Valid(w, tail) && w.open.Some?
    ensures w.file == FileOf(w.owner, w.log) && w.open.value == (w.owner, Replay(w.log)) && Consistent(w.log)
  {
    hide FileOf, Replay, Consistent;
    assert FileOf(w.owner, w.log) + [] == FileOf(w.owner, w.log);
  }

  lemma OpensIf(w: World, h: Identity, file: seq<Byte>)
    requires w.file == file && file != [] && file[|file| - 1] == NEWLINE
    ensures Opening(w, h).open.Some? <==> !LoadLines(h, Lines(file)).Broken? || w.open.Some?
  {
    hide Lines, LoadLines;
  }

  lemma CutAndLine(h: Identity, log: seq<Unit>, u: Unit, cut: seq<Byte>, v: Unit)
    requires Consistent(log) && cut <= Line(h, u) && NEWLINE !in cut && Judge(Replay(log), v).Write?
    ensures LoadLines(h, Lines(FileOf(h, log) + (cut + Line(h, v)) + [NEWLINE])).Broken? <==> cut != []
    ensures !LoadLines(h, Lines(FileOf(h, log) + (cut + Line(h, v)) + [NEWLINE])).Incompatible?
  {
    hide Line, Read, Decode, Blank, Parse, Opens, LinesFrom;
    var line := cut + Line(h, v);
    FileEndsWithNewline(h, log);
    LinesFromAppend([], FileOf(h, log), line);
    LinesAreTheLog(h, log);
    LoadsTheLog(h, log);
    LineOpens(h, v);
    var lines := LinesOf(h, log) + [line];
    assert lines[..|lines| - 1] == LinesOf(h, log);
    if cut == [] {
      assert line == Line(h, v);
      LineReads(h, h, v);
    } else {
      CutRecordIsLost(Record(h, u).fields, cut, Line(h, v)) by { assert Line(h, u) == Encode(Record(h, u)) by { LineIs(h, u); } }
      NotBlank(h, u, cut, Line(h, v));
    }
  }

  lemma LineIs(h: Identity, u: Unit)
    ensures Line(h, u) == Encode(Record(h, u)) && Record(h, u).Object?
  {
  }

  lemma NotBlank(h: Identity, u: Unit, cut: seq<Byte>, line: seq<Byte>)
    requires cut <= Line(h, u) && cut != []
    ensures !Blank(cut + line)
  {
    hide Line;
    LineStarts(h, u);
    assert (cut + line)[0] == OPEN && (cut + line)[0] in cut + line;
  }

  lemma WholeLine(h: Identity, log: seq<Unit>, u: Unit, v: Unit)
    requires Consistent(log) && Judge(Replay(log), u).Write? && Judge(Replay(log), v).Write?
    ensures FileOf(h, log + [u] + [v]) == FileOf(h, log) + (Line(h, u) + [NEWLINE]) + Line(h, v) + [NEWLINE]
    ensures LoadLines(h, Lines(FileOf(h, log + [u] + [v]))).Broken? <==> v.key == u.key && u.value != Null && v.value != u.value
  {
    hide Line, Read, Decode, Blank, LinesFrom;
    LogGrows(log, u);
    FileGrows(h, log, u);
    FileGrows(h, log + [u], v);
    LinesAreTheLog(h, log + [u] + [v]);
    LoadsTheLog(h, log + [u]);
    LineReads(h, h, v);
    var all := LinesOf(h, log + [u] + [v]);
    assert (log + [u] + [v])[..|log| + 1] == log + [u];
    assert all[..|all| - 1] == LinesOf(h, log + [u]);
  }

  /* ---------- the program ---------- */

  /** `block.rfind(b'\n')`. */
  method LastNewline(block: seq<Byte>) returns (at: int)
    ensures -1 <= at < |block|
    ensures at >= 0 ==> block[at] == NEWLINE && NEWLINE !in block[at + 1..]
    ensures at == -1 ==> NEWLINE !in block
  {
    at := |block| - 1;
    while at >= 0 && block[at] != NEWLINE
      invariant -1 <= at < |block| && NEWLINE !in block[at + 1..]
    {
      at := at - 1;
    }
  }

  /** The backward scan of `repair_partial_jsonl_tail`, for any block size: where the last full line ends. */
  method Cutoff(file: seq<Byte>, blockSize: nat) returns (cutoff: nat)
    requires blockSize > 0
    ensures cutoff <= |file| && file[..cutoff] == Kept(file)
  {
    hide Kept;
    var position := |file|;
    while position > 0
      invariant 0 <= position <= |file| && NEWLINE !in file[position..]
      decreases position
    {
      var start := if position > blockSize then position - blockSize else 0;
      var newline := LastNewline(file[start..position]);
      if newline >= 0 {
        cutoff := start + newline + 1;
        assert file[cutoff..position] == file[start..position][newline + 1..];
        FoundInBlock(file, position, cutoff);
        return;
      }
      NoneInBlock(file, start, position);
      position := start;
    }
    cutoff := 0;
    NoneAtAll(file);
  }

  lemma FoundInBlock(file: seq<Byte>, position: nat, cutoff: nat)
    requires 0 < cutoff <= position <= |file| && file[cutoff - 1] == NEWLINE
    requires NEWLINE !in file[cutoff..position] && NEWLINE !in file[position..]
    ensures file[..cutoff] == Kept(file)
  {
    NoneInBlock(file, cutoff, position);
    SplitAtCutoff(file, cutoff);
  }

  lemma SplitAtCutoff(file: seq<Byte>, cutoff: nat)
    requires 0 < cutoff <= |file| && file[cutoff - 1] == NEWLINE && NEWLINE !in file[cutoff..]
    ensures file[..cutoff] == Kept(file)
  {
    hide Kept;
    assert file[..cutoff] + file[cutoff..] == file;
    KeptIs(file[..cutoff], file[cutoff..]);
  }

  lemma NoneInBlock(file: seq<Byte>, start: nat, position: nat)
    requires start <= position <= |file| && NEWLINE !in file[start..position] && NEWLINE !in file[position..]
    ensures NEWLINE !in file[start..]
  {
    assert file[start..] == file[start..position] + file[position..];
  }

  lemma NoneAtAll(file: seq<Byte>)
    requires NEWLINE !in file[0..]
    ensures file[..0] == Kept(file)
  {
    hide Kept;
    assert file[0..] == file && [] + file == file;
    KeptIs([], file);
  }

  class AnnotationUnitCheckpoint {
    const h: Identity
    var file: seq<Byte>
    var evidence: seq<seq<Byte>>
    var entries: Entries

    constructor (h: Identity, file: seq<Byte>)
      ensures this.h == h && this.file == file && evidence == [] && entries == map[]
    {
      this.h, this.file, evidence, entries := h, file, [], map[];
    }

    /** The file is cut at its last newline and the rest preserved beside it. */
    method RepairTail(blockSize: nat)
      requires blockSize > 0
      modifies this`file, this`evidence
      ensures file == Kept(old(file))
      ensures file == old(file) ==> evidence == old(evidence)
      ensures file != old(file) ==> |evidence| == |old(evidence)| + 1 && file + evidence[|old(evidence)|] == old(file)
    {
      if file == [] || file[|file| - 1] == NEWLINE { return; }
      var cutoff := Cutoff(file, blockSize);
      evidence := evidence + [file[cutoff..]];
      assert file == file[..cutoff] + file[cutoff..];
      file := file[..cutoff];
    }

    /** `_load`: false is the ValueError. */
    method Load(blockSize: nat) returns (ok: bool)
      requires blockSize > 0 && entries == map[]
      modifies this
      ensures ok <==> !LoadLines(h, Lines(Kept(old(file)))).Broken?
      ensures match LoadLines(h, Lines(Kept(old(file))))
        case Entries(loaded) => entries == loaded && file == Kept(old(file))
        case Incompatible => entries == map[] && file == []
        case Broken => file == Kept(old(file))
    {
      hide Lines, Decode, Read, Blank, Clashes, Kept;
      RepairTail(blockSize);
      var lines := Lines(file);
      ok := true;
      var incompatible := false;
      var i := 0;
      assert lines[..0] == [];
      while i < |lines| && !incompatible
        invariant i <= |lines| && file == Kept(old(file))
        invariant !incompatible ==> LoadLines(h, lines[..i]) == Entries(entries)
        invariant incompatible ==> LoadLines(h, lines[..i]) == Incompatible
      {
        assert lines[..i + 1][..i] == lines[..i];
        if !Blank(lines[i]) {
          var parsed := Decode(lines[i]);
          if parsed.None? {
            BrokenStays(h, lines, i + 1);
            return false;
          }
          match Read(h, parsed.value) {
            case Foreign => incompatible := true;
            case Malformed =>
              BrokenStays(h, lines, i + 1);
              return false;
            case Found(u) =>
              if Clashes(entries, u) {
                BrokenStays(h, lines, i + 1);
                return false;
              }
              entries := entries[u.key := u.value];
          }
        }
        i := i + 1;
      }
      if incompatible {
        IncompatibleStays(h, lines, i);
        evidence := evidence + [file];
        file, entries := [], map[];
      } else {
        assert lines[..i] == lines;
      }
    }

    /** `put`: the line is on disk before the unit is known. */
    method Put(u: Unit) returns (ok: bool)
      modifies this`file, this`entries
      ensures ok <==> !Judge(old(entries), u).Conflict?
      ensures Judge(old(entries), u).Write? ==> file == old(file) + Line(h, u) + [NEWLINE] && entries == old(entries)[u.key := u.value]
      ensures !Judge(old(entries), u).Write? ==> file == old(file) && entries == old(entries)
    {
      hide Line;
      ok := true;
      if u.key in entries && entries[u.key] != Null {
        ok := entries[u.key] == u.value;
        return;
      }
      file := file + Line(h, u) + [NEWLINE];
      entries := entries[u.key := u.value];
    }
  }

  lemma {:induction false} BrokenStays(h: Identity, lines: seq<seq<Byte>>, i: nat)
    requires i <= |lines| && LoadLines(h, lines[..i]).Broken?
    ensures LoadLines(h, lines).Broken?
    decreases |lines| - i
  {
    hide Decode, Read, Blank, Clashes;
    if i < |lines| {
      assert lines[..i + 1][..i] == lines[..i];
      BrokenStays(h, lines, i + 1);
    } else {
      assert lines[..i] == lines;
    }
  }

  lemma {:induction false} IncompatibleStays(h: Identity, lines: seq<seq<Byte>>, i: nat)
    requires i <= |lines| && LoadLines(h, lines[..i]) == Incompatible
    ensures LoadLines(h, lines) == Incompatible
    decreases |lines| - i
  {
    hide Decode, Read, Blank, Clashes;
    if i < |lines| {
      assert lines[..i + 1][..i] == lines[..i];
      IncompatibleStays(h, lines, i + 1);
    } else {
      assert lines[..i] == lines;
    }
  }
}
