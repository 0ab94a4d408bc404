/** The chunked line reader of scripts/audit_grounding_records.py. */
module TextLines {

  const NEWLINE: char := '\n'

  /** The lines of a text with their newlines; `sofar` has been read of the first one. */
  function LinesFrom(sofar: string, text: string): seq<string>
    decreases |text|
  {
    if text == "" then (if sofar == "" then [] else [sofar])
    else if text[0] == NEWLINE then [sofar + [NEWLINE]] + LinesFrom("", text[1..])
    else LinesFrom(sofar + [text[0]], text[1..])
  }

  function Join(parts: seq<string>): string
  {
    if parts == [] then "" else parts[0] + Join(parts[1..])
  }

  /** `chunk.split('\n')`. */
  function Pieces(sofar: string, chunk: string): (r: seq<string>)
    ensures r != []
    decreases |chunk|
  {
    if chunk == "" then [sofar]
    else if chunk[0] == NEWLINE then [sofar] + Pieces("", chunk[1..])
    else Pieces(sofar + [chunk[0]], chunk[1..])
  }

  function Ended(pieces: seq<string>): (r: seq<string>)
    ensures |r| == |pieces| && forall i :: 0 <= i < |r| ==> r[i] == pieces[i] + [NEWLINE]
  {
    seq(|pieces|, i requires 0 <= i < |pieces| => pieces[i] + [NEWLINE])
  }

  /** Reading on from a chunk: every piece but the last is a finished line. */
  lemma {:induction false} ChunkIsPieces(sofar: string, chunk: string, rest: string)
    ensures
      var p := Pieces(sofar, chunk);
      LinesFrom(sofar, chunk + rest) == Ended(p[..|p| - 1]) + LinesFrom(p[|p| - 1], rest)
    decreases |chunk|
  {
    var p := Pieces(sofar, chunk);
    if chunk == "" {
      assert chunk + rest == rest && Ended(p[..0]) == [];
    } else {
      assert (chunk + rest)[1..] == chunk[1..] + rest;
      if chunk[0] == NEWLINE {
        ChunkIsPieces("", chunk[1..], rest);
        var q := Pieces("", chunk[1..]);
        assert p == [sofar] + q && p[..|p| - 1] == [sofar] + q[..|q| - 1];
        assert Ended(p[..|p| - 1]) == [sofar + [NEWLINE]] + Ended(q[..|q| - 1]);
      } else {
        ChunkIsPieces(sofar + [chunk[0]], chunk[1..], rest);
      }
    }
  }

  /** The first piece only is longer when something was pending. */
  lemma {:induction false} PendingGoesFirst(sofar: string, chunk: string)
    ensures
      var p, q := Pieces("", chunk), Pieces(sofar, chunk);
      |p| == |q| && q[0] == sofar + p[0] && q[1..] == p[1..]
    decreases |chunk|
  {
    PendingGoesOn("", sofar, chunk);
    assert sofar + "" == sofar;
  }

  lemma {:induction false} PendingGoesOn(start: string, sofar: string, chunk: string)
    ensures
      var p, q := Pieces(start, chunk), Pieces(sofar + start, chunk);
      |p| == |q| && q[0] == sofar + p[0] && q[1..] == p[1..]
    decreases |chunk|
  {
    if chunk != "" && chunk[0] != NEWLINE {
      assert sofar + start + [chunk[0]] == sofar + (start + [chunk[0]]);
      PendingGoesOn(start + [chunk[0]], sofar, chunk[1..]);
    }
  }

  lemma {:induction false} JoinSnoc(parts: seq<string>, part: string)
    ensures Join(parts + [part]) == Join(parts) + part
  {
    if parts == [] {
      assert parts + [part] == [part];
    } else {
      JoinSnoc(parts[1..], part);
      assert (parts + [part])[1..] == parts[1..] + [part];
    }
  }

  lemma {:induction false} JoinSplit(parts: seq<string>, i: nat)
    requires i < |parts|
    ensures Join(parts[i..]) == parts[i] + Join(parts[i + 1..])
  {
    assert parts[i..][1..] == parts[i + 1..];
  }

  /** `large_text_lines`: the yields, for a stream cut into any nonempty chunks, are the lines of the whole text. */
  method LargeTextLines(chunks: seq<string>) returns (lines: seq<string>)
    requires forall c :: c in chunks ==> c != ""
    ensures lines == LinesFrom("", Join(chunks))
  {
    hide LinesFrom, Pieces;
    lines := [];
    var pending: seq<string> := [];
    var i := 0;
    assert chunks[0..] == chunks;
    while i < |chunks|
      invariant i <= |chunks|
      invariant LinesFrom("", Join(chunks)) == lines + LinesFrom(Join(pending), Join(chunks[i..]))
    {
      var chunk := chunks[i];
      var pieces := Pieces("", chunk);
      var whole := Pieces(Join(pending), chunk);
      JoinSplit(chunks, i);
      ChunkIsPieces(Join(pending), chunk, Join(chunks[i + 1..]));
      PendingGoesFirst(Join(pending), chunk);
      JoinSnoc(pending, pieces[0]);
      pending := pending + [pieces[0]];
      if |pieces| > 1 {
        FirstAndMiddle(whole, pieces, Join(pending));
        JoinOne(pieces[|pieces| - 1]);
        lines := lines + [Join(pending) + [NEWLINE]] + Ended(pieces[1..|pieces| - 1]);
        pending := [pieces[|pieces| - 1]];
      } else {
        assert Ended(whole[..|whole| - 1]) == [];
      }
      i := i + 1;
    }
    LastLine(Join(pending));
    if Join(pending) != "" { lines := lines + [Join(pending)]; }
  }

  lemma FirstAndMiddle(whole: seq<string>, pieces: seq<string>, first: string)
    requires |whole| == |pieces| > 1 && whole[0] == first && whole[1..] == pieces[1..]
    ensures Ended(whole[..|whole| - 1]) == [first + [NEWLINE]] + Ended(pieces[1..|pieces| - 1])
    ensures whole[|whole| - 1] == pieces[|pieces| - 1]
  {
    forall k | 1 <= k < |whole| ensures whole[k] == pieces[k] { assert whole[1..][k - 1] == pieces[1..][k - 1]; }
  }

  lemma JoinOne(part: string)
    ensures Join([part]) == part
  {
    assert [part][1..] == [];
  }

  lemma LastLine(sofar: string)
    ensures LinesFrom(sofar, Join([])) == if sofar == "" then [] else [sofar]
  {
  }

  /** The lines lose and add nothing. */
  lemma {:induction false} LinesAreTheText(sofar: string, text: string)
    ensures Join(LinesFrom(sofar, text)) == sofar + text
    decreases |text|
  {
    if text == "" {
      if sofar != "" { JoinOne(sofar); }
    } else if text[0] == NEWLINE {
      LinesAreTheText("", text[1..]);
      var rest := LinesFrom("", text[1..]);
      assert ([sofar + [NEWLINE]] + rest)[1..] == rest;
      assert sofar + [NEWLINE] + text[1..] == sofar + text;
    } else {
      LinesAreTheText(sofar + [text[0]], text[1..]);
      assert sofar + [text[0]] + text[1..] == sofar + text;
    }
  }

  /** A line is not empty, has its newline at the end, and only the last one may lack it. */
  predicate ProperLine(line: string, last: bool)
  {
    && line != "" && NEWLINE !in line[..|line| - 1]
    && (!last ==> line[|line| - 1] == NEWLINE)
  }

  predicate Proper(lines: seq<string>)
  {
    forall i :: 0 <= i < |lines| ==> ProperLine(lines[i], i == |lines| - 1)
  }

  lemma {:induction false} LinesAreProper(sofar: string, text: string)
    requires NEWLINE !in sofar
    ensures Proper(LinesFrom(sofar, text))
    decreases |text|
  {
    if text == "" {
    } else if text[0] == NEWLINE {
      LinesAreProper("", text[1..]);
      var first := sofar + [NEWLINE];
      assert first[..|first| - 1] == sofar;
      var rest, lines := LinesFrom("", text[1..]), LinesFrom(sofar, text);
      assert lines == [first] + rest;
      forall i | 0 <= i < |lines| ensures ProperLine(lines[i], i == |lines| - 1) {
        if i > 0 { assert ProperLine(rest[i - 1], i - 1 == |rest| - 1); }
      }
    } else {
      LinesAreProper(sofar + [text[0]], text[1..]);
      assert LinesFrom(sofar, text) == LinesFrom(sofar + [text[0]], text[1..]);
    }
  }

  /** A text splits into proper lines in one way only, so the reader's result is fixed by these facts. */
  lemma {:induction false} ProperLinesAreUnique(lines: seq<string>, text: string)
    requires Join(lines) == text && Proper(lines)
    ensures LinesFrom("", text) == lines
    decreases |lines|
  {
    if lines != [] {
      var first, rest := lines[0], lines[1..];
      forall i | 0 <= i < |rest| ensures ProperLine(rest[i], i == |rest| - 1) { assert rest[i] == lines[i + 1]; }
      ProperLinesAreUnique(rest, Join(rest));
      assert text == first + Join(rest);
      FirstLine("", first, Join(rest), rest == []);
      assert "" + first == first;
    }
  }

  lemma {:induction false} FirstLine(sofar: string, line: string, rest: string, last: bool)
    requires ProperLine(line, last) && (last ==> rest == "")
    ensures LinesFrom(sofar, line + rest) == [sofar + line] + LinesFrom("", rest)
    decreases |line|
  {
    var all := line + rest;
    assert all[1..] == line[1..] + rest;
    if |line| == 1 {
      assert all[1..] == rest && line == [line[0]];
      assert LinesFrom("", "") == [];
    } else {
      assert line[0] in line[..|line| - 1];
      assert line[1..][..|line| - 2] == line[..|line| - 1][1..];
      FirstLine(sofar + [line[0]], line[1..], rest, last);
      assert sofar + [line[0]] + line[1..] == sofar + line;
    }
  }
}
