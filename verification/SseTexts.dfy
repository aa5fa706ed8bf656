/** Texts on which the page and a conforming client differ: lines that are not regular, and
    carriage returns. */
module SseTexts {
  import opened Common
  import opened Sse
  import opened SseStandard
  import SseStream

  predicate Unbroken(line: string) { '\n' !in line && '\r' !in line }

  /** Lines a text can be made of: not empty, without line ends, and no byte order mark in front. */
  predicate Plain(lines: seq<string>)
  {
    && lines != []
    && (forall i :: 0 <= i < |lines| ==> lines[i] != [] && Unbroken(lines[i]))
    && lines[0][0] != BYTE_ORDER_MARK
  }

  /** One block with these lines. */
  function BlockText(lines: seq<string>): string { Join(lines) + "\n\n" }

  lemma PageReads(lines: seq<string>)
    requires lines != [] && forall i :: 0 <= i < |lines| ==> lines[i] != [] && SseStream.OneLine(lines[i])
    ensures Parse(BlockText(lines)) == Parsed(EventsOf(lines), "")
  {
    var block := Join(lines);
    SseStream.JoinIsBlock(lines);
    SseStream.LinesOfJoin(lines);
    assert Decomposes("", [], "");
    BlockThenDecomposition(block, "", [], "");
    assert [block] + [] == [block] && block + "\n\n" + "" == BlockText(lines);
    CutIsTheDecomposition(BlockText(lines), [block], "");
    FirstBlock(block, [], [block]);
    assert BlockEvents(block) + AllEvents([]) == BlockEvents(block);
  }

  lemma {:induction false} JoinHasNoReturn(lines: seq<string>)
    requires forall i :: 0 <= i < |lines| ==> '\r' !in lines[i]
    ensures '\r' !in Join(lines)
  {
    if |lines| > 1 {
      JoinHasNoReturn(lines[1..]);
    }
  }

  lemma JoinStart(lines: seq<string>)
    requires lines != [] && lines[0] != []
    ensures Join(lines) != [] && Join(lines)[0] == lines[0][0]
  {
  }

  lemma StandardReads(lines: seq<string>)
    requires Plain(lines)
    ensures Decoded(BlockText(lines)) == BlockText(lines)
    ensures Standard(BlockText(lines)) == Dispatched(AllInterpreted(EMPTY, lines)).events
  {
    var text := BlockText(lines);
    JoinHasNoReturn(lines);
    JoinStart(lines);
    StandardLines(text);
    SseStream.LinesOfJoin(lines);
    BlockFirst(Join(lines), "");
    assert text + "" == text;
    assert Lines(text)[..|Lines(text)| - 1] == lines + [""];
    assert (lines + [""])[..|lines|] == lines;
  }

  lemma BothRead(lines: seq<string>)
    requires Plain(lines)
    ensures Page(BlockText(lines)).events == Standard(BlockText(lines)) <==> SameEvents(lines)
  {
    PageReads(lines);
    StandardReads(lines);
  }

  // ---------------------------------------------------------------- a line that is not regular

  lemma ContextIsPlain(before: seq<string>, line: string, after: seq<string>)
    requires before == [] || before == [NAMED]
    requires after == [] || after == [FILLED]
    requires line != [] && Unbroken(line) && line[0] != BYTE_ORDER_MARK
    ensures Plain(before + [line] + after)
  {
    assert Unbroken(NAMED) && Unbroken(FILLED) && NAMED[0] == 'e';
    var lines := before + [line] + after;
    forall i | 0 <= i < |lines| ensures lines[i] != [] && Unbroken(lines[i]) {
      assert lines[i] in [NAMED, line, FILLED];
    }
  }

  /** Every line that is not regular has a text of otherwise regular lines on which the two differ. */
  lemma TellingText(line: string) returns (before: seq<string>, after: seq<string>)
    requires line != [] && Unbroken(line) && !Regular(line)
    ensures RegularLines(before) && RegularLines(after) && Plain(before + [line] + after)
    ensures Page(BlockText(before + [line] + after)).events != Standard(BlockText(before + [line] + after))
  {
    before, after := TellingContext(line);
    assert line[0] in "ed";
    ContextIsPlain(before, line, after);
    BothRead(before + [line] + after);
  }

  ghost predicate AlwaysSameText(line: string)
  {
    forall before, after :: RegularLines(before) && RegularLines(after) && Plain(before + [line] + after) ==>
      Page(BlockText(before + [line] + after)).events == Standard(BlockText(before + [line] + after))
  }

  /** Texts around a line are delivered as the standard says exactly when the line is regular. */
  lemma RegularTextIff(line: string)
    requires line != [] && Unbroken(line)
    ensures AlwaysSameText(line) <==> Regular(line)
  {
    if Regular(line) {
      forall before, after | RegularLines(before) && RegularLines(after) && Plain(before + [line] + after)
        ensures Page(BlockText(before + [line] + after)).events == Standard(BlockText(before + [line] + after)) {
        RegularIsSame(before, line, after);
        BothRead(before + [line] + after);
      }
    } else {
      var before, after := TellingText(line);
      assert !AlwaysSameText(line);
    }
  }

  // ---------------------------------------------------------------- carriage returns

  predicate IsLineEnd(eol: string) { eol == "\n" || eol == "\r\n" || eol == "\r" }

  /** Every line with its line end. */
  function Ended(lines: seq<string>, eol: string): string
  {
    if lines == [] then "" else lines[0] + eol + Ended(lines[1..], eol)
  }

  lemma {:induction false} LineRead(read: string, line: string, eol: string, rest: string)
    requires Unbroken(line) && IsLineEnd(eol) && (rest != [] ==> rest[0] != '\n')
    ensures EndedLines(read, line + eol + rest) == [read + line] + EndedLines("", rest)
    decreases |line|
  {
    var text := line + eol + rest;
    if line == [] {
      assert text[|eol|..] == rest && read + line == read;
    } else {
      assert text[0] == line[0] && text[1..] == line[1..] + eol + rest;
      LineRead(read + [line[0]], line[1..], eol, rest);
      assert read + [line[0]] + line[1..] == read + line;
    }
  }

  lemma {:induction false} FeedRead(read: string, line: string, rest: string)
    requires Unbroken(line)
    ensures EndedLines(read, line + "\n" + rest) == [read + line] + EndedLines("", rest)
    decreases |line|
  {
    var text := line + "\n" + rest;
    if line == [] {
      assert text[1..] == rest && read + line == read;
    } else {
      assert text[0] == line[0] && text[1..] == line[1..] + "\n" + rest;
      FeedRead(read + [line[0]], line[1..], rest);
      assert read + [line[0]] + line[1..] == read + line;
    }
  }

  lemma EndedStart(lines: seq<string>, eol: string)
    requires IsLineEnd(eol) && eol != "\n" && forall i :: 0 <= i < |lines| ==> Unbroken(lines[i])
    ensures Ended(lines, eol) != [] ==> Ended(lines, eol)[0] != '\n'
  {
    if lines != [] && lines[0] != [] {
      assert lines[0][0] in lines[0];
    }
  }

  /** The standard reads the same lines whichever line end they have. */
  lemma {:induction false} EndedRead(lines: seq<string>, eol: string)
    requires IsLineEnd(eol) && forall i :: 0 <= i < |lines| ==> Unbroken(lines[i])
    ensures EndedLines("", Ended(lines, eol)) == lines
  {
    if lines != [] {
      EndedRead(lines[1..], eol);
      if eol == "\n" {
        FeedRead("", lines[0], Ended(lines[1..], eol));
      } else {
        EndedStart(lines[1..], eol);
        LineRead("", lines[0], eol, Ended(lines[1..], eol));
      }
      assert "" + lines[0] == lines[0] && [lines[0]] + lines[1..] == lines;
    }
  }

  /** The lines without a leading byte order mark. */
  function Unmarked(lines: seq<string>): seq<string>
  {
    if lines != [] && lines[0] != [] && lines[0][0] == BYTE_ORDER_MARK then [lines[0][1..]] + lines[1..] else lines
  }

  lemma UnmarkedIsDecoded(lines: seq<string>, eol: string)
    requires IsLineEnd(eol)
    ensures Decoded(Ended(lines, eol)) == Ended(Unmarked(lines), eol)
  {
    if lines != [] && lines[0] != [] {
      var rest := Ended(lines[1..], eol);
      assert Unmarked(lines)[1..] == lines[1..];
      assert (lines[0] + eol + rest)[1..] == lines[0][1..] + eol + rest;
    }
  }

  lemma UnmarkedUnbroken(lines: seq<string>)
    requires forall i :: 0 <= i < |lines| ==> Unbroken(lines[i])
    ensures forall i :: 0 <= i < |Unmarked(lines)| ==> Unbroken(Unmarked(lines)[i])
  {
  }

  lemma EndedStandard(lines: seq<string>, eol: string)
    requires IsLineEnd(eol) && forall i :: 0 <= i < |lines| ==> Unbroken(lines[i])
    ensures Standard(Ended(lines, eol)) == AllInterpreted(EMPTY, Unmarked(lines)).events
  {
    UnmarkedIsDecoded(lines, eol);
    UnmarkedUnbroken(lines);
    EndedRead(Unmarked(lines), eol);
  }

  lemma NoBreakBefore(line: string, eol: string, rest: string)
    requires Unbroken(line) && IsLineEnd(eol) && eol != "\n"
    requires SseStream.NoBreak(rest) && (rest != [] ==> rest[0] != '\n')
    ensures SseStream.NoBreak(line + eol + rest)
  {
    var text, n := line + eol + rest, |line + eol|;
    assert text == (line + eol) + rest;
    forall i ensures !BreakAt(text, i) {
      if 0 <= i < |line| {
        assert text[i] in line;
      } else if i >= n {
        assert !BreakAt(rest, i - n);
      }
    }
  }

  lemma {:induction false} ReturnsHaveNoBreak(lines: seq<string>, eol: string)
    requires IsLineEnd(eol) && eol != "\n" && forall i :: 0 <= i < |lines| ==> Unbroken(lines[i])
    ensures SseStream.NoBreak(Ended(lines, eol))
  {
    if lines != [] {
      ReturnsHaveNoBreak(lines[1..], eol);
      EndedStart(lines[1..], eol);
      NoBreakBefore(lines[0], eol, Ended(lines[1..], eol));
    }
  }

  /** The page delivers nothing of a text whose lines end in CRLF or CR and buffers all of it; a client
      that follows the standard dispatches what it would with line feeds. So the two agree on such a
      text if and only if there is nothing to dispatch. */
  lemma ReturnsIff(lines: seq<string>, eol: string)
    requires (eol == "\r\n" || eol == "\r") && forall i :: 0 <= i < |lines| ==> Unbroken(lines[i])
    ensures Page(Ended(lines, eol)) == Parsed([], Decoded(Ended(lines, eol)))
    ensures Standard(Ended(lines, eol)) == Standard(Ended(lines, "\n"))
    ensures Page(Ended(lines, eol)).events == Standard(Ended(lines, eol)) <==> Standard(Ended(lines, "\n")) == []
  {
    EndedStandard(lines, eol);
    EndedStandard(lines, "\n");
    UnmarkedIsDecoded(lines, eol);
    UnmarkedUnbroken(lines);
    ReturnsHaveNoBreak(Unmarked(lines), eol);
    assert FirstBreak(Ended(Unmarked(lines), eol)) < 0;
  }

  lemma FilledStandard()
    ensures Standard(Ended([FILLED, ""], "\n")) == [Event("message", "x")]
  {
    EndedStandard([FILLED, ""], "\n");
    assert FILLED[0] == 'd';
    ThreeLines(FILLED, "", "");
    FilledLine(EMPTY, []);
    assert "" + "x" + "\n" == "x" + "\n";
    DispatchedOne(Interpreted(EMPTY, FILLED), "x");
  }

  /** One event with CRLF line ends: the page never sees it. */
  lemma CrlfIsLost()
    ensures Page("data:x\r\n\r\n").events == [] && Standard("data:x\r\n\r\n") == [Event("message", "x")]
  {
    var lines := [FILLED, ""];
    assert Ended(lines, "\r\n") == "data:x\r\n\r\n" by {
      assert lines[1..] == [""] && [""][1..] == [];
    }
    ReturnsIff(lines, "\r\n");
    FilledStandard();
  }
}
