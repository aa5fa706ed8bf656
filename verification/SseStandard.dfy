/** The event-stream interpretation of sections 9.2.5 and 9.2.6 of the WHATWG HTML Living Standard, and
    the streams on which the page's parser delivers the same events. Identifiers and reconnection times
    are not events and are left out of both. */
module SseStandard {
  import opened Common
  import opened Sse

  // ---------------------------------------------------------------- the standard

  const BYTE_ORDER_MARK := '\U{FEFF}'

  /** One leading byte order mark is dropped. */
  function Decoded(text: string): string
  {
    if text != [] && text[0] == BYTE_ORDER_MARK then text[1..] else text
  }

  /** What the page reads of a stream: its text decoder drops the mark as well. */
  function Page(text: string): Parsed { Parse(Decoded(text)) }

  /** The lines that end, in CRLF, LF or CR; `line` is what was read of the current one. */
  function EndedLines(line: string, text: string): seq<string>
    decreases |text|
  {
    if text == [] then []
    else if text[0] == '\n' then [line] + EndedLines("", text[1..])
    else if text[0] == '\r' then [line] + EndedLines("", if |text| > 1 && text[1] == '\n' then text[2..] else text[1..])
    else EndedLines(line + [text[0]], text[1..])
  }

  function ColonAt(line: string): (k: nat)
    ensures k <= |line| && (k < |line| ==> line[k] == ':')
  {
    if line == [] || line[0] == ':' then 0 else 1 + ColonAt(line[1..])
  }

  function Unspaced(value: string): string
  {
    if value != [] && value[0] == ' ' then value[1..] else value
  }

  function FieldOf(line: string): string { line[..ColonAt(line)] }

  function ValueOf(line: string): string
  {
    if ColonAt(line) < |line| then Unspaced(line[ColonAt(line) + 1..]) else ""
  }

  /** What has been dispatched, the event type buffer and the data buffer. */
  datatype Buffers = Buffers(events: seq<Event>, kind: string, data: string)

  function Dispatched(b: Buffers): Buffers
  {
    if b.data == [] then b.(kind := "")
    else Buffers(b.events + [Event(if b.kind == [] then "message" else b.kind, b.data[..|b.data| - 1])], "", "")
  }

  function Interpreted(b: Buffers, line: string): Buffers
  {
    if line == [] then Dispatched(b)
    else if line[0] == ':' then b
    else if FieldOf(line) == "event" then b.(kind := ValueOf(line))
    else if FieldOf(line) == "data" then b.(data := b.data + ValueOf(line) + "\n")
    else b
  }

  function AllInterpreted(b: Buffers, lines: seq<string>): Buffers
  {
    if lines == [] then b else Interpreted(AllInterpreted(b, lines[..|lines| - 1]), lines[|lines| - 1])
  }

  const EMPTY := Buffers([], "", "")

  /** What a conforming client dispatches; an unfinished event at the end is discarded. */
  function Standard(text: string): seq<Event>
  {
    AllInterpreted(EMPTY, EndedLines("", Decoded(text))).events
  }

  // ---------------------------------------------------------------- lines on which the two agree

  /** The value is trimmed after at most one leading space, a name is not empty, and neither field name
      stands alone on its line. */
  predicate Regular(line: string)
  {
    if "event:" <= line then JsTrim(line[6..]) == Unspaced(line[6..]) != ""
    else if "data:" <= line then JsTrim(line[5..]) == Unspaced(line[5..])
    else line != "event" && line != "data"
  }

  lemma {:induction false} ColonFirst(line: string, k: nat)
    requires k < |line| && line[k] == ':' && forall i :: 0 <= i < k ==> line[i] != ':'
    ensures ColonAt(line) == k
  {
    if k > 0 {
      ColonFirst(line[1..], k - 1);
    }
  }

  lemma EventField(line: string)
    ensures "event:" <= line ==> ColonAt(line) == 5 && FieldOf(line) == "event" && ValueOf(line) == Unspaced(line[6..])
    ensures FieldOf(line) == "event" ==> "event:" <= line || line == "event"
  {
    if "event:" <= line {
      assert line[..6] == "event:";
      assert forall i :: 0 <= i < 6 ==> line[i] == "event:"[i];
      ColonFirst(line, 5);
      assert line[..5] == "event";
    }
    if FieldOf(line) == "event" && ColonAt(line) < |line| {
      assert |line[..ColonAt(line)]| == ColonAt(line);
      assert line[..6] == line[..5] + [line[5]];
    }
  }

  lemma DataField(line: string)
    ensures "data:" <= line ==> ColonAt(line) == 4 && FieldOf(line) == "data" && ValueOf(line) == Unspaced(line[5..])
    ensures FieldOf(line) == "data" ==> "data:" <= line || line == "data"
  {
    if "data:" <= line {
      assert line[..5] == "data:";
      assert forall i :: 0 <= i < 5 ==> line[i] == "data:"[i];
      ColonFirst(line, 4);
      assert line[..4] == "data";
    }
    if FieldOf(line) == "data" && ColonAt(line) < |line| {
      assert |line[..ColonAt(line)]| == ColonAt(line);
      assert line[..5] == line[..4] + [line[4]];
    }
  }

  /** The data buffer: every line of data, each with a line feed behind it. */
  function Each(data: seq<string>): string
  {
    if data == [] then "" else Each(data[..|data| - 1]) + data[|data| - 1] + "\n"
  }

  /** The buffers hold what the page's parser has read of a block. */
  ghost predicate InStep(b: Buffers, events: seq<Event>, lines: seq<string>)
  {
    && b.events == events && b.data == Each(DataLines(lines))
    && EventName(lines) == if b.kind == [] then "message" else b.kind
  }

  lemma NextLine(lines: seq<string>, line: string)
    ensures DataLines(lines + [line]) == DataLines(lines) + if "data:" <= line then [JsTrim(line[5..])] else []
    ensures EventName(lines + [line]) == if "event:" <= line then JsTrim(line[6..]) else EventName(lines)
  {
    assert (lines + [line])[..|lines|] == lines;
  }

  lemma EachSnoc(data: seq<string>, line: string)
    ensures Each(data + [line]) == Each(data) + line + "\n"
  {
    assert (data + [line])[..|data|] == data;
  }

  lemma DataLine(b: Buffers, events: seq<Event>, lines: seq<string>, line: string)
    requires InStep(b, events, lines) && "data:" <= line && Regular(line)
    ensures InStep(Interpreted(b, line), events, lines + [line])
  {
    assert line[0] == 'd';
    NextLine(lines, line);
    DataField(line);
    EachSnoc(DataLines(lines), JsTrim(line[5..]));
    assert "data" != "event" by {
      assert |"data"| != |"event"|;
    }
  }

  lemma NameLine(b: Buffers, events: seq<Event>, lines: seq<string>, line: string)
    requires InStep(b, events, lines) && "event:" <= line && Regular(line)
    ensures InStep(Interpreted(b, line), events, lines + [line])
  {
    assert line[0] == 'e';
    NextLine(lines, line);
    EventField(line);
    assert DataLines(lines) + [] == DataLines(lines);
  }

  lemma OtherLine(b: Buffers, events: seq<Event>, lines: seq<string>, line: string)
    requires InStep(b, events, lines) && line != [] && Regular(line)
    requires !("data:" <= line) && !("event:" <= line)
    ensures InStep(Interpreted(b, line), events, lines + [line])
  {
    NextLine(lines, line);
    EventField(line);
    DataField(line);
    assert DataLines(lines) + [] == DataLines(lines);
  }

  lemma OneMoreLine(b: Buffers, events: seq<Event>, lines: seq<string>, line: string)
    requires InStep(b, events, lines) && line != [] && Regular(line)
    ensures InStep(Interpreted(b, line), events, lines + [line])
  {
    if "data:" <= line {
      DataLine(b, events, lines, line);
    } else if "event:" <= line {
      NameLine(b, events, lines, line);
    } else {
      OtherLine(b, events, lines, line);
    }
  }

  /** Only the first line of a block may be empty. */
  predicate RegularLinesOfBlock(lines: seq<string>)
  {
    forall i :: 0 <= i < |lines| ==> Regular(lines[i]) && (i > 0 ==> lines[i] != [])
  }

  lemma LeadingLine(events: seq<Event>)
    ensures InStep(AllInterpreted(Buffers(events, "", ""), [""]), events, [""])
  {
    assert [""][..0] == [];
    NextLine([], "");
    assert [] + [""] == [""];
  }

  lemma {:induction false} BlockInStep(events: seq<Event>, lines: seq<string>)
    requires RegularLinesOfBlock(lines)
    ensures InStep(AllInterpreted(Buffers(events, "", ""), lines), events, lines)
  {
    if lines != [] {
      var init, last := lines[..|lines| - 1], lines[|lines| - 1];
      assert lines == init + [last];
      if last != [] {
        assert RegularLinesOfBlock(init);
        BlockInStep(events, init);
        OneMoreLine(AllInterpreted(Buffers(events, "", ""), init), events, init, last);
      } else {
        LeadingLine(events);
      }
    }
  }

  lemma {:induction false} JoinSnoc(data: seq<string>, line: string)
    requires data != []
    ensures Join(data + [line]) == Join(data) + "\n" + line
  {
    assert (data + [line])[1..] == data[1..] + [line];
    if |data| > 1 {
      JoinSnoc(data[1..], line);
    }
  }

  lemma {:induction false} EachIsJoin(data: seq<string>)
    ensures data != [] ==> Each(data) == Join(data) + "\n"
    ensures data == [] <==> Each(data) == ""
  {
    if |data| > 1 {
      var init, last := data[..|data| - 1], data[|data| - 1];
      EachIsJoin(init);
      JoinSnoc(init, last);
      assert data == init + [last];
    } else if |data| == 1 {
      assert data[..0] == [];
    }
  }

  /** What the page's parser makes of the lines of a block. */
  function EventsOf(lines: seq<string>): seq<Event>
  {
    if DataLines(lines) == [] then [] else [Event(EventName(lines), Join(DataLines(lines)))]
  }

  lemma DispatchedInStep(b: Buffers, events: seq<Event>, lines: seq<string>)
    requires InStep(b, events, lines)
    ensures Dispatched(b) == Buffers(events + EventsOf(lines), "", "")
  {
    var data := DataLines(lines);
    EachIsJoin(data);
    if data != [] {
      assert (Join(data) + "\n")[..|Join(data)|] == Join(data);
    } else {
      assert events + [] == events;
    }
  }

  // ---------------------------------------------------------------- whole texts

  lemma {:induction false} LinesAppend(a: string, b: string)
    ensures Lines(a + "\n" + b) == Lines(a) + Lines(b)
    decreases |a|
  {
    var text := a + "\n" + b;
    if a == [] {
      assert text[1..] == b;
    } else {
      assert text[1..] == a[1..] + "\n" + b;
      LinesAppend(a[1..], b);
    }
  }

  /** Without carriage returns, the ended lines are all but the last. */
  lemma {:induction false} EndedAreLines(line: string, text: string)
    requires '\r' !in text
    ensures var ls := Lines(text); EndedLines(line, text) == ([line + ls[0]] + ls[1..])[..|ls| - 1]
    decreases |text|
  {
    if text != [] {
      var rest := Lines(text[1..]);
      if text[0] == '\n' {
        EndedAreLines("", text[1..]);
        assert "" + rest[0] == rest[0] && [rest[0]] + rest[1..] == rest;
        assert line + "" == line;
        assert ([line] + rest)[..|rest|] == [line] + rest[..|rest| - 1];
      } else {
        EndedAreLines(line + [text[0]], text[1..]);
        assert line + [text[0]] + rest[0] == line + ([text[0]] + rest[0]);
      }
    }
  }

  lemma {:induction false} LinesStart(text: string)
    requires text != [] && text[0] != '\n'
    ensures Lines(text)[0] != []
  {
  }

  /** Without a blank-line separator only the first line and the last can be empty. */
  lemma {:induction false} InnerLines(text: string)
    requires FirstBreak(text) < 0
    ensures forall i :: 1 <= i < |Lines(text)| - 1 ==> Lines(text)[i] != []
    decreases |text|
  {
    if text != [] {
      var rest := text[1..];
      assert FirstBreak(rest) >= 0 ==> BreakAt(text, FirstBreak(rest) + 1);
      InnerLines(rest);
      if text[0] == '\n' && rest != [] {
        assert !BreakAt(text, 0);
        LinesStart(rest);
      }
    }
  }

  lemma BlockLines(block: string)
    requires IsBlock(block)
    ensures forall i :: 1 <= i < |Lines(block)| ==> Lines(block)[i] != []
  {
    var text := block + "\n";
    assert FirstBreak(text) >= 0 ==> BreakAt(block + "\n\n", FirstBreak(text));
    InnerLines(text);
    LinesAppend(block, "");
    assert block + "\n" + "" == text;
    assert Lines(text) == Lines(block) + [""];
    forall i | 1 <= i < |Lines(block)| ensures Lines(block)[i] != [] {
      assert Lines(text)[i] == Lines(block)[i];
    }
  }

  lemma {:induction false} InterpretedAppend(b: Buffers, first: seq<string>, second: seq<string>)
    ensures AllInterpreted(b, first + second) == AllInterpreted(AllInterpreted(b, first), second)
  {
    if second == [] {
      assert first + second == first;
    } else {
      var init := second[..|second| - 1];
      InterpretedAppend(b, first, init);
      assert (first + second)[..|first + second| - 1] == first + init;
    }
  }

  predicate RegularBlock(block: string)
  {
    forall i :: 0 <= i < |Lines(block)| ==> Regular(Lines(block)[i])
  }

  lemma BlockAgrees(events: seq<Event>, block: string)
    requires IsBlock(block) && RegularBlock(block)
    ensures AllInterpreted(Buffers(events, "", ""), Lines(block) + [""]) == Buffers(events + BlockEvents(block), "", "")
  {
    var lines := Lines(block);
    BlockLines(block);
    BlockInStep(events, lines);
    DispatchedInStep(AllInterpreted(Buffers(events, "", ""), lines), events, lines);
    assert (lines + [""])[..|lines|] == lines;
  }

  lemma {:induction false} NothingDispatched(b: Buffers, lines: seq<string>)
    requires forall i :: 0 <= i < |lines| ==> lines[i] != []
    ensures AllInterpreted(b, lines).events == b.events
  {
    if lines != [] {
      NothingDispatched(b, lines[..|lines| - 1]);
    }
  }

  lemma UnfinishedAgrees(events: seq<Event>, rest: string)
    requires FirstBreak(rest) < 0
    ensures AllInterpreted(Buffers(events, "", ""), Lines(rest)[..|Lines(rest)| - 1]).events == events
  {
    var lines := Lines(rest)[..|Lines(rest)| - 1];
    InnerLines(rest);
    if lines != [] {
      assert lines == lines[..1] + lines[1..];
      InterpretedAppend(Buffers(events, "", ""), lines[..1], lines[1..]);
      assert lines[..1][..0] == [];
      NothingDispatched(AllInterpreted(Buffers(events, "", ""), lines[..1]), lines[1..]);
    }
  }

  /** The ended lines of a block, its separator and what follows. */
  lemma BlockFirst(block: string, after: string)
    ensures var all, lines := Lines(block + "\n\n" + after), Lines(after);
            all[..|all| - 1] == Lines(block) + [""] + lines[..|lines| - 1]
  {
    var lines := Lines(after);
    assert block + "\n\n" + after == block + "\n" + ("\n" + after);
    LinesAppend(block, "\n" + after);
    LinesAppend("", after);
    assert "" + "\n" + after == "\n" + after;
    assert Lines(block + "\n\n" + after) == Lines(block) + ([""] + lines);
  }

  lemma LaterBlocks(blocks: seq<string>, rest: string)
    requires blocks != [] && Decomposes(Terminated(blocks) + rest, blocks, rest)
    ensures Decomposes(Terminated(blocks[1..]) + rest, blocks[1..], rest)
    ensures Terminated(blocks) + rest == blocks[0] + "\n\n" + (Terminated(blocks[1..]) + rest)
  {
    ConcatAssociative(blocks[0] + "\n\n", Terminated(blocks[1..]), rest);
  }

  lemma FirstInterpreted(events: seq<Event>, block: string, after: string)
    requires IsBlock(block) && RegularBlock(block)
    ensures var all, lines := Lines(block + "\n\n" + after), Lines(after);
            AllInterpreted(Buffers(events, "", ""), all[..|all| - 1])
            == AllInterpreted(Buffers(events + BlockEvents(block), "", ""), lines[..|lines| - 1])
  {
    BlockFirst(block, after);
    BlockAgrees(events, block);
    InterpretedAppend(Buffers(events, "", ""), Lines(block) + [""], Lines(after)[..|Lines(after)| - 1]);
  }

  lemma {:induction false} BlocksAgree(events: seq<Event>, blocks: seq<string>, rest: string)
    requires Decomposes(Terminated(blocks) + rest, blocks, rest)
    requires forall i :: 0 <= i < |blocks| ==> RegularBlock(blocks[i])
    ensures var lines := Lines(Terminated(blocks) + rest);
            AllInterpreted(Buffers(events, "", ""), lines[..|lines| - 1]).events == events + AllEvents(blocks)
    decreases |blocks|
  {
    if blocks == [] {
      assert Terminated(blocks) + rest == rest && events + [] == events;
      UnfinishedAgrees(events, rest);
    } else {
      var block, later := blocks[0], blocks[1..];
      LaterBlocks(blocks, rest);
      FirstInterpreted(events, block, Terminated(later) + rest);
      BlocksAgree(events + BlockEvents(block), later, rest);
      FirstBlock(block, later, blocks);
      ConcatAssociative(events, BlockEvents(block), AllEvents(later));
    }
  }

  lemma FirstBlock(block: string, later: seq<string>, blocks: seq<string>)
    requires blocks == [block] + later
    ensures AllEvents(blocks) == BlockEvents(block) + AllEvents(later)
  {
    CollectAppend(BlockEvents, [block], later);
    CollectSnoc(BlockEvents, [], block);
    assert [] + [block] == [block];
    assert Collect(BlockEvents, []) + BlockEvents(block) == BlockEvents(block);
  }

  /** Without carriage returns the standard reads the lines that `split` gives. */
  lemma StandardLines(text: string)
    requires '\r' !in text
    ensures Standard(text)
            == AllInterpreted(EMPTY, Lines(Decoded(text))[..|Lines(Decoded(text))| - 1]).events
  {
    var lines := Lines(Decoded(text));
    EndedAreLines("", Decoded(text));
    assert "" + lines[0] == lines[0] && [lines[0]] + lines[1..] == lines;
  }

  /** On a text without carriage returns whose complete blocks have only regular lines, the page
      delivers what a conforming client dispatches. */
  lemma StandardAgrees(text: string)
    requires '\r' !in text
    requires forall i :: 0 <= i < |CutBlocks(Decoded(text)).blocks| ==>
               RegularBlock(CutBlocks(Decoded(text)).blocks[i])
    ensures Page(text).events == Standard(text)
  {
    var cut := CutBlocks(Decoded(text));
    CutDecomposes(Decoded(text));
    BlocksAgree([], cut.blocks, cut.rest);
    StandardLines(text);
    assert [] + AllEvents(cut.blocks) == AllEvents(cut.blocks);
  }

  // ---------------------------------------------------------------- the condition on a line is exact

  ghost predicate RegularLines(lines: seq<string>)
  {
    forall i :: 0 <= i < |lines| ==> lines[i] != [] && Regular(lines[i])
  }

  /** Both parsers make the same of a block with these lines. */
  ghost predicate SameEvents(lines: seq<string>)
  {
    Dispatched(AllInterpreted(EMPTY, lines)).events == EventsOf(lines)
  }

  lemma RegularIsSame(before: seq<string>, line: string, after: seq<string>)
    requires line != [] && Regular(line) && RegularLines(before) && RegularLines(after)
    ensures SameEvents(before + [line] + after)
  {
    var lines := before + [line] + after;
    BlockInStep([], lines);
    DispatchedInStep(AllInterpreted(EMPTY, lines), [], lines);
    assert [] + EventsOf(lines) == EventsOf(lines);
  }

  lemma ThreeLines(a: string, b: string, c: string)
    ensures AllInterpreted(EMPTY, [a]) == Interpreted(EMPTY, a)
    ensures AllInterpreted(EMPTY, [a, b]) == Interpreted(Interpreted(EMPTY, a), b)
    ensures AllInterpreted(EMPTY, [a, b, c]) == Interpreted(Interpreted(Interpreted(EMPTY, a), b), c)
  {
    assert [a][..0] == [] && [a, b][..1] == [a] && [a, b, c][..2] == [a, b];
  }

  const NAMED := "event:a"
  const FILLED := "data:x"

  lemma OneChar(c: char)
    requires !IsJsSpace(c)
    ensures JsTrim([c]) == [c]
  {
    TrimIdentity([c], IsJsSpace);
  }

  lemma FilledLine(b: Buffers, lines: seq<string>)
    ensures Regular(FILLED) && Interpreted(b, FILLED) == b.(data := b.data + "x" + "\n")
    ensures DataLines(lines + [FILLED]) == DataLines(lines) + ["x"] && EventName(lines + [FILLED]) == EventName(lines)
  {
    NextLine(lines, FILLED);
    OneChar('x');
    assert FILLED[0] == 'd' && FILLED[..5] == "data:" && FILLED[5..] == "x";
    DataField(FILLED);
    assert |"data"| != |"event"|;
  }

  lemma NamedParts()
    ensures NAMED[0] == 'e' && NAMED[..6] == "event:" && NAMED[6..] == "a" && "event:" <= NAMED && !("data:" <= NAMED)
  {
    assert NAMED == "event:" + "a";
    assert "data:"[0] == 'd';
  }

  lemma NamedLine(b: Buffers, lines: seq<string>)
    ensures Regular(NAMED) && Interpreted(b, NAMED) == b.(kind := "a")
    ensures DataLines(lines + [NAMED]) == DataLines(lines) && EventName(lines + [NAMED]) == "a"
  {
    NextLine(lines, NAMED);
    OneChar('a');
    NamedParts();
    EventField(NAMED);
    assert DataLines(lines) + [] == DataLines(lines);
  }

  lemma TrimmedBlank(value: string)
    requires Unspaced(value) == ""
    ensures JsTrim(value) == ""
  {
    if value != [] {
      assert value == " ";
      assert TrimStart(value, IsJsSpace) == TrimStart(value[1..], IsJsSpace) == "";
    }
  }

  lemma DispatchedOne(b: Buffers, data: string)
    requires b.events == [] && b.data == data + "\n"
    ensures Dispatched(b).events == [Event(if b.kind == [] then "message" else b.kind, data)]
  {
    assert b.data[..|b.data| - 1] == data;
  }

  lemma NameTells(line: string)
    requires "event:" <= line && !Regular(line)
    ensures !SameEvents([line, FILLED])
  {
    var value := line[6..];
    assert line[0] == 'e';
    EventField(line);
    var named := Interpreted(EMPTY, line);
    assert named == Buffers([], Unspaced(value), "");
    ThreeLines(line, FILLED, "");
    FilledLine(named, [line]);
    assert [line] + [FILLED] == [line, FILLED];
    NextLine([], line);
    assert [] + [line] == [line];
    assert EventsOf([line, FILLED]) == [Event(JsTrim(value), "x")];
    assert "" + "x" + "\n" == "x" + "\n";
    DispatchedOne(Interpreted(named, FILLED), "x");
    if Unspaced(value) == "" {
      TrimmedBlank(value);
    }
  }

  lemma BareNameResets()
    ensures Interpreted(Buffers([], "a", ""), "event") == EMPTY
  {
    var bare := "event";
    assert bare[0] == 'e';
    BareField(bare);
  }

  lemma BareNameToStandard()
    ensures Dispatched(AllInterpreted(EMPTY, [NAMED, "event", FILLED])).events == [Event("message", "x")]
  {
    ThreeLines(NAMED, "event", FILLED);
    NamedLine(EMPTY, []);
    BareNameResets();
    FilledLine(EMPTY, []);
    assert "" + "x" + "\n" == "x" + "\n";
    DispatchedOne(Interpreted(EMPTY, FILLED), "x");
  }

  lemma BareNameIgnored(lines: seq<string>)
    ensures DataLines(lines + ["event"]) == DataLines(lines) && EventName(lines + ["event"]) == EventName(lines)
  {
    var bare := "event";
    NextLine(lines, bare);
    assert bare[0] == 'e' && |bare| == 5;
    assert DataLines(lines) + [] == DataLines(lines);
  }

  lemma BareNameToPage()
    ensures EventsOf([NAMED, "event", FILLED]) == [Event("a", "x")]
  {
    NamedLine(EMPTY, []);
    BareNameIgnored([] + [NAMED]);
    FilledLine(EMPTY, [] + [NAMED] + ["event"]);
    assert [] + [NAMED] + ["event"] + [FILLED] == [NAMED, "event", FILLED];
    assert DataLines([]) + ["x"] == ["x"];
  }

  lemma BareNameTells()
    ensures !SameEvents([NAMED, "event", FILLED])
  {
    BareNameToStandard();
    BareNameToPage();
  }

  lemma {:induction false} BareField(line: string)
    requires ':' !in line
    ensures ColonAt(line) == |line| && FieldOf(line) == line && ValueOf(line) == ""
  {
    if line != [] {
      BareField(line[1..]);
    }
  }

  lemma BareDataFills()
    ensures Interpreted(EMPTY, "data") == Buffers([], "", "" + "\n")
  {
    var bare := "data";
    assert bare[0] == 'd' && |bare| != |"event"|;
    BareField(bare);
    assert "" + "" + "\n" == "" + "\n";
  }

  lemma BareDataTells()
    ensures !SameEvents(["data"])
  {
    var bare := "data";
    ThreeLines(bare, "", "");
    BareDataFills();
    NextLine([], bare);
    assert |bare| == 4 && [] + [bare] == [bare];
    DispatchedOne(Interpreted(EMPTY, bare), "");
  }

  lemma FilledByData(line: string)
    requires "data:" <= line
    ensures Interpreted(EMPTY, line) == Buffers([], "", Unspaced(line[5..]) + "\n")
  {
    assert line[0] == 'd' && |"data"| != |"event"|;
    DataField(line);
    assert "" + Unspaced(line[5..]) + "\n" == Unspaced(line[5..]) + "\n";
  }

  lemma DataTells(line: string)
    requires "data:" <= line && !Regular(line)
    ensures !SameEvents([line])
  {
    var value := line[5..];
    ThreeLines(line, "", "");
    FilledByData(line);
    NextLine([], line);
    assert [] + [line] == [line];
    assert line[0] == 'd';
    assert EventsOf([line]) == [Event("message", JsTrim(value))];
    DispatchedOne(Interpreted(EMPTY, line), Unspaced(value));
  }

  lemma RegularContext()
    ensures RegularLines([NAMED]) && RegularLines([FILLED])
  {
    FilledLine(EMPTY, []);
    NamedLine(EMPTY, []);
  }

  /** The context in which a line that is not regular makes a difference. */
  lemma TellingContext(line: string) returns (before: seq<string>, after: seq<string>)
    requires line != [] && !Regular(line)
    ensures (before == [] || before == [NAMED]) && (after == [] || after == [FILLED])
    ensures RegularLines(before) && RegularLines(after) && !SameEvents(before + [line] + after)
  {
    RegularContext();
    if "event:" <= line {
      before, after := [], [FILLED];
      assert before + [line] + after == [line, FILLED];
      NameTells(line);
    } else if line == "event" {
      before, after := [NAMED], [FILLED];
      assert before + [line] + after == [NAMED, line, FILLED];
      BareNameTells();
    } else {
      before, after := [], [];
      assert before + [line] + after == [line];
      if line == "data" {
        BareDataTells();
      } else {
        DataTells(line);
      }
    }
  }

  ghost predicate AlwaysSame(line: string)
  {
    forall before, after :: RegularLines(before) && RegularLines(after) ==> SameEvents(before + [line] + after)
  }

  /** A line makes no difference among regular lines exactly when it is regular itself. */
  lemma RegularIff(line: string)
    requires line != []
    ensures AlwaysSame(line) <==> Regular(line)
  {
    if Regular(line) {
      forall before, after | RegularLines(before) && RegularLines(after) ensures SameEvents(before + [line] + after) {
        RegularIsSame(before, line, after);
      }
    } else {
      var before, after := TellingContext(line);
      assert !SameEvents(before + [line] + after);
    }
  }
}
