/** The browser's incremental event-stream parser (`createSSEParser` in `web/lib/api.ts`). */
module Sse {
  import opened Common

  datatype Event = Event(event: string, data: string)

  datatype Parsed = Parsed(events: seq<Event>, rest: string)

  /** JavaScript's `trim` set: WhiteSpace and LineTerminator. */
  predicate IsJsSpace(c: char)
  {
    || c in "\t\n\r \U{000B}\U{000C}\U{00A0}\U{1680}\U{2028}\U{2029}\U{202F}\U{205F}\U{3000}\U{FEFF}"
    || '\U{2000}' <= c <= '\U{200A}'
  }

  function JsTrim(s: string): string { Trim(s, IsJsSpace) }

  predicate BreakAt(text: string, i: int)
  {
    0 <= i < |text| - 1 && text[i] == '\n' && text[i + 1] == '\n'
  }

  /** `indexOf("\n\n")`: the first blank-line separator, or -1. */
  function FirstBreak(text: string): (k: int)
    ensures -1 <= k
    ensures k >= 0 ==> BreakAt(text, k)
    ensures forall i :: BreakAt(text, i) ==> 0 <= k <= i
  {
    BreakFrom(text, 0)
  }

  function BreakFrom(text: string, from: nat): (k: int)
    ensures k == -1 || (from <= k && BreakAt(text, k))
    ensures forall i :: from <= i && BreakAt(text, i) ==> from <= k <= i
    decreases |text| - from
  {
    if from + 1 >= |text| then -1
    else if BreakAt(text, from) then from
    else BreakFrom(text, from + 1)
  }

  /** `split("\n")`. */
  function Lines(text: string): (ls: seq<string>)
    ensures ls != []
    decreases |text|
  {
    if text == [] then [""]
    else
      var rest := Lines(text[1..]);
      if text[0] == '\n' then [""] + rest else [[text[0]] + rest[0]] + rest[1..]
  }

  /** `join("\n")`. */
  function Join(ls: seq<string>): string
  {
    if ls == [] then "" else if |ls| == 1 then ls[0] else ls[0] + "\n" + Join(ls[1..])
  }

  /** The last `event:` line names the event. */
  function EventName(ls: seq<string>): string
  {
    if ls == [] then "message"
    else
      var line := ls[|ls| - 1];
      if "event:" <= line then JsTrim(line[6..]) else EventName(ls[..|ls| - 1])
  }

  /** Every `data:` line contributes, in order. */
  function DataLines(ls: seq<string>): seq<string>
  {
    if ls == [] then []
    else
      var line := ls[|ls| - 1];
      DataLines(ls[..|ls| - 1]) + if "data:" <= line then [JsTrim(line[5..])] else []
  }

  /** A block without a `data:` line dispatches nothing. */
  function BlockEvents(block: string): seq<Event>
  {
    var ls := Lines(block);
    if DataLines(ls) == [] then [] else [Event(EventName(ls), Join(DataLines(ls)))]
  }

  /** The complete blocks of a text, and the unfinished rest. */
  datatype Cut = Cut(blocks: seq<string>, rest: string)

  function CutBlocks(text: string): Cut
    decreases |text|
  {
    var k := FirstBreak(text);
    if k < 0 then Cut([], text)
    else
      var later := CutBlocks(text[k + 2..]);
      Cut([text[..k]] + later.blocks, later.rest)
  }

  function AllEvents(blocks: seq<string>): seq<Event>
  {
    Collect(BlockEvents, blocks)
  }

  /** Parsing a whole text in one go: the events, and what is left unconsumed. */
  function Parse(text: string): Parsed
  {
    Parsed(AllEvents(CutBlocks(text).blocks), CutBlocks(text).rest)
  }

  class SseParser {
    var buffer: string

    /** Between calls the buffer holds no complete block. */
    ghost predicate Valid()
      reads this
    {
      FirstBreak(buffer) < 0
    }

    constructor ()
      ensures Valid() && buffer == ""
    {
      buffer := "";
    }

    method Feed(chunk: string) returns (events: seq<Event>)
      modifies this
      ensures Valid()
      ensures Parsed(events, buffer) == Parse(old(buffer) + chunk)
    {
      buffer := buffer + chunk;
      ghost var text := buffer;
      ghost var blocks: seq<string> := [];
      events := [];
      var separator := FirstBreak(buffer);
      while separator != -1
        invariant separator == FirstBreak(buffer)
        invariant CutBlocks(text) == Cut(blocks + CutBlocks(buffer).blocks, CutBlocks(buffer).rest)
        invariant events == AllEvents(blocks)
        decreases |buffer|
      {
        var block := buffer[..separator];
        buffer := buffer[separator + 2..];
        var found := ParseBlock(block);
        events := events + found;
        ghost var later := CutBlocks(buffer);
        ConcatAssociative(blocks, [block], later.blocks);
        CollectSnoc(BlockEvents, blocks, block);
        blocks := blocks + [block];
        separator := FirstBreak(buffer);
      }
      assert blocks + [] == blocks;
    }

    /** The reader loop of `streamScan`: every chunk in turn through one parser. */
    method FeedAll(chunks: seq<string>) returns (events: seq<Event>)
      requires Valid()
      modifies this
      ensures Valid()
      ensures Parsed(events, buffer) == Parse(old(buffer) + Flatten(chunks))
    {
      events := [];
      ghost var text := buffer;
      assert text + Flatten(chunks[..0]) == text;
      for i := 0 to |chunks|
        invariant Valid()
        invariant Parsed(events, buffer) == Parse(text + Flatten(chunks[..i]))
      {
        NextChunk(text, chunks, i);
        var found := Feed(chunks[i]);
        events := events + found;
      }
      assert chunks[..|chunks|] == chunks;
    }
  }

  method ParseBlock(block: string) returns (events: seq<Event>)
    ensures events == BlockEvents(block)
  {
    var event := "message";
    var data: seq<string> := [];
    var ls := Lines(block);
    for i := 0 to |ls|
      invariant event == EventName(ls[..i]) && data == DataLines(ls[..i])
    {
      assert ls[..i + 1][..i] == ls[..i];
      var line := ls[i];
      assert line != [] ==> ("event:" <= line ==> line[0] == 'e') && ("data:" <= line ==> line[0] == 'd');
      if "event:" <= line {
        event := JsTrim(line[6..]);
      } else if "data:" <= line {
        data := data + [JsTrim(line[5..])];
      }
    }
    assert ls[..|ls|] == ls;
    events := [];
    if |data| > 0 {
      events := [Event(event, Join(data))];
    }
  }

  // ---------------------------------------------------------------- what the buffer is

  /** `block` followed by a blank line has that line as its first separator. */
  predicate IsBlock(block: string)
  {
    FirstBreak(block + "\n\n") == |block|
  }

  function Terminated(blocks: seq<string>): string
  {
    if blocks == [] then "" else blocks[0] + "\n\n" + Terminated(blocks[1..])
  }

  /** The text is complete blocks followed by an unfinished one. */
  predicate Decomposes(text: string, blocks: seq<string>, rest: string)
  {
    && text == Terminated(blocks) + rest
    && (forall i :: 0 <= i < |blocks| ==> IsBlock(blocks[i]))
    && FirstBreak(rest) < 0
  }

  lemma {:induction false} RestIsSuffix(text: string)
    ensures var rest := CutBlocks(text).rest;
            FirstBreak(rest) < 0 && |rest| <= |text| && rest == text[|text| - |rest|..]
    decreases |text|
  {
    var k := FirstBreak(text);
    if k >= 0 {
      RestIsSuffix(text[k + 2..]);
    }
  }

  /** There is exactly one way to cut a text into blocks and an unfinished rest, and it is the
      parser's. */
  lemma CutIsTheDecomposition(text: string, blocks: seq<string>, rest: string)
    ensures Decomposes(text, blocks, rest) <==> CutBlocks(text) == Cut(blocks, rest)
  {
    CutDecomposes(text);
    if Decomposes(text, blocks, rest) {
      DecompositionUnique(text, blocks, rest);
    }
  }

  lemma {:induction false} DecompositionUnique(text: string, blocks: seq<string>, rest: string)
    requires Decomposes(text, blocks, rest)
    ensures CutBlocks(text) == Cut(blocks, rest)
    decreases |blocks|
  {
    if blocks == [] {
      assert text == rest;
    } else {
      var after := Terminated(blocks[1..]) + rest;
      assert text == blocks[0] + "\n\n" + after;
      SameFirstBreak(blocks[0] + "\n\n", after);
      assert text[..|blocks[0]|] == blocks[0] && text[|blocks[0]| + 2..] == after;
      DecompositionUnique(after, blocks[1..], rest);
    }
  }

  lemma BreakSplits(text: string, k: nat)
    requires BreakAt(text, k)
    ensures text == text[..k] + "\n\n" + text[k + 2..]
  {
  }

  lemma BlockThenDecomposition(block: string, after: string, blocks: seq<string>, rest: string)
    requires IsBlock(block) && Decomposes(after, blocks, rest)
    ensures Decomposes(block + "\n\n" + after, [block] + blocks, rest)
  {
    assert ([block] + blocks)[1..] == blocks;
  }

  lemma {:induction false} CutDecomposes(text: string)
    ensures Decomposes(text, CutBlocks(text).blocks, CutBlocks(text).rest)
    decreases |text|
  {
    var k := FirstBreak(text);
    if k < 0 {
      assert Terminated([]) + text == text;
    } else {
      var block, after := text[..k], text[k + 2..];
      var later := CutBlocks(after);
      CutDecomposes(after);
      BlockBefore(text, k);
      BreakSplits(text, k);
      BlockThenDecomposition(block, after, later.blocks, later.rest);
    }
  }

  lemma BlockBefore(text: string, k: nat)
    requires k == FirstBreak(text)
    ensures IsBlock(text[..k])
  {
    var head := text[..k] + "\n\n";
    assert BreakAt(head, k);
    assert head == text[..k + 2];
    assert BreakAt(text, FirstBreak(head));
  }

  lemma SameFirstBreak(text: string, more: string)
    requires FirstBreak(text) >= 0
    ensures FirstBreak(text + more) == FirstBreak(text)
  {
    var k := FirstBreak(text);
    var j := FirstBreak(text + more);
    assert BreakAt(text + more, k);
    assert BreakAt(text, j);
  }

  // ---------------------------------------------------------------- chunking does not matter

  lemma {:induction false} TerminatedAppend(a: seq<string>, b: seq<string>)
    ensures Terminated(a + b) == Terminated(a) + Terminated(b)
  {
    if a == [] {
      assert [] + b == b;
    } else {
      assert (a + b)[1..] == a[1..] + b;
      TerminatedAppend(a[1..], b);
    }
  }

  lemma DecompositionsJoin(text: string, blocks: seq<string>, rest: string, more: string, blocks': seq<string>,
                           rest': string)
    requires Decomposes(text, blocks, rest)
    requires Decomposes(rest + more, blocks', rest')
    ensures Decomposes(text + more, blocks + blocks', rest')
  {
    TerminatedAppend(blocks, blocks');
    var a, b := Terminated(blocks), Terminated(blocks');
    ConcatAssociative(a, rest, more);
    ConcatAssociative(a, b, rest');
  }

  lemma CutContinues(text: string, more: string)
    ensures var head := CutBlocks(text);
            var tail := CutBlocks(head.rest + more);
            CutBlocks(text + more) == Cut(head.blocks + tail.blocks, tail.rest)
  {
    var head := CutBlocks(text);
    var tail := CutBlocks(head.rest + more);
    CutIsTheDecomposition(text, head.blocks, head.rest);
    CutIsTheDecomposition(head.rest + more, tail.blocks, tail.rest);
    DecompositionsJoin(text, head.blocks, head.rest, more, tail.blocks, tail.rest);
    CutIsTheDecomposition(text + more, head.blocks + tail.blocks, tail.rest);
  }

  /** Parsing more text is parsing on from the unconsumed suffix. */
  lemma ParseContinues(text: string, more: string)
    ensures var later := Parse(Parse(text).rest + more);
            Parse(text + more) == Parsed(Parse(text).events + later.events, later.rest)
  {
    CutContinues(text, more);
    CollectAppend(BlockEvents, CutBlocks(text).blocks, CutBlocks(CutBlocks(text).rest + more).blocks);
  }

  lemma NextChunk(text: string, chunks: seq<string>, i: nat)
    requires i < |chunks|
    ensures var before := Parse(text + Flatten(chunks[..i]));
            var now := Parse(before.rest + chunks[i]);
            Parse(text + Flatten(chunks[..i + 1])) == Parsed(before.events + now.events, now.rest)
  {
    var before := Flatten(chunks[..i]);
    assert Flatten(chunks[..i + 1]) == before + chunks[i] by {
      assert chunks[..i + 1] == chunks[..i] + [chunks[i]];
      FlattenSnoc(chunks[..i], chunks[i]);
    }
    assert text + (before + chunks[i]) == text + before + chunks[i];
    ParseContinues(text + before, chunks[i]);
  }

  /** What one parser emits over a list of chunks, call by call. */
  function Outputs(buffer: string, chunks: seq<string>): Parsed
    decreases |chunks|
  {
    if chunks == [] then Parsed([], buffer)
    else
      var first := Parse(buffer + chunks[0]);
      var later := Outputs(first.rest, chunks[1..]);
      Parsed(first.events + later.events, later.rest)
  }

  /** The concatenated outputs of any split equal one call on the whole text. */
  lemma {:induction false} ChunkingInvisible(buffer: string, chunks: seq<string>)
    requires FirstBreak(buffer) < 0
    ensures Outputs(buffer, chunks) == Parse(buffer + Flatten(chunks))
    decreases |chunks|
  {
    if chunks == [] {
      assert buffer + Flatten(chunks) == buffer;
    } else {
      var text := buffer + chunks[0];
      var more := Flatten(chunks[1..]);
      assert buffer + Flatten(chunks) == text + more;
      RestIsSuffix(text);
      ChunkingInvisible(Parse(text).rest, chunks[1..]);
      ParseContinues(text, more);
    }
  }
}
