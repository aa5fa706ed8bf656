/** The wire format between `job_updates` in `sse.rs` and the browser parser: printing, the
    round trip, the producer that drops repeated payloads, and the two ends put together. */
module SseStream {
  import opened Common
  import opened Sse

  /** A dispatched event, or a comment block that only keeps the connection alive. */
  datatype Frame =
    | Message(name: string, data: seq<string>)
    | KeepAlive(comments: seq<string>)

  predicate OneLine(s: string) { '\n' !in s }

  predicate Printable(f: Frame)
  {
    match f
    case Message(name, data) => OneLine(name) && forall i :: 0 <= i < |data| ==> OneLine(data[i])
    case KeepAlive(comments) => comments != [] && forall i :: 0 <= i < |comments| ==> OneLine(comments[i])
  }

  function Prefixed(prefix: string, lines: seq<string>): (r: seq<string>)
    ensures |r| == |lines| && forall i :: 0 <= i < |r| ==> r[i] == prefix + lines[i]
  {
    if lines == [] then []
    else Prefixed(prefix, lines[..|lines| - 1]) + [prefix + lines[|lines| - 1]]
  }

  function FrameLines(f: Frame): seq<string>
  {
    match f
    case Message(name, data) => ["event: " + name] + Prefixed("data: ", data)
    case KeepAlive(comments) => Prefixed(":", comments)
  }

  function Blocks(frames: seq<Frame>): seq<string>
  {
    if frames == [] then [] else Blocks(frames[..|frames| - 1]) + [Join(FrameLines(frames[|frames| - 1]))]
  }

  /** The bytes on the wire: each frame's lines, then a blank line. */
  function Print(frames: seq<Frame>): string
  {
    Terminated(Blocks(frames))
  }

  function Trimmed(lines: seq<string>): seq<string>
  {
    if lines == [] then [] else Trimmed(lines[..|lines| - 1]) + [JsTrim(lines[|lines| - 1])]
  }

  /** What the reader makes of one frame. */
  function Delivered(f: Frame): seq<Event>
  {
    if f.Message? && f.data != [] then [Event(JsTrim(f.name), Join(Trimmed(f.data)))] else []
  }

  function AllDelivered(frames: seq<Frame>): seq<Event>
  {
    Collect(Delivered, frames)
  }

  // ---------------------------------------------------------------- lines and blocks

  lemma {:induction false} LinesAfterLine(line: string, more: string)
    requires OneLine(line)
    ensures Lines(line + "\n" + more) == [line] + Lines(more)
    decreases |line|
  {
    var text := line + "\n" + more;
    if line == [] {
      assert text[1..] == more;
    } else {
      assert text[1..] == line[1..] + "\n" + more;
      LinesAfterLine(line[1..], more);
      assert [line[0]] + line[1..] == line;
      assert Lines(text)[1..] == Lines(more);
    }
  }

  lemma {:induction false} LinesOfLine(line: string)
    requires OneLine(line)
    ensures Lines(line) == [line]
  {
    if line != [] {
      LinesOfLine(line[1..]);
      assert [line[0]] + line[1..] == line;
    }
  }

  /** `split` undoes `join` on lines without line feeds. */
  lemma {:induction false} LinesOfJoin(ls: seq<string>)
    requires ls != [] && forall i :: 0 <= i < |ls| ==> OneLine(ls[i])
    ensures Lines(Join(ls)) == ls
  {
    if |ls| == 1 {
      LinesOfLine(ls[0]);
    } else {
      LinesOfJoin(ls[1..]);
      LinesAfterLine(ls[0], Join(ls[1..]));
      assert [ls[0]] + ls[1..] == ls;
    }
  }

  ghost predicate NoBreak(text: string)
  {
    forall i :: !BreakAt(text, i)
  }

  lemma NoBreakCons(line: string, text: string)
    requires OneLine(line) && NoBreak(text) && text != [] && text[0] != '\n'
    ensures NoBreak(line + "\n" + text)
  {
    var all := line + "\n" + text;
    forall i ensures !BreakAt(all, i) {
      if 0 <= i < |line| {
        assert line[i] in line;
      } else if i > |line| {
        assert !BreakAt(text, i - |line| - 1);
      }
    }
  }

  lemma {:induction false} JoinHasNoBreak(ls: seq<string>)
    requires ls != [] && forall i :: 0 <= i < |ls| ==> ls[i] != [] && OneLine(ls[i])
    ensures NoBreak(Join(ls) + "\n") && Join(ls) != [] && Join(ls)[0] != '\n'
  {
    var first := ls[0];
    assert first[0] in first;
    if |ls| == 1 {
      forall i ensures !BreakAt(first + "\n", i) {
        if 0 <= i < |first| {
          assert first[i] in first;
        }
      }
    } else {
      JoinHasNoBreak(ls[1..]);
      NoBreakCons(first, Join(ls[1..]) + "\n");
      assert first + "\n" + (Join(ls[1..]) + "\n") == Join(ls) + "\n";
    }
  }

  lemma JoinIsBlock(ls: seq<string>)
    requires ls != [] && forall i :: 0 <= i < |ls| ==> ls[i] != [] && OneLine(ls[i])
    ensures IsBlock(Join(ls))
  {
    JoinHasNoBreak(ls);
    var text := Join(ls) + "\n\n";
    assert BreakAt(text, |Join(ls)|);
    var k := FirstBreak(text);
    assert !BreakAt(Join(ls) + "\n", k);
  }

  // ---------------------------------------------------------------- reading a frame back

  lemma EventLine(name: string)
    ensures EventName(["event: " + name]) == JsTrim(name) && DataLines(["event: " + name]) == []
  {
    var ls := ["event: " + name];
    assert ls[0][6..] == " " + name && ls[0][0] == 'e';
    assert ls[..0] == [] && DataLines([]) == [];
  }

  lemma DataLine(ls: seq<string>, value: string)
    ensures var more := ls + ["data: " + value];
            EventName(more) == EventName(ls) && DataLines(more) == DataLines(ls) + [JsTrim(value)]
  {
    var line := "data: " + value;
    assert (ls + [line])[..|ls|] == ls;
    assert line[5..] == " " + value && line[0] == 'd';
  }

  lemma {:induction false} MessageLines(name: string, data: seq<string>)
    ensures EventName(FrameLines(Message(name, data))) == JsTrim(name)
    ensures DataLines(FrameLines(Message(name, data))) == Trimmed(data)
  {
    if data == [] {
      assert FrameLines(Message(name, data)) == ["event: " + name];
      EventLine(name);
    } else {
      var head := ["event: " + name];
      var init := Prefixed("data: ", data[..|data| - 1]);
      var line := "data: " + data[|data| - 1];
      assert head + (init + [line]) == (head + init) + [line];
      MessageLines(name, data[..|data| - 1]);
      DataLine(FrameLines(Message(name, data[..|data| - 1])), data[|data| - 1]);
    }
  }

  lemma {:induction false} CommentLines(comments: seq<string>)
    ensures DataLines(Prefixed(":", comments)) == []
  {
    if comments != [] {
      var ls := Prefixed(":", comments);
      assert ls[..|ls| - 1] == Prefixed(":", comments[..|comments| - 1]);
      CommentLines(comments[..|comments| - 1]);
      assert ls[|ls| - 1][0] == ':';
    }
  }

  lemma FrameRoundTrip(f: Frame)
    requires Printable(f)
    ensures IsBlock(Join(FrameLines(f))) && BlockEvents(Join(FrameLines(f))) == Delivered(f)
  {
    JoinIsBlock(FrameLines(f));
    LinesOfJoin(FrameLines(f));
    match f
    case Message(name, data) => MessageLines(name, data);
    case KeepAlive(comments) => CommentLines(comments);
  }

  lemma {:induction false} BlocksAreBlocks(frames: seq<Frame>)
    requires forall i :: 0 <= i < |frames| ==> Printable(frames[i])
    ensures forall b :: b in Blocks(frames) ==> IsBlock(b)
  {
    if frames != [] {
      BlocksAreBlocks(frames[..|frames| - 1]);
      FrameRoundTrip(frames[|frames| - 1]);
    }
  }

  lemma {:induction false} BlocksDeliver(frames: seq<Frame>)
    requires forall i :: 0 <= i < |frames| ==> Printable(frames[i])
    ensures Collect(BlockEvents, Blocks(frames)) == Collect(Delivered, frames)
  {
    if frames != [] {
      var init, last := frames[..|frames| - 1], frames[|frames| - 1];
      BlocksDeliver(init);
      FrameRoundTrip(last);
      CollectSnoc(BlockEvents, Blocks(init), Join(FrameLines(last)));
      assert Blocks(frames) == Blocks(init) + [Join(FrameLines(last))];
    }
  }

  /** Printed frames, cut into chunks anywhere, are read back as exactly the events they carry:
      keep-alives and data-free messages vanish, names and lines arrive trimmed, nothing is
      left in the buffer. */
  lemma RoundTrip(frames: seq<Frame>, chunks: seq<string>)
    requires forall i :: 0 <= i < |frames| ==> Printable(frames[i])
    requires Flatten(chunks) == Print(frames)
    ensures Outputs("", chunks) == Parsed(AllDelivered(frames), "")
  {
    BlocksAreBlocks(frames);
    BlocksDeliver(frames);
    assert Print(frames) + "" == Print(frames);
    assert Decomposes(Print(frames), Blocks(frames), "");
    CutIsTheDecomposition(Print(frames), Blocks(frames), "");
    ChunkingInvisible("", chunks);
    assert "" + Flatten(chunks) == Flatten(chunks);
  }

  lemma {:induction false} TrimmedIsPointwise(lines: seq<string>)
    ensures |Trimmed(lines)| == |lines|
    ensures forall i :: 0 <= i < |lines| ==> Trimmed(lines)[i] == JsTrim(lines[i])
  {
    if lines != [] {
      var n := |lines| - 1;
      TrimmedIsPointwise(lines[..n]);
      assert Trimmed(lines) == Trimmed(lines[..n]) + [JsTrim(lines[n])];
      forall i | 0 <= i < |lines| ensures Trimmed(lines)[i] == JsTrim(lines[i]) {
        assert i < n ==> lines[..n][i] == lines[i];
      }
    }
  }

  /** An event survives unchanged exactly when its name and every data line are already trimmed. */
  lemma DeliveredUnchanged(name: string, data: seq<string>)
    requires Printable(Message(name, data)) && data != []
    ensures Delivered(Message(name, data)) == [Event(name, Join(data))]
            <==> JsTrim(name) == name && forall i :: 0 <= i < |data| ==> JsTrim(data[i]) == data[i]
  {
    var t := Trimmed(data);
    TrimmedIsPointwise(data);
    forall i | 0 <= i < |t| ensures OneLine(t[i]) {
      TrimIdempotent(data[i], IsJsSpace);
    }
    LinesOfJoin(t);
    LinesOfJoin(data);
    if JsTrim(name) == name && forall i :: 0 <= i < |data| ==> JsTrim(data[i]) == data[i] {
      assert t == data;
    }
  }

  // ---------------------------------------------------------------- the producer

  /** One answer of the job query: the rendered detail, or the job is gone (or unreadable). */
  datatype Poll = Readable(payload: string, finished: bool) | Gone

  /** One pull on the stream; `Waiting` means the given polls ran out without a change. */
  datatype Pull = Emit(payload: string, used: nat) | End | Waiting

  function PullFrom(last: Option<string>, polls: seq<Poll>): (p: Pull)
    ensures p.Emit? ==> 0 < p.used <= |polls| && polls[p.used - 1].Readable? && polls[p.used - 1].payload == p.payload
  {
    if polls == [] then Waiting
    else if polls[0].Gone? then End
    else if last != Some(polls[0].payload) then Emit(polls[0].payload, 1)
    else match PullFrom(last, polls[1..])
         case Emit(payload, used) => Emit(payload, used + 1)
         case End => End
         case Waiting => Waiting
  }

  class JobStream {
    var lastPayload: Option<string>
    var finished: bool

    constructor ()
      ensures lastPayload == None && !finished
    {
      lastPayload, finished := None, false;
    }

    /** The body of the `unfold`: poll until the payload changes or the job is gone. */
    method Next(polls: seq<Poll>) returns (pull: Pull)
      modifies this
      ensures pull == if old(finished) then End else PullFrom(old(lastPayload), polls)
      ensures pull.Emit? ==> lastPayload == Some(pull.payload) && finished == polls[pull.used - 1].finished
      ensures !pull.Emit? ==> lastPayload == old(lastPayload) && finished == old(finished)
    {
      if finished {
        return End;
      }
      var i := 0;
      while i < |polls|
        invariant 0 <= i <= |polls|
        invariant lastPayload == old(lastPayload) && finished == old(finished)
        invariant PullFrom(lastPayload, polls) == match PullFrom(lastPayload, polls[i..])
                                                  case Emit(payload, used) => Emit(payload, used + i)
                                                  case End => End
                                                  case Waiting => Waiting
      {
        if polls[i].Gone? {
          return End;
        }
        if lastPayload != Some(polls[i].payload) {
          lastPayload := Some(polls[i].payload);
          finished := polls[i].finished;
          return Emit(polls[i].payload, i + 1);
        }
        assert polls[i..][1..] == polls[i + 1..];
        i := i + 1;
      }
      return Waiting;
    }
  }

  predicate Repeats(poll: Poll, last: Option<string>)
  {
    poll.Readable? && last == Some(poll.payload)
  }

  /** A pull ends the stream exactly when the job is gone before anything changed. */
  lemma {:induction false} PullEndsIff(last: Option<string>, polls: seq<Poll>)
    ensures PullFrom(last, polls) == End
            <==> exists k :: 0 <= k < |polls| && polls[k].Gone? && forall j :: 0 <= j < k ==> Repeats(polls[j], last)
    ensures PullFrom(last, polls) == Waiting <==> forall j :: 0 <= j < |polls| ==> Repeats(polls[j], last)
  {
    if polls != [] {
      PullEndsIff(last, polls[1..]);
      assert forall j :: 0 < j < |polls| ==> polls[j] == polls[1..][j - 1];
      if Repeats(polls[0], last) && PullFrom(last, polls[1..]) == End {
        var k :| 0 <= k < |polls| - 1 && polls[1..][k].Gone?
                 && forall j :: 0 <= j < k ==> Repeats(polls[1..][j], last);
        assert polls[k + 1].Gone? && forall j :: 0 <= j < k + 1 ==> Repeats(polls[j], last);
      }
    }
  }

  /** Everything the stream emits over the given polls, pull after pull. */
  function Emitted(last: Option<string>, polls: seq<Poll>): seq<string>
    decreases |polls|
  {
    match PullFrom(last, polls)
    case Emit(payload, used) =>
      [payload] + if polls[used - 1].finished then [] else Emitted(Some(payload), polls[used..])
    case End => []
    case Waiting => []
  }

  /** The polls before the job disappears. */
  function Visible(polls: seq<Poll>): seq<Poll>
  {
    if polls == [] || polls[0].Gone? then [] else [polls[0]] + Visible(polls[1..])
  }

  /** Each poll whose payload differs from the poll before it; `before` precedes the first. */
  function Changes(before: Option<string>, polls: seq<Poll>): seq<Poll>
    requires forall i :: 0 <= i < |polls| ==> polls[i].Readable?
    decreases |polls|
  {
    if polls == [] then []
    else (if before == Some(polls[0].payload) then [] else [polls[0]]) + Changes(Some(polls[0].payload), polls[1..])
  }

  /** Up to and including the first finished one. */
  function ToFirstFinished(polls: seq<Poll>): seq<string>
    requires forall i :: 0 <= i < |polls| ==> polls[i].Readable?
  {
    if polls == [] then []
    else [polls[0].payload] + if polls[0].finished then [] else ToFirstFinished(polls[1..])
  }

  lemma {:induction false} VisibleReadable(polls: seq<Poll>)
    ensures forall i :: 0 <= i < |Visible(polls)| ==> Visible(polls)[i].Readable?
  {
    if polls != [] && polls[0].Readable? {
      VisibleReadable(polls[1..]);
    }
  }

  lemma {:induction false} ChangesReadable(before: Option<string>, polls: seq<Poll>)
    requires forall i :: 0 <= i < |polls| ==> polls[i].Readable?
    ensures forall i :: 0 <= i < |Changes(before, polls)| ==> Changes(before, polls)[i].Readable?
    decreases |polls|
  {
    if polls != [] {
      ChangesReadable(Some(polls[0].payload), polls[1..]);
    }
  }

  function Expected(last: Option<string>, polls: seq<Poll>): seq<string>
  {
    VisibleReadable(polls);
    ChangesReadable(last, Visible(polls));
    ToFirstFinished(Changes(last, Visible(polls)))
  }

  /** The stream emits the polled payloads with consecutive repeats removed, up to and including
      the first change that is terminal, and stops when the job disappears. */
  lemma {:induction false} EmitsTheChanges(last: Option<string>, polls: seq<Poll>)
    ensures Emitted(last, polls) == Expected(last, polls)
    decreases |polls|
  {
    if polls != [] && polls[0].Readable? {
      var rest := polls[1..];
      VisibleReadable(polls);
      VisibleReadable(rest);
      ChangesReadable(last, Visible(polls));
      assert Visible(polls)[1..] == Visible(rest);
      var next := Some(polls[0].payload);
      EmitsTheChanges(next, rest);
      if last == next {
        SkippedPoll(last, polls);
        assert [] + Changes(next, Visible(rest)) == Changes(next, Visible(rest));
      } else {
        assert polls[1..] == rest;
        assert Changes(last, Visible(polls))[1..] == Changes(next, Visible(rest));
      }
    }
  }

  lemma SkippedPoll(last: Option<string>, polls: seq<Poll>)
    requires polls != [] && polls[0].Readable? && last == Some(polls[0].payload)
    ensures Emitted(last, polls) == Emitted(last, polls[1..])
  {
    match PullFrom(last, polls[1..])
    case Emit(payload, used) => assert polls[1..][used..] == polls[used + 1..];
    case End =>
    case Waiting =>
  }

  // ---------------------------------------------------------------- both ends together

  /** The payloads carried by the frames: one `update` message each, keep-alives in between. */
  predicate Carries(frames: seq<Frame>, payloads: seq<string>)
  {
    if frames == [] then payloads == []
    else
      var last := frames[|frames| - 1];
      var init := frames[..|frames| - 1];
      match last
      case Message(name, data) =>
        payloads != [] && name == "update" && data == [payloads[|payloads| - 1]]
        && Carries(init, payloads[..|payloads| - 1])
      case KeepAlive(comments) =>
        comments != [] && (forall i :: 0 <= i < |comments| ==> OneLine(comments[i])) && Carries(init, payloads)
  }

  function Updates(payloads: seq<string>): seq<Event>
  {
    if payloads == [] then [] else Updates(payloads[..|payloads| - 1]) + [Event("update", payloads[|payloads| - 1])]
  }

  /** A payload that survives printing as one data line; rendered JSON is always one. */
  predicate Clean(payload: string)
  {
    OneLine(payload) && JsTrim(payload) == payload
  }

  lemma UpdateDelivered(payload: string)
    requires Clean(payload)
    ensures Printable(Message("update", [payload]))
    ensures Delivered(Message("update", [payload])) == [Event("update", payload)]
  {
    UpdateIsTrimmed();
    assert OneLine("update");
    DeliveredUnchanged("update", [payload]);
    assert Join([payload]) == payload;
  }

  lemma UpdateIsTrimmed()
    ensures JsTrim("update") == "update"
  {
    TrimIdentity("update", IsJsSpace);
  }

  lemma {:induction false} CarriedFrames(frames: seq<Frame>, payloads: seq<string>)
    requires Carries(frames, payloads)
    requires forall i :: 0 <= i < |payloads| ==> Clean(payloads[i])
    ensures forall i :: 0 <= i < |frames| ==> Printable(frames[i])
    ensures AllDelivered(frames) == Updates(payloads)
    decreases |frames|
  {
    if frames != [] {
      var last := frames[|frames| - 1];
      var init := frames[..|frames| - 1];
      assert forall i :: 0 <= i < |init| ==> frames[i] == init[i];
      match last
      case Message(name, data) =>
        CarriedFrames(init, payloads[..|payloads| - 1]);
        UpdateDelivered(payloads[|payloads| - 1]);
      case KeepAlive(comments) =>
        CarriedFrames(init, payloads);
        assert Printable(last);
        assert AllDelivered(init) + [] == AllDelivered(init);
    }
  }

  /** From the polled job to the page: whatever keep-alives are mixed in and however the bytes
      are chunked, the page receives one `update` per change of the rendered job. */
  lemma PageSeesTheChanges(polls: seq<Poll>, frames: seq<Frame>, chunks: seq<string>)
    requires Carries(frames, Emitted(None, polls))
    requires forall i :: 0 <= i < |polls| && polls[i].Readable? ==> Clean(polls[i].payload)
    requires Flatten(chunks) == Print(frames)
    ensures Outputs("", chunks) == Parsed(Updates(Expected(None, polls)), "")
  {
    EmitsTheChanges(None, polls);
    EmittedClean(polls);
    CarriedFrames(frames, Emitted(None, polls));
    RoundTrip(frames, chunks);
  }

  lemma EmittedClean(polls: seq<Poll>)
    requires forall i :: 0 <= i < |polls| && polls[i].Readable? ==> Clean(polls[i].payload)
    ensures forall i :: 0 <= i < |Emitted(None, polls)| ==> Clean(Emitted(None, polls)[i])
  {
    EmittedArePolled(None, polls);
    forall p | Polled(p, polls) ensures Clean(p) {
    }
  }

  predicate Polled(payload: string, polls: seq<Poll>)
  {
    exists j :: 0 <= j < |polls| && polls[j].Readable? && polls[j].payload == payload
  }

  lemma {:induction false} EmittedArePolled(last: Option<string>, polls: seq<Poll>)
    ensures forall p :: p in Emitted(last, polls) ==> Polled(p, polls)
    decreases |polls|
  {
    match PullFrom(last, polls)
    case Emit(payload, used) =>
      var rest := polls[used..];
      EmittedArePolled(Some(payload), rest);
      assert Polled(payload, polls) by { assert polls[used - 1].payload == payload; }
      forall p | Polled(p, rest) ensures Polled(p, polls) {
        var j :| 0 <= j < |rest| && rest[j].Readable? && rest[j].payload == p;
        assert polls[used + j] == rest[j];
      }
    case End => assert Emitted(last, polls) == [];
    case Waiting => assert Emitted(last, polls) == [];
  }
}
