/**
 From a turn's queue to the page's handlers: `event_stream` and `sse_event` in
 apps/api/chat_service.py, any split of the bytes by the network, and the
 reader of apps/web/lib/chatApi.ts.
 */
module Wire {
  import opened Wrappers
  import opened Events
  import opened Json
  import opened Sse
  import Decimals
  import JsText
  import Turns

  datatype Frame = KeepAlive | Data(value: Value) | DoneFrame

  /** A frame without the blank line that ends it. */
  function Block(f: Frame): string {
    match f
    case KeepAlive => ": keepalive"
    case Data(v) => "data: " + Print(v)
    case DoneFrame => "data: [DONE]"
  }

  const END := "\n\n"

  function WireText(frames: seq<Frame>): string {
    if frames == [] then "" else Block(frames[0]) + END + WireText(frames[1..])
  }

  function Blocks(frames: seq<Frame>): seq<string> {
    seq(|frames|, k requires 0 <= k < |frames| => Block(frames[k]))
  }

  function SourceValue(s: Source): Value {
    Obj([Field("document_id", Str(s.documentId)), Field("filename", Str(s.filename)),
         Field("chunk_idx", Num(Decimals.Decimal(s.chunkIdx))), Field("excerpt", Str(s.excerpt)),
         Field("distance", Num(s.distance))])
  }

  function SourceValues(batch: seq<Source>): seq<Value> {
    seq(|batch|, k requires 0 <= k < |batch| => SourceValue(batch[k]))
  }

  function EventValue(e: Event): Value {
    match e
    case Content(text) => Obj([Field("content", Str(text))])
    case Retract(text) => Obj([Field("retract", Str(text))])
    case Status(text) => Obj([Field("status", Str(text))])
    case Sources(batch) => Obj([Field("sources", Arr(SourceValues(batch)))])
  }

  function ItemFrame(i: Turns.Item): Frame {
    match i
    case Ev(e) => Data(EventValue(e))
    case End(Done) => DoneFrame
    case End(Failed) => Data(Obj([Field("error", Str("reply_failed"))]))
  }

  function Prelude(conversationId: string): Frame {
    Data(Obj([Field("conversation_id", Str(conversationId))]))
  }

  function ItemFrames(items: seq<Turns.Item>): seq<Frame> {
    seq(|items|, k requires 0 <= k < |items| => ItemFrame(items[k]))
  }

  function WithoutKeepAlives(frames: seq<Frame>): seq<Frame> {
    if frames == [] then []
    else
      var init, f := WithoutKeepAlives(frames[..|frames| - 1]), frames[|frames| - 1];
      if f.KeepAlive? then init else init + [f]
  }

  /** The items a sequence of waits brought; a wait that timed out brought none. */
  function Brought(waits: seq<Option<Turns.Item>>): seq<Turns.Item> {
    if waits == [] then []
    else
      var init, w := Brought(waits[..|waits| - 1]), waits[|waits| - 1];
      if w.Some? then init + [w.value] else init
  }

  /** `event_stream` over its waits for the turn's next item, up to the terminal marker. */
  method EventStream(conversationId: string, waits: seq<Option<Turns.Item>>) returns (frames: seq<Frame>, heard: nat)
    ensures heard <= |waits|
    ensures WithoutKeepAlives(frames) == [Prelude(conversationId)] + ItemFrames(Brought(waits[..heard]))
    ensures forall k :: 0 <= k < heard - 1 ==> !(waits[k].Some? && waits[k].value.End?)
    ensures heard < |waits| ==> heard > 0 && waits[heard - 1].Some? && waits[heard - 1].value.End?
    ensures heard > 0 && waits[heard - 1].Some? ==> frames != [] && !frames[|frames| - 1].KeepAlive?
  {
    frames, heard := [Prelude(conversationId)], 0;
    assert frames[..0] == [];
    while heard < |waits|
      invariant heard <= |waits|
      invariant WithoutKeepAlives(frames) == [Prelude(conversationId)] + ItemFrames(Brought(waits[..heard]))
      invariant forall k :: 0 <= k < heard ==> !(waits[k].Some? && waits[k].value.End?)
      invariant heard > 0 && waits[heard - 1].Some? ==> frames != [] && !frames[|frames| - 1].KeepAlive?
    {
      assert waits[..heard + 1][..heard] == waits[..heard];
      var item := waits[heard];
      heard := heard + 1;
      ghost var before := frames;
      if item.None? {
        frames := frames + [KeepAlive];
        assert frames[..|frames| - 1] == before;
      } else {
        frames := frames + [ItemFrame(item.value)];
        assert frames[..|frames| - 1] == before;
        if item.value.End? {
          return;
        }
      }
    }
  }

  predicate NoBreak(s: string) {
    forall k :: 0 <= k < |s| ==> s[k] != '\n'
  }

  lemma BlockHasNoBreak(f: Frame)
    ensures NoBreak(Block(f))
  {
    if f.Data? {
      PrintIsPlain(f.value);
    }
  }

  lemma {:induction false} CutAtBreak(front: string, rest: string, sep: string)
    requires NoBreak(front) && (sep == "\n\n" || sep == "\n")
    ensures Cut(front + sep + rest, sep) == Some((front, rest))
  {
    var text := front + sep + rest;
    if front == "" {
      assert text[..|sep|] == sep && text[|sep|..] == rest;
    } else {
      assert text[..|sep|][0] == front[0];
      assert text[1..] == front[1..] + sep + rest && text[..1] + front[1..] == front;
      CutAtBreak(front[1..], rest, sep);
    }
  }

  /** At most one line break, at the end: nothing to cut at a blank line. */
  lemma {:induction false} NoCutInPart(part: string, tail: string)
    requires NoBreak(part) && (tail == "" || tail == "\n")
    ensures Cut(part + tail, "\n\n") == None
  {
    if part != "" {
      assert (part + tail)[0] == part[0] && END[0] == '\n';
      assert (part + tail)[1..] == part[1..] + tail;
      NoCutInPart(part[1..], tail);
    }
  }

  lemma {:induction false} NoCutWithoutBreak(s: string)
    requires NoBreak(s)
    ensures Cut(s, "\n") == None
  {
    if s != "" {
      assert s[..1][0] == s[0] && "\n"[0] == '\n';
      NoCutWithoutBreak(s[1..]);
    }
  }

  lemma BlocksCons(frames: seq<Frame>)
    requires frames != []
    ensures Blocks(frames) == [Block(frames[0])] + Blocks(frames[1..])
  {
  }

  /** Splitting the wire at its blank lines gives back the blocks. */
  lemma {:induction false} SplitWire(frames: seq<Frame>)
    ensures Split(WireText(frames), END) == Blocks(frames) + [""]
  {
    if frames != [] {
      SplitWire(frames[1..]);
      BlockHasNoBreak(frames[0]);
      CutAtBreak(Block(frames[0]), WireText(frames[1..]), END);
      SplitCons(WireText(frames), END, Block(frames[0]), WireText(frames[1..]));
      BlocksCons(frames);
    }
  }

  lemma TrimmedPrint(v: Value)
    requires v.Obj?
    ensures Print(v)[0] == '{' && Print(v)[|Print(v)| - 1] == '}'
    ensures JsText.Trim(" " + Print(v)) == Print(v)
  {
    var p := Print(v);
    assert (" " + p)[1..] == p && (" " + p)[0] == ' ';
    assert JsText.TrimStart(p) == p && JsText.TrimEnd(p) == p;
    assert JsText.TrimStart(" " + p) == JsText.TrimStart(p);
  }

  /** The event a frame is on the page. */
  function FrameEvent(f: Frame): StreamEvent {
    match f
    case KeepAlive => Ignore
    case DoneFrame => DoneEvent
    case Data(v) => EventOf(v).GetOr(Ignore)
  }

  /** One line that is not a `data:` line, or whose event is `e`, parses as that. */
  lemma OneLineParses(line: string)
    requires NoBreak(line)
    ensures ParseStreamEvent(line) == LineEvent(line).GetOr(Ignore)
  {
    NoCutWithoutBreak(line);
    var lines := Split(line, "\n");
    assert lines == [line];
    assert lines[1..] == [];
    assert ParseLines(lines[1..]) == Ignore;
  }

  lemma DataLine(rest: string)
    ensures LineEvent("data: " + rest) ==
            var data := JsText.Trim(" " + rest);
            if data == "" then None else if data == "[DONE]" then Some(DoneEvent)
            else match Parse(data) case None => Some(Ignore) case Some(v) => EventOf(v)
  {
    assert ("data: " + rest)[..5] == DATA && ("data: " + rest)[5..] == " " + rest;
  }

  lemma BlockParses(f: Frame)
    requires f.Data? ==> f.value.Obj?
    ensures ParseStreamEvent(Block(f)) == FrameEvent(f)
  {
    BlockHasNoBreak(f);
    OneLineParses(Block(f));
    match f
    case KeepAlive => assert Block(f)[0] == ':' && DATA[0] == 'd';
    case DoneFrame =>
      assert "data: " + "[DONE]" == Block(f);
      DataLine("[DONE]");
      assert JsText.TrimEnd("[DONE]") == "[DONE]" && JsText.TrimStart("[DONE]") == "[DONE]";
      assert (" " + "[DONE]")[1..] == "[DONE]";
    case Data(v) =>
      DataLine(Print(v));
      TrimmedPrint(v);
      PrintedParses(v);
  }

  predicate Proper(f: Frame) {
    f.Data? ==> f.value.Obj?
  }

  /** A frame that does not end the reply. */
  predicate Passing(f: Frame) {
    Proper(f) && !FrameEvent(f).DoneEvent? && !FrameEvent(f).ErrorCode?
  }

  predicate Body(frames: seq<Frame>) {
    forall k :: 0 <= k < |frames| ==> Passing(frames[k])
  }

  /** What the handlers see of frames that do not end the reply. */
  function Seen(frames: seq<Frame>): seq<StreamEvent> {
    if frames == [] then []
    else
      var init, e := Seen(frames[..|frames| - 1]), FrameEvent(frames[|frames| - 1]);
      if e.Ignore? then init else init + [e]
  }

  lemma {:induction false} BodyDelivers(frames: seq<Frame>)
    requires Body(frames)
    ensures Deliver(Blocks(frames)) == Read(Seen(frames), None)
  {
    if frames != [] {
      var n := |frames| - 1;
      BodyDelivers(frames[..n]);
      BlockParses(frames[n]);
      assert Blocks(frames)[..n] == Blocks(frames[..n]);
    }
  }

  /** Keepalive comments change nothing the handlers see. */
  lemma {:induction false} KeepAlivesAreSilent(frames: seq<Frame>)
    ensures Seen(frames) == Seen(WithoutKeepAlives(frames))
    ensures Body(frames) <==> Body(WithoutKeepAlives(frames))
  {
    if frames != [] {
      var n := |frames| - 1;
      KeepAlivesAreSilent(frames[..n]);
      var kept := WithoutKeepAlives(frames[..n]);
      assert (kept + [frames[n]])[..|kept|] == kept;
      assert frames == frames[..n] + [frames[n]];
    }
  }

  /** A whole reply: frames that pass, then the one that ends it. */
  ghost predicate Ended(frames: seq<Frame>) {
    && frames != [] && Body(frames[..|frames| - 1])
    && Proper(frames[|frames| - 1])
    && (FrameEvent(frames[|frames| - 1]).DoneEvent? || FrameEvent(frames[|frames| - 1]).ErrorCode?)
  }

  function EndOutcome(f: Frame): Outcome {
    match FrameEvent(f)
    case DoneEvent => Replied
    case ErrorCode(code) => ReplyFailed(code)
    case _ => ConnectionLost
  }

  lemma EndedDelivers(frames: seq<Frame>)
    requires Ended(frames)
    ensures Deliver(Blocks(frames)) == Read(Seen(frames[..|frames| - 1]), Some(EndOutcome(frames[|frames| - 1])))
  {
    var n := |frames| - 1;
    assert Blocks(frames)[..n] == Blocks(frames[..n]);
    BodyDelivers(frames[..n]);
    BlockParses(frames[n]);
  }

  /** The reader sees every event of a whole reply, and its end, however the network split it. */
  lemma WholeReplyArrives(frames: seq<Frame>, rejected: bool)
    requires Ended(frames)
    ensures ReadOnce(WireText(frames), rejected) ==
            (Seen(frames[..|frames| - 1]), EndOutcome(frames[|frames| - 1]))
  {
    var parts := Split(WireText(frames), END);
    assert Init(parts) == Blocks(frames) by { SplitWire(frames); }
    EndedDelivers(frames);
  }

  lemma WireTextMore(f: Frame, frames: seq<Frame>, m: nat)
    requires m <= |frames|
    ensures WireText(([f] + frames)[..m + 1]) == Block(f) + END + WireText(frames[..m])
  {
    assert ([f] + frames)[..m + 1] == [f] + frames[..m];
  }

  lemma CutIn(text: string, a: string, b: string)
    requires text < a + b
    ensures |text| < |a| ==> text < a
    ensures |text| >= |a| ==> text == a + text[|a|..] && text[|a|..] < b
  {
    assert text == (a + b)[..|text|];
    if |text| < |a| {
      assert (a + b)[..|text|] == a[..|text|];
    } else {
      assert (a + b)[..|text|] == a + b[..|text| - |a|];
    }
  }

  /** Where a cut falls: after `m` whole frames and `part` of the next one. */
  lemma {:induction false} WhereCut(frames: seq<Frame>, text: string) returns (m: nat, part: string)
    requires text < WireText(frames)
    ensures m < |frames| && text == WireText(frames[..m]) + part && part < Block(frames[m]) + END
  {
    var first := Block(frames[0]) + END;
    CutIn(text, first, WireText(frames[1..]));
    if |text| < |first| {
      m, part := 0, text;
      assert frames[..m] == [];
    } else {
      m, part := WhereCut(frames[1..], text[|first|..]);
      WireTextMore(frames[0], frames[1..], m);
      assert [frames[0]] + frames[1..] == frames && frames[1..][m] == frames[m + 1];
      Reassociate(first, WireText(frames[1..][..m]), part);
      m := m + 1;
    }
  }

  lemma {:induction false} TrimEndIsPrefix(s: string) returns (n: nat)
    ensures n <= |s| && JsText.TrimEnd(s) == s[..n]
  {
    if s != "" && JsText.IsSpace(s[|s| - 1]) {
      n := TrimEndIsPrefix(s[..|s| - 1]);
      assert s[..|s| - 1][..n] == s[..n];
    } else {
      n := |s|;
      assert s[..n] == s;
    }
  }

  /** The beginning of a printed object never parses as an event. */
  lemma CutObjectIsIgnored(v: Value, cut: nat)
    requires v.Obj? && cut < |Print(v)|
    ensures var e := LineEvent("data: " + Print(v)[..cut]); e == None || e == Some(Ignore)
  {
    var s := Print(v)[..cut];
    DataLine(s);
    assert (" " + s)[1..] == s && (" " + s)[0] == ' ';
    assert s != "" ==> s[0] == Print(v)[0];
    TrimmedPrint(v);
    assert JsText.TrimStart(" " + s) == s;
    var n := TrimEndIsPrefix(s);
    assert s[..n] == Print(v)[..n];
    NoValueInsideAnother(v, n);
  }

  lemma OnlyObjectsAreErrors(data: string)
    requires data != "" && data[0] != '{'
    ensures Parse(data).Some? ==> EventOf(Parse(data).value) == None
  {
  }

  /** A line that is not whole `data: ` yet says nothing. */
  lemma ShortLine(line: string)
    requires line <= "data: " && |line| < 6
    ensures LineEvent(line) == None
  {
    if |line| == 5 {
      assert line[5..] == "" && JsText.Trim("") == "";
    }
  }

  /** The beginning of a frame's block is never an error of its own. */
  lemma CutBlockIsNoError(f: Frame, cut: nat)
    requires Proper(f) && cut < |Block(f)|
    ensures !ParseStreamEvent(Block(f)[..cut]).ErrorCode?
  {
    var part := Block(f)[..cut];
    assert NoBreak(part) by { BlockHasNoBreak(f); }
    OneLineParses(part);
    if f.KeepAlive? {
      assert part != "" ==> part[0] == ':';
    } else if cut < 6 {
      ShortLine(part);
    } else {
      CutData(f, cut);
    }
  }

  lemma CutData(f: Frame, cut: nat)
    requires Proper(f) && !f.KeepAlive? && 6 <= cut < |Block(f)|
    ensures !LineEvent(Block(f)[..cut]).GetOr(Ignore).ErrorCode?
  {
    var rest := if f.Data? then Print(f.value) else "[DONE]";
    assert Block(f) == "data: " + rest;
    assert Block(f)[..cut] == "data: " + rest[..cut - 6];
    if f.Data? {
      CutObjectIsIgnored(f.value, cut - 6);
    } else {
      CutDoneIsNoError(rest[..cut - 6]);
    }
  }

  lemma CutDoneIsNoError(data: string)
    requires data < "[DONE]"
    ensures !LineEvent("data: " + data).GetOr(Ignore).ErrorCode?
  {
    DataLine(data);
    assert (" " + data)[1..] == data && (" " + data)[0] == ' ';
    if data != "" {
      assert data[|data| - 1] == "[DONE]"[|data| - 1];
      assert JsText.TrimStart(" " + data) == data && JsText.TrimEnd(data) == data;
      OnlyObjectsAreErrors(data);
    }
  }

  lemma BreakAddsNothing(line: string)
    requires NoBreak(line)
    ensures ParseStreamEvent(line + "\n") == ParseStreamEvent(line)
  {
    OneLineParses(line);
    CutAtBreak(line, "", "\n");
    assert line + "\n" + "" == line + "\n";
    var lines := Split(line + "\n", "\n");
    assert Split("", "\n") == [""];
    assert lines == [line] + [""];
    assert lines[1..] == [""] && lines[1..][1..] == [];
    assert LineEvent("") == None && ParseLines(lines[1..]) == Ignore;
  }

  /** What is left of a cut frame: one block still open, which is an error only when the whole error frame is there. */
  lemma PartParses(f: Frame, part: string)
    requires Proper(f) && part < Block(f) + END
    ensures Split(part, END) == [part]
    ensures ParseStreamEvent(part).ErrorCode? <==> FrameEvent(f).ErrorCode? && Block(f) <= part
    ensures ParseStreamEvent(part).ErrorCode? ==> ParseStreamEvent(part) == FrameEvent(f)
  {
    BlockHasNoBreak(f);
    BlockParses(f);
    CutIn(part, Block(f), END);
    if |part| < |Block(f)| {
      assert part == Block(f)[..|part|] && part + "" == part;
      NoCutInPart(part, "");
      CutBlockIsNoError(f, |part|);
    } else if part == Block(f) {
      NoCutInPart(part, "");
      assert part + "" == part;
    } else {
      assert part == Block(f) + "\n";
      NoCutInPart(Block(f), "\n");
      BreakAddsNothing(Block(f));
    }
  }

  /** Splitting a cut reply: the whole blocks, and what is left. */
  lemma SplitCut(frames: seq<Frame>, part: string)
    requires Split(part, END) == [part]
    ensures Split(WireText(frames) + part, END) == Blocks(frames) + [part]
  {
    SplitWire(frames);
    SplitAppend(WireText(frames), part, END);
    assert Init(Blocks(frames) + [""]) == Blocks(frames) && "" + part == part;
  }

  lemma {:induction false} SeenPrefix(frames: seq<Frame>, m: nat)
    requires m <= |frames|
    ensures Seen(frames[..m]) <= Seen(frames)
  {
    if m == |frames| {
      assert frames[..m] == frames;
    } else {
      SeenPrefix(frames[..|frames| - 1], m);
      assert frames[..|frames| - 1][..m] == frames[..m];
    }
  }

  lemma CutReads(frames: seq<Frame>, next: Frame, part: string, rejected: bool)
    requires Body(frames) && Proper(next) && part < Block(next) + END
    ensures ReadOnce(WireText(frames) + part, rejected) ==
            (Seen(frames), if !rejected && FrameEvent(next).ErrorCode? && Block(next) <= part then EndOutcome(next)
                           else ConnectionLost)
  {
    PartParses(next, part);
    SplitCut(frames, part);
    assert Init(Blocks(frames) + [part]) == Blocks(frames);
    BodyDelivers(frames);
  }

  lemma PrefixAfter(a: string, b: string, part: string)
    ensures a + b <= a + part <==> b <= part
  {
    if a + b <= a + part {
      forall k | 0 <= k < |b| ensures part[k] == b[k] {
        assert (a + part)[|a| + k] == (a + b)[|a| + k];
      }
    }
    if b <= part {
      assert part == b + part[|b|..];
      assert a + part == (a + b) + part[|b|..];
    }
  }

  /**
   A reply cut anywhere before its end: the handlers saw a prefix of the
   events, and it is never taken for a whole one. It is a lost connection,
   except that an error frame counts as soon as all of it but its blank line
   has arrived.
   */
  lemma CutReplyIsLost(frames: seq<Frame>, text: string, rejected: bool)
    requires Ended(frames) && text < WireText(frames)
    ensures var body, last := frames[..|frames| - 1], frames[|frames| - 1];
            var r := ReadOnce(text, rejected);
            && r.0 <= Seen(body)
            && r.1 == if !rejected && FrameEvent(last).ErrorCode? && WireText(body) + Block(last) <= text
                      then EndOutcome(last) else ConnectionLost
  {
    var m, part := WhereCut(frames, text);
    if m == |frames| - 1 {
      CutInLast(frames, part, rejected);
    } else {
      CutInBodyIsLost(frames, m, part, rejected);
    }
  }

  lemma CutInLast(frames: seq<Frame>, part: string, rejected: bool)
    requires Ended(frames) && part < Block(frames[|frames| - 1]) + END
    ensures var body, last := frames[..|frames| - 1], frames[|frames| - 1];
            var r := ReadOnce(WireText(body) + part, rejected);
            && r.0 == Seen(body)
            && r.1 == if !rejected && FrameEvent(last).ErrorCode?
                         && WireText(body) + Block(last) <= WireText(body) + part
                      then EndOutcome(last) else ConnectionLost
  {
    var n := |frames| - 1;
    CutReads(frames[..n], frames[n], part, rejected);
    PrefixAfter(WireText(frames[..n]), Block(frames[n]), part);
  }

  lemma CutInBodyIsLost(frames: seq<Frame>, m: nat, part: string, rejected: bool)
    requires Ended(frames) && m + 1 < |frames| && part < Block(frames[m]) + END
    ensures var r := ReadOnce(WireText(frames[..m]) + part, rejected);
            r.0 <= Seen(frames[..|frames| - 1]) && r.1 == ConnectionLost
    ensures |WireText(frames[..m]) + part| < |WireText(frames[..|frames| - 1])|
  {
    var body := frames[..|frames| - 1];
    assert body[..m] == frames[..m] && body[m] == frames[m];
    CutReads(body[..m], body[m], part, rejected);
    SeenPrefix(body, m);
    CutIsBefore(frames, m, part);
  }

  /** A cut inside an earlier frame leaves out the end of the last one. */
  lemma {:induction false} CutIsBefore(frames: seq<Frame>, m: nat, part: string)
    requires m + 1 < |frames| && part < Block(frames[m]) + END
    ensures |WireText(frames[..m]) + part| < |WireText(frames[..|frames| - 1])|
  {
    if m == 0 {
      assert frames[..0] == [] && frames[..|frames| - 1][0] == frames[0];
    } else {
      var rest := frames[1..];
      assert [frames[0]] + rest == frames;
      assert rest[..|rest| - 1] == rest[..|frames| - 2];
      CutIsBefore(rest, m - 1, part);
      WireTextMore(frames[0], rest, m - 1);
      WireTextMore(frames[0], rest, |frames| - 2);
    }
  }
}
