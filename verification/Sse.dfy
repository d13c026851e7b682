/**
 A reply on the wire: the server's frames (`sse_event` and `event_stream` in
 apps/api/chat_service.py) and the page's reader of them (`parseStreamEvent`
 and `readReplyStream` in apps/web/lib/chatApi.ts). The framing is the
 event-stream format of section 9.2 of the WHATWG HTML Living Standard.
 */
module Sse {
  import opened Wrappers
  import opened Json
  import JsText

  datatype StreamEvent =
    | Conversation(id: string)
    | ErrorCode(code: string)
    | Chunk(content: string)
    | Note(status: string)
    | SourceList(sources: seq<Value>)
    | Withdraw(text: string)
    | DoneEvent
    | Ignore

  /** How reading a reply ended. */
  datatype Outcome = Replied | ReplyFailed(code: string) | ConnectionLost

  /** The text before the first `sep` and the text after it. */
  function Cut(text: string, sep: string): (cut: Option<(string, string)>)
    requires sep != ""
    ensures cut.Some? ==> |cut.value.1| < |text| && text == cut.value.0 + sep + cut.value.1
  {
    if |text| < |sep| then None
    else if text[..|sep|] == sep then Some(("", text[|sep|..]))
    else
      match Cut(text[1..], sep)
      case None => None
      case Some((front, rest)) => Some((text[..1] + front, rest))
  }

  /** `text.split(sep)` for the two separators the reader uses. */
  function Split(text: string, sep: string): (parts: seq<string>)
    requires sep != ""
    ensures parts != []
    decreases |text|
  {
    match Cut(text, sep)
    case None => [text]
    case Some((front, rest)) => [front] + Split(rest, sep)
  }

  function Init(parts: seq<string>): seq<string>
    requires parts != []
  {
    parts[..|parts| - 1]
  }

  function Last(parts: seq<string>): string
    requires parts != []
  {
    parts[|parts| - 1]
  }

  function FieldOf(v: Value, name: string): Option<Value> {
    if v.Obj? then Lookup(v.fields, name) else None
  }

  /** The last field of a name, as a parsed object holds it. */
  function Lookup(fields: seq<Field>, name: string): Option<Value> {
    if fields == [] then None
    else if fields[|fields| - 1].name == name then Some(fields[|fields| - 1].value)
    else Lookup(fields[..|fields| - 1], name)
  }

  predicate HasText(v: Value, name: string) {
    FieldOf(v, name).Some? && FieldOf(v, name).value.Str?
  }

  function TextOf(v: Value, name: string): string
    requires HasText(v, name)
  {
    FieldOf(v, name).value.text
  }

  predicate HasNumber(v: Value, name: string) {
    FieldOf(v, name).Some? && FieldOf(v, name).value.Num?
  }

  predicate IsSource(v: Value) {
    HasText(v, "document_id") && HasText(v, "filename") && HasNumber(v, "chunk_idx") && HasText(v, "excerpt")
    && HasNumber(v, "distance")
  }

  function SourcesIn(items: seq<Value>): seq<Value> {
    if items == [] then []
    else
      var init, v := SourcesIn(items[..|items| - 1]), items[|items| - 1];
      if IsSource(v) then init + [v] else init
  }

  /** The event a parsed frame is, or None when the line says nothing and the next one is read. */
  function EventOf(v: Value): Option<StreamEvent> {
    if HasText(v, "error") then Some(ErrorCode(TextOf(v, "error")))
    else if HasText(v, "conversation_id") then Some(Conversation(TextOf(v, "conversation_id")))
    else if HasText(v, "content") && TextOf(v, "content") != "" then Some(Chunk(TextOf(v, "content")))
    else if HasText(v, "retract") && TextOf(v, "retract") != "" then Some(Withdraw(TextOf(v, "retract")))
    else if HasText(v, "status") && TextOf(v, "status") != "" then Some(Note(TextOf(v, "status")))
    else
      match FieldOf(v, "sources")
      case Some(Arr(items)) => if SourcesIn(items) != [] then Some(SourceList(SourcesIn(items))) else None
      case _ => None
  }

  const DATA := "data:"

  function LineEvent(line: string): Option<StreamEvent> {
    if !(DATA <= line) then None
    else
      var data := JsText.Trim(line[5..]);
      if data == "" then None
      else if data == "[DONE]" then Some(DoneEvent)
      else
        match Parse(data)
        case None => Some(Ignore)
        case Some(v) => EventOf(v)
  }

  function ParseLines(lines: seq<string>): StreamEvent {
    if lines == [] then Ignore
    else
      match LineEvent(lines[0])
      case Some(e) => e
      case None => ParseLines(lines[1..])
  }

  function ParseStreamEvent(raw: string): StreamEvent {
    ParseLines(Split(raw, "\n"))
  }

  /** What the handlers saw, and how it ended, if it did. */
  datatype Read = Read(seen: seq<StreamEvent>, end: Option<Outcome>)

  /** What one more block adds. */
  function DeliverMore(before: Read, block: string): Read {
    if before.end.Some? then before
    else
      match ParseStreamEvent(block)
      case DoneEvent => before.(end := Some(Replied))
      case ErrorCode(code) => before.(end := Some(ReplyFailed(code)))
      case Ignore => before
      case e => before.(seen := before.seen + [e])
  }

  /** The read loop's body over whole blocks. */
  function Deliver(blocks: seq<string>): Read {
    if blocks == [] then Read([], None) else DeliverMore(Deliver(blocks[..|blocks| - 1]), blocks[|blocks| - 1])
  }

  /** Reading the whole text at once: what a stream that ends after `text` delivers. */
  function ReadOnce(text: string, rejected: bool): (seq<StreamEvent>, Outcome) {
    var parts := Split(text, "\n\n");
    var r := Deliver(Init(parts));
    match r.end
    case Some(outcome) => (r.seen, outcome)
    case None =>
      match ParseStreamEvent(Last(parts))
      case ErrorCode(code) => (r.seen, if rejected then ConnectionLost else ReplyFailed(code))
      case _ => (r.seen, ConnectionLost)
  }

  function Flatten(chunks: seq<string>): string {
    if chunks == [] then "" else Flatten(chunks[..|chunks| - 1]) + chunks[|chunks| - 1]
  }

  lemma {:induction false} CutAppend(x: string, y: string, sep: string)
    requires sep != "" && Cut(x, sep).Some?
    ensures Cut(x + y, sep) == Some((Cut(x, sep).value.0, Cut(x, sep).value.1 + y))
  {
    assert (x + y)[..|sep|] == x[..|sep|];
    if x[..|sep|] == sep {
      assert (x + y)[|sep|..] == x[|sep|..] + y;
    } else {
      assert (x + y)[..1] == x[..1] && (x + y)[1..] == x[1..] + y;
      CutAppend(x[1..], y, sep);
    }
  }

  lemma ConsParts(p: string, rest: seq<string>)
    requires rest != []
    ensures Init([p] + rest) == [p] + Init(rest) && Last([p] + rest) == Last(rest)
  {
  }

  lemma SplitCons(x: string, sep: string, front: string, rest: string)
    requires sep != "" && Cut(x, sep) == Some((front, rest))
    ensures Split(x, sep) == [front] + Split(rest, sep)
  {
  }

  lemma RegroupParts(front: string, parts: seq<string>, later: seq<string>)
    requires parts != []
    ensures [front] + (Init(parts) + later) == Init([front] + parts) + later
  {
    ConsParts(front, parts);
    assert [front] + (Init(parts) + later) == ([front] + Init(parts)) + later;
  }

  /** Text that comes later only changes the last piece of a split. */
  lemma {:induction false} SplitAppend(x: string, y: string, sep: string)
    requires sep != ""
    ensures Split(x + y, sep) == Init(Split(x, sep)) + Split(Last(Split(x, sep)) + y, sep)
    decreases |x|
  {
    if Cut(x, sep).Some? {
      var (front, rest) := Cut(x, sep).value;
      SplitAppend(rest, y, sep);
      CutAppend(x, y, sep);
      SplitCons(x, sep, front, rest);
      SplitCons(x + y, sep, front, rest + y);
      ConsParts(front, Split(rest, sep));
      RegroupParts(front, Split(rest, sep), Split(Last(Split(rest, sep)) + y, sep));
    }
  }

  lemma {:induction false} DeliverAppend(a: seq<string>, b: seq<string>)
    ensures Deliver(a + b) == if Deliver(a).end.Some? then Deliver(a)
                              else Read(Deliver(a).seen + Deliver(b).seen, Deliver(b).end)
  {
    if b == [] {
      assert a + b == a;
    } else {
      assert (a + b)[..|a + b| - 1] == a + b[..|b| - 1];
      DeliverAppend(a, b[..|b| - 1]);
    }
  }

  lemma EndsAt(events: seq<string>, k: nat)
    requires k < |events| && Deliver(events[..k + 1]).end.Some?
    ensures Deliver(events) == Deliver(events[..k + 1])
  {
    DeliverAppend(events[..k + 1], events[k + 1..]);
    assert events[..k + 1] + events[k + 1..] == events;
  }

  /** The inner loop: whole blocks, after `seen`. */
  method HandleEvents(events: seq<string>, before: seq<StreamEvent>)
    returns (seen: seq<StreamEvent>, end: Option<Outcome>)
    ensures seen == before + Deliver(events).seen && end == Deliver(events).end
  {
    seen := before;
    for k := 0 to |events|
      invariant seen == before + Deliver(events[..k]).seen && Deliver(events[..k]).end == None
    {
      assert events[..k + 1][..k] == events[..k];
      var parsed := ParseStreamEvent(events[k]);
      if parsed.DoneEvent? || parsed.ErrorCode? {
        EndsAt(events, k);
        return seen, Some(if parsed.DoneEvent? then Replied else ReplyFailed(parsed.code));
      }
      if !parsed.Ignore? {
        seen := seen + [parsed];
      }
    }
    assert events[..|events|] == events;
    end := None;
  }

  /** `readReplyStream`'s loop over the network's chunks; `rejected` says the last read failed instead of ending. */
  method ReadReplyStream(chunks: seq<string>, rejected: bool) returns (seen: seq<StreamEvent>, outcome: Outcome)
    ensures (seen, outcome) == ReadOnce(Flatten(chunks), rejected)
  {
    var buffer := "";
    seen := [];
    ghost var parts := [""];
    assert Split("", "\n\n") == [""];
    for n := 0 to |chunks|
      invariant parts == Split(Flatten(chunks[..n]), "\n\n")
      invariant buffer == Last(parts) && Deliver(Init(parts)) == Read(seen, None)
    {
      NextChunk(chunks, n);
      var events := Split(buffer + chunks[n], "\n\n");
      buffer := events[|events| - 1];
      DeliverAppend(Init(parts), Init(events));
      parts := Init(parts) + events;
      var end;
      seen, end := HandleEvents(events[..|events| - 1], seen);
      if end.Some? {
        FinishedEarly(rejected, chunks, n + 1);
        return seen, end.value;
      }
    }
    assert chunks[..|chunks|] == chunks;
    var tail := ParseStreamEvent(buffer);
    outcome := if tail.ErrorCode? && !rejected then ReplyFailed(tail.code) else ConnectionLost;
  }

  lemma NextChunk(chunks: seq<string>, n: nat)
    requires n < |chunks|
    ensures var parts := Split(Flatten(chunks[..n]), "\n\n");
            var events := Split(Last(parts) + chunks[n], "\n\n");
            && Split(Flatten(chunks[..n + 1]), "\n\n") == Init(parts) + events
            && Init(Init(parts) + events) == Init(parts) + Init(events)
            && Last(Init(parts) + events) == Last(events)
  {
    assert chunks[..n + 1][..n] == chunks[..n];
    SplitAppend(Flatten(chunks[..n]), chunks[n], "\n\n");
  }

  /** A reply that ended inside the first `n` chunks ends the same whatever comes later. */
  lemma {:induction false} FinishedEarly(rejected: bool, chunks: seq<string>, n: nat)
    requires n <= |chunks| && Deliver(Init(Split(Flatten(chunks[..n]), "\n\n"))).end.Some?
    ensures var r := Deliver(Init(Split(Flatten(chunks[..n]), "\n\n")));
            ReadOnce(Flatten(chunks), rejected) == (r.seen, r.end.value)
    decreases |chunks| - n
  {
    if n == |chunks| {
      assert chunks[..n] == chunks;
    } else {
      var parts := Split(Flatten(chunks[..n]), "\n\n");
      NextChunk(chunks, n);
      DeliverAppend(Init(parts), Init(Split(Last(parts) + chunks[n], "\n\n")));
      FinishedEarly(rejected, chunks, n + 1);
    }
  }
}
