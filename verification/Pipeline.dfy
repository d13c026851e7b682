/**
 The whole way of a reply: what the harness emits, what its turn stores, what
 the wire carries and what the page shows are one thing.
 */
module Pipeline {
  import opened Wrappers
  import opened Events
  import opened Json
  import opened Sse
  import opened Wire
  import opened Folds
  import Decimals
  import Conversations
  import Harness
  import ReplyRuns
  import Turns

  /** The page's source of a checked value; a chunk index is a printed natural number. */
  function ToSource(v: Value): Source
    requires IsSource(v)
  {
    var idx := FieldOf(v, "chunk_idx").value.numeral;
    Source(TextOf(v, "document_id"), TextOf(v, "filename"),
           if Digits(idx) then Decimals.Undecimal(idx) else 0,
           TextOf(v, "excerpt"), FieldOf(v, "distance").value.numeral)
  }

  function ToSources(items: seq<Value>): seq<Source> {
    if items == [] then []
    else
      var init, v := ToSources(items[..|items| - 1]), items[|items| - 1];
      if IsSource(v) then init + [ToSource(v)] else init
  }

  /** The handler call a stream event is. */
  function HandlerEvent(e: StreamEvent): Option<Event> {
    match e
    case Chunk(content) => Some(Content(content))
    case Withdraw(text) => Some(Retract(text))
    case Note(status) => Some(Status(status))
    case SourceList(items) => Some(Sources(ToSources(items)))
    case _ => None
  }

  /** What the page has folded after its handlers saw `seen`. */
  function PageFold(r: Reply, seen: seq<StreamEvent>): Reply {
    if seen == [] then r
    else
      var before := PageFold(r, seen[..|seen| - 1]);
      match HandlerEvent(seen[|seen| - 1])
      case None => before
      case Some(e) => FoldEvent(before, e)
  }

  /** The last field of a name is the one found. */
  lemma {:induction false} LookupFinds(fields: seq<Field>, k: nat)
    requires k < |fields| && forall j :: k < j < |fields| ==> fields[j].name != fields[k].name
    ensures Lookup(fields, fields[k].name) == Some(fields[k].value)
  {
    if k < |fields| - 1 {
      LookupFinds(fields[..|fields| - 1], k);
    }
  }

  lemma SourceArrives(s: Source)
    ensures IsSource(SourceValue(s)) && ToSource(SourceValue(s)) == s
  {
    var f := SourceValue(s).fields;
    assert |f[0].name| == 11 && |f[1].name| == 8 && |f[2].name| == 9 && |f[3].name| == 7;
    assert f[4].name[0] != f[1].name[0];
    LookupFinds(f, 0);
    LookupFinds(f, 1);
    LookupFinds(f, 2);
    LookupFinds(f, 3);
    LookupFinds(f, 4);
    Decimals.DecimalReadsBack(s.chunkIdx);
  }

  lemma {:induction false} BatchArrives(batch: seq<Source>)
    ensures SourcesIn(SourceValues(batch)) == SourceValues(batch)
    ensures ToSources(SourceValues(batch)) == batch
  {
    if batch != [] {
      var n := |batch| - 1;
      BatchArrives(batch[..n]);
      SourceArrives(batch[n]);
      assert SourceValues(batch)[..n] == SourceValues(batch[..n]);
    }
  }

  lemma OneField(name: string, v: Value, other: string)
    ensures FieldOf(Obj([Field(name, v)]), other) == if other == name then Some(v) else None
  {
    var fields := [Field(name, v)];
    assert fields[..|fields| - 1] == [] && Lookup([], other) == None;
  }

  /** An object of one field has none of the names before it in the reader's order. */
  lemma OnlyField(name: string, v: Value)
    ensures forall other: string {:trigger HasText(Obj([Field(name, v)]), other)} ::
              HasText(Obj([Field(name, v)]), other) <==> other == name && v.Str?
    ensures v.Str? ==> TextOf(Obj([Field(name, v)]), name) == v.text
    ensures FieldOf(Obj([Field(name, v)]), "sources") == if name == "sources" then Some(v) else None
  {
    forall other: string ensures FieldOf(Obj([Field(name, v)]), other) == if other == name then Some(v) else None {
      OneField(name, v, other);
    }
  }

  predicate Arrives(r: Reply, e: Event) {
    var f := Data(EventValue(e));
    Passing(f) && if FrameEvent(f).Ignore? then FoldEvent(r, e) == r else HandlerEvent(FrameEvent(f)) == Some(e)
  }

  lemma NamesDiffer()
    ensures "content" != "error" && "content" != "conversation_id"
    ensures "retract" != "error" && "retract" != "conversation_id" && "retract" != "content"
    ensures "status" != "error" && "status" != "conversation_id" && "status" != "content" && "status" != "retract"
    ensures "sources" != "content" && "sources" != "retract" && "sources" != "status"
  {
    assert "content"[0] == 'c' && "content"[1] == 'o' && "content"[3] == 't' && "conversation_id"[3] == 'v';
    assert "retract"[0] == 'r' && "error"[0] == 'e' && "status"[0] == 's' && "conversation_id"[0] == 'c';
  }

  lemma TextArrives(r: Reply, e: Event)
    requires !e.Sources?
    ensures Arrives(r, e)
  {
    NamesDiffer();
    match e
    case Content(text) =>
      OnlyField("content", Str(text));
      assert r.text + "" == r.text;
    case Retract(text) => OnlyField("retract", Str(text));
    case Status(text) => OnlyField("status", Str(text));
  }

  lemma SourcesArrive(r: Reply, batch: seq<Source>)
    ensures Arrives(r, Sources(batch))
  {
    OnlyField("sources", Arr(SourceValues(batch)));
    BatchArrives(batch);
  }

  /** An event's frame is the same event on the page, or, when it is empty, no event and no change. */
  lemma EventArrives(r: Reply, e: Event)
    ensures Arrives(r, e)
  {
    if e.Sources? {
      SourcesArrive(r, e.batch);
    } else {
      TextArrives(r, e);
    }
  }

  function EventFrames(events: seq<Event>): seq<Frame> {
    ItemFrames(Turns.Items(events))
  }

  lemma FramesMore(before: seq<Event>, e: Event, f: Frame)
    requires f == ItemFrame(Turns.Ev(e))
    ensures EventFrames(before + [e]) == EventFrames(before) + [f]
  {
    assert Turns.Items(before + [e]) == Turns.Items(before) + [Turns.Ev(e)];
  }

  lemma BodyMore(frames: seq<Frame>, f: Frame)
    requires Body(frames) && Passing(f)
    ensures Body(frames + [f])
  {
  }

  lemma SeenMore(frames: seq<Frame>, f: Frame, seen: StreamEvent)
    requires seen == FrameEvent(f)
    ensures Seen(frames + [f]) == if seen.Ignore? then Seen(frames) else Seen(frames) + [seen]
  {
    assert (frames + [f])[..|frames|] == frames;
  }

  lemma PageFoldMore(r: Reply, seen: seq<StreamEvent>, e: StreamEvent)
    requires HandlerEvent(e).Some?
    ensures PageFold(r, seen + [e]) == FoldEvent(PageFold(r, seen), HandlerEvent(e).value)
  {
    assert (seen + [e])[..|seen|] == seen;
  }

  /** Folding what the page sees of some frames gives `r`. */
  predicate Shows(frames: seq<Frame>, r: Reply) {
    Body(frames) && PageFold(EMPTY, Seen(frames)) == r
  }

  /** One more frame whose event, or whose silence, means `e`. */
  lemma FrameStep(before: seq<Frame>, r: Reply, f: Frame, seen: StreamEvent, e: Event)
    requires Shows(before, r) && Passing(f) && seen == FrameEvent(f)
    requires if seen.Ignore? then FoldEvent(r, e) == r else HandlerEvent(seen) == Some(e)
    ensures Shows(before + [f], FoldEvent(r, e))
  {
    BodyMore(before, f);
    SeenMore(before, f, seen);
    if !seen.Ignore? {
      PageFoldMore(EMPTY, Seen(before), seen);
    }
  }

  lemma EventStep(before: seq<Event>, e: Event)
    requires Shows(EventFrames(before), Fold(EMPTY, before))
    ensures Shows(EventFrames(before + [e]), FoldEvent(Fold(EMPTY, before), e))
  {
    var r, f := Fold(EMPTY, before), ItemFrame(Turns.Ev(e));
    EventArrives(r, e);
    FrameStep(EventFrames(before), r, f, FrameEvent(f), e);
    FramesMore(before, e, f);
  }

  /** The page folds the frames of any events to what the server folds of the events. */
  lemma {:induction false} EventsArrive(events: seq<Event>)
    ensures Shows(ItemFrames(Turns.Items(events)), Fold(EMPTY, events))
  {
    if events != [] {
      var before, e := events[..|events| - 1], events[|events| - 1];
      EventsArrive(before);
      EventStep(before, e);
      assert before + [e] == events;
    }
  }

  lemma {:induction false} SeenAppend(a: seq<Frame>, b: seq<Frame>)
    ensures Seen(a + b) == Seen(a) + Seen(b)
  {
    if b == [] {
      assert a + b == a;
    } else {
      assert (a + b)[..|a + b| - 1] == a + b[..|b| - 1];
      SeenAppend(a, b[..|b| - 1]);
    }
  }

  lemma {:induction false} PageFoldAppend(r: Reply, a: seq<StreamEvent>, b: seq<StreamEvent>)
    ensures PageFold(r, a + b) == PageFold(PageFold(r, a), b)
  {
    if b == [] {
      assert a + b == a;
    } else {
      assert (a + b)[..|a + b| - 1] == a + b[..|b| - 1];
      PageFoldAppend(r, a, b[..|b| - 1]);
    }
  }

  lemma PreludeIsTheConversation(id: string)
    ensures Passing(Prelude(id)) && Seen([Prelude(id)]) == [Conversation(id)]
    ensures PageFold(EMPTY, [Conversation(id)]) == EMPTY
  {
    OnlyField("conversation_id", Str(id));
    assert "conversation_id"[0] == 'c' && "error"[0] == 'e';
    assert [Prelude(id)][..0] == [] && [Conversation(id)][..0] == [];
  }

  lemma MarkerFrame(m: ReplyRuns.Marker)
    ensures var f := ItemFrame(Turns.End(m));
            Proper(f) && FrameEvent(f) == if m.Done? then DoneEvent else ErrorCode("reply_failed")
  {
    OnlyField("error", Str("reply_failed"));
  }

  /** The frames of a finished turn, as `event_stream` sends them. */
  ghost predicate FramesOf(frames: seq<Frame>, conversationId: string, t: Turns.Task) {
    && frames != [] && !frames[|frames| - 1].KeepAlive?
    && WithoutKeepAlives(frames) == [Prelude(conversationId)] + ItemFrames(t.queue)
  }

  /** A listener that is brought a finished turn's queue stops at its end, and has then been brought all of it. */
  lemma ListenerHearsAll(waits: seq<Option<Turns.Item>>, events: seq<Event>, m: ReplyRuns.Marker, heard: nat)
    requires Brought(waits) == Turns.Items(events) + [Turns.End(m)]
    requires heard <= |waits| && forall k :: 0 <= k < heard - 1 ==> !(waits[k].Some? && waits[k].value.End?)
    requires heard < |waits| ==> heard > 0 && waits[heard - 1].Some? && waits[heard - 1].value.End?
    ensures Brought(waits[..heard]) == Brought(waits)
  {
    if heard < |waits| {
      var brought := Brought(waits[..heard]);
      BroughtIsBeginning(waits, heard);
      assert waits[..heard][..heard - 1] == waits[..heard - 1];
      assert brought[|brought| - 1].End?;
      assert |brought| > |events|;
    } else {
      assert waits[..heard] == waits;
    }
  }

  lemma {:induction false} BroughtIsBeginning(waits: seq<Option<Turns.Item>>, n: nat)
    requires n <= |waits|
    ensures Brought(waits[..n]) <= Brought(waits)
  {
    if n < |waits| {
      BroughtIsBeginning(waits[..|waits| - 1], n);
      assert waits[..|waits| - 1][..n] == waits[..n];
    } else {
      assert waits[..n] == waits;
    }
  }

  lemma {:induction false} NoMarkerBrought(waits: seq<Option<Turns.Item>>)
    requires forall k :: 0 <= k < |waits| ==> !(waits[k].Some? && waits[k].value.End?)
    ensures forall k :: 0 <= k < |Brought(waits)| ==> !Brought(waits)[k].End?
  {
    if waits != [] {
      NoMarkerBrought(waits[..|waits| - 1]);
    }
  }

  lemma MarkerIsHeard(waits: seq<Option<Turns.Item>>)
    requires Brought(waits) != [] && Brought(waits)[|Brought(waits)| - 1].End?
    requires forall k :: 0 <= k < |waits| - 1 ==> !(waits[k].Some? && waits[k].value.End?)
    ensures waits != [] && waits[|waits| - 1].Some?
  {
    if waits[|waits| - 1].None? {
      NoMarkerBrought(waits[..|waits| - 1]);
    }
  }

  /** `event_stream` listening to a finished turn, with any waits that time out in between, sends its frames. */
  method StreamTurn(
    conversationId: string, waits: seq<Option<Turns.Item>>, ghost events: seq<Event>, ghost t: Turns.Task)
    returns (frames: seq<Frame>)
    requires t.stage.Finished? && t.queue == Turns.QueueOf(events, t)
    requires Brought(waits) == t.queue
    ensures FramesOf(frames, conversationId, t)
  {
    var heard;
    frames, heard := EventStream(conversationId, waits);
    ListenerHearsAll(waits, events, Turns.MarkerOf(t.calls), heard);
    MarkerIsHeard(waits[..heard]);
  }

  lemma QueueFrames(head: seq<Frame>, events: seq<Event>, m: ReplyRuns.Marker)
    ensures head + ItemFrames(Turns.Items(events) + [Turns.End(m)]) ==
            head + ItemFrames(Turns.Items(events)) + [ItemFrame(Turns.End(m))]
  {
  }

  lemma BodyAndLast(frames: seq<Frame>, head: seq<Frame>, last: Frame)
    requires frames != [] && !frames[|frames| - 1].KeepAlive? && WithoutKeepAlives(frames) == head + [last]
    ensures frames[|frames| - 1] == last && WithoutKeepAlives(frames[..|frames| - 1]) == head
  {
    var kept := WithoutKeepAlives(frames[..|frames| - 1]);
    assert kept + [frames[|frames| - 1]] == head + [last];
    assert (head + [last])[|head|] == last && |kept| == |head|;
    assert kept == (kept + [frames[|frames| - 1]])[..|kept|] == (head + [last])[..|head|] == head;
  }

  /** What the prelude and the events' frames deliver together. */
  lemma HeadAndEvents(conversationId: string, events: seq<Event>)
    ensures var body := [Prelude(conversationId)] + ItemFrames(Turns.Items(events));
            Body(body) && Seen(body) == [Conversation(conversationId)] + Seen(ItemFrames(Turns.Items(events)))
  {
    EventsArrive(events);
    PreludeIsTheConversation(conversationId);
    SeenAppend([Prelude(conversationId)], ItemFrames(Turns.Items(events)));
  }

  lemma EndedFrom(frames: seq<Frame>, head: seq<Frame>, last: Frame)
    requires frames != [] && !frames[|frames| - 1].KeepAlive? && WithoutKeepAlives(frames) == head + [last]
    requires Body(head) && Proper(last) && (FrameEvent(last).DoneEvent? || FrameEvent(last).ErrorCode?)
    ensures Ended(frames) && frames[|frames| - 1] == last && Seen(frames[..|frames| - 1]) == Seen(head)
  {
    BodyAndLast(frames, head, last);
    KeepAlivesAreSilent(frames[..|frames| - 1]);
  }

  /** A finished turn's frames: keepalives anywhere, the prelude, the events, and the marker's frame last. */
  lemma FramesEnd(frames: seq<Frame>, conversationId: string, events: seq<Event>, m: ReplyRuns.Marker)
    requires frames != [] && !frames[|frames| - 1].KeepAlive?
    requires WithoutKeepAlives(frames) ==
             [Prelude(conversationId)] + ItemFrames(Turns.Items(events) + [Turns.End(m)])
    ensures Ended(frames) && frames[|frames| - 1] == ItemFrame(Turns.End(m))
    ensures Seen(frames[..|frames| - 1]) == [Conversation(conversationId)] + Seen(ItemFrames(Turns.Items(events)))
  {
    var head, last := [Prelude(conversationId)] + ItemFrames(Turns.Items(events)), ItemFrame(Turns.End(m));
    QueueFrames([Prelude(conversationId)], events, m);
    HeadAndEvents(conversationId, events);
    MarkerFrame(m);
    EndedFrom(frames, head, last);
  }

  lemma MarkerOutcome(m: ReplyRuns.Marker)
    ensures EndOutcome(ItemFrame(Turns.End(m))) == if m.Done? then Replied else ReplyFailed("reply_failed")
  {
    MarkerFrame(m);
  }

  /** What the page reads of a finished turn's frames. */
  lemma PageReads(frames: seq<Frame>, conversationId: string, events: seq<Event>, m: ReplyRuns.Marker, rejected: bool)
    requires frames != [] && !frames[|frames| - 1].KeepAlive?
    requires WithoutKeepAlives(frames) ==
             [Prelude(conversationId)] + ItemFrames(Turns.Items(events) + [Turns.End(m)])
    ensures ReadOnce(WireText(frames), rejected) ==
            ([Conversation(conversationId)] + Seen(ItemFrames(Turns.Items(events))),
             if m.Done? then Replied else ReplyFailed("reply_failed"))
  {
    FramesEnd(frames, conversationId, events, m);
    WholeReplyArrives(frames, rejected);
    MarkerOutcome(m);
  }

  lemma PageFolds(conversationId: string, events: seq<Event>)
    ensures PageFold(EMPTY, [Conversation(conversationId)] + Seen(ItemFrames(Turns.Items(events)))) ==
            Fold(EMPTY, events)
  {
    EventsArrive(events);
    PreludeIsTheConversation(conversationId);
    PageFoldAppend(EMPTY, [Conversation(conversationId)], Seen(ItemFrames(Turns.Items(events))));
  }

  /**
   However the network splits the bytes, the page folds what its handlers saw
   into exactly the reply the turn folded, and reads success exactly when the
   turn's save stored that reply under its own claim.
   */
  lemma PageShowsWhatIsStored(
    claimedAt: Conversations.Time, inputs: seq<Turns.Input>, conversationId: string, frames: seq<Frame>,
    chunks: seq<string>, rejected: bool)
    requires Turns.Life(claimedAt, inputs).stage.Finished?
    requires FramesOf(frames, conversationId, Turns.Life(claimedAt, inputs)) && Flatten(chunks) == WireText(frames)
    ensures var t := Turns.Life(claimedAt, inputs);
            var r := ReadOnce(Flatten(chunks), rejected);
            && [Conversation(conversationId)] <= r.0
            && PageFold(EMPTY, r.0) == t.reply
            && (r.1 == Replied <==> Turns.MarkerOf(t.calls).Done?)
            && (r.1 == Replied ==>
                 t.calls == [Turns.PersistReply(t.token, PageFold(EMPTY, r.0).text, PageFold(EMPTY, r.0).sources,
                                                Turns.Released)])
  {
    var t, events := Turns.Life(claimedAt, inputs), Turns.Emitted(claimedAt, inputs);
    Turns.TurnEnd(claimedAt, inputs);
    PageReads(frames, conversationId, events, Turns.MarkerOf(t.calls), rejected);
    PageFolds(conversationId, events);
  }

  /** What a turn over the harness saves is the last call's text and the first source of each key its tools found. */
  lemma SavedReplyIsTheAnswer(claimedAt: Conversations.Time, inputs: seq<Turns.Input>, script: Harness.Script)
    requires Turns.Emitted(claimedAt, inputs) == Harness.From(script, 0, false)
    requires forall k :: 0 <= k < Harness.AnswerFrom(script, 0) ==> !Harness.OnlyEmptyPieces(script[k])
    ensures var t := Turns.Life(claimedAt, inputs);
            t.stage.Finished? && t.calls != [] && t.calls[0].PersistReply? ==>
              && t.calls[0].content == Harness.Answer(script)
              && t.calls[0].sources == Firsts(Harness.Found(script, 0, Harness.AnswerFrom(script, 0)))
  {
    Turns.TurnEnd(claimedAt, inputs);
    Harness.OnlyTheAnswerSurvives(script);
    Harness.EveryToolIsShown(script);
  }
}
