/**
 The bounded tool-use loop behind a reply: `stream_completion_agentic` in
 packages/core/agent/harness.py, for any script of model responses.
 */
module Harness {
  import opened Events
  import opened Folds

  const MAX_ITERS := 5
  const SEPARATOR := "\n\n"
  const LIMIT_STATUS := "Reached the tool-use limit."

  /** One requested tool with what running it shows: its status note and its provenance. */
  datatype ToolUse = ToolUse(note: string, sources: seq<Source>)

  /** One model call: its text deltas, whether it stopped to use tools, and which. */
  datatype Response = Response(deltas: seq<string>, wantsTools: bool, uses: seq<ToolUse>)

  /** What the model answers to each call it may get: the loop's and the fallback's. */
  type Script = s: seq<Response> | |s| == MAX_ITERS + 1 witness seq(MAX_ITERS + 1, _ => Response([], false, []))

  function Texts(deltas: seq<string>): seq<Event> {
    seq(|deltas|, k requires 0 <= k < |deltas| => Content(deltas[k]))
  }

  /** The pieces one call streams; a separator goes first when earlier text stands. */
  function Pieces(emitted: bool, deltas: seq<string>): seq<string> {
    if emitted && deltas != [] then [SEPARATOR] + deltas else deltas
  }

  function ToolEvents(uses: seq<ToolUse>): seq<Event> {
    if uses == [] then []
    else
      var init, u := ToolEvents(uses[..|uses| - 1]), uses[|uses| - 1];
      init + [Status(u.note)] + (if u.sources != [] then [Sources(u.sources)] else [])
  }

  /** The events between a tool call's text and the next call. */
  function AfterCall(narration: string, uses: seq<ToolUse>): seq<Event> {
    (if narration != "" then [Retract(narration)] else []) + ToolEvents(uses)
  }

  function EmittedAfter(emitted: bool, deltas: seq<string>): bool {
    if Join(Pieces(emitted, deltas)) != "" then emitted else emitted || deltas != []
  }

  /** All events from call `k` on. */
  function From(script: Script, k: nat, emitted: bool): seq<Event>
    requires k <= MAX_ITERS
    decreases MAX_ITERS - k
  {
    var r := script[k];
    var pieces := Pieces(emitted, r.deltas);
    if k == MAX_ITERS then [Status(LIMIT_STATUS)] + Texts(pieces)
    else if !r.wantsTools then Texts(pieces)
    else Texts(pieces) + AfterCall(Join(pieces), r.uses) + From(script, k + 1, EmittedAfter(emitted, r.deltas))
  }

  /** The call whose text is the answer: the first that asks for no tool, else the fallback. */
  function AnswerFrom(script: Script, k: nat): (last: nat)
    requires k <= MAX_ITERS
    ensures k <= last <= MAX_ITERS
    ensures last == MAX_ITERS || !script[last].wantsTools
    ensures forall j :: k <= j < last ==> script[j].wantsTools
    decreases MAX_ITERS - k
  {
    if k == MAX_ITERS || !script[k].wantsTools then k else AnswerFrom(script, k + 1)
  }

  method StreamCompletion(script: Script) returns (events: seq<Event>, calls: nat)
    ensures events == From(script, 0, false)
    ensures calls == AnswerFrom(script, 0) + 1 <= MAX_ITERS + 1
  {
    events, calls := [], 0;
    var emittedText := false;
    while calls < MAX_ITERS
      invariant calls <= MAX_ITERS
      invariant events + From(script, calls, emittedText) == From(script, 0, false)
      invariant AnswerFrom(script, calls) == AnswerFrom(script, 0)
    {
      var emittedBefore, r := emittedText, script[calls];
      var callText, sent := CallModel(r.deltas, emittedText);
      if !r.wantsTools {
        return events + sent, calls + 1;
      }
      var more;
      more, emittedText := WithdrawAndRunTools(r, callText, emittedBefore);
      NextCall(script, calls, emittedBefore, events, sent + more);
      calls := calls + 1;
      events := events + (sent + more);
    }
    var _, sent := CallModel(script[MAX_ITERS].deltas, emittedText);
    return events + [Status(LIMIT_STATUS)] + sent, calls + 1;
  }

  lemma ToolCallFrom(script: Script, k: nat, emitted: bool)
    requires k < MAX_ITERS && script[k].wantsTools
    ensures var pieces := Pieces(emitted, script[k].deltas);
            From(script, k, emitted) ==
            (Texts(pieces) + AfterCall(Join(pieces), script[k].uses))
            + From(script, k + 1, EmittedAfter(emitted, script[k].deltas))
  {
  }

  lemma NextCall(script: Script, k: nat, emitted: bool, before: seq<Event>, sent: seq<Event>)
    requires k < MAX_ITERS && script[k].wantsTools
    requires var pieces := Pieces(emitted, script[k].deltas);
             sent == Texts(pieces) + AfterCall(Join(pieces), script[k].uses)
    ensures before + sent + From(script, k + 1, EmittedAfter(emitted, script[k].deltas)) ==
            before + From(script, k, emitted)
  {
    ToolCallFrom(script, k, emitted);
    JoinEvents(before, sent, From(script, k + 1, EmittedAfter(emitted, script[k].deltas)));
  }

  lemma JoinEvents(a: seq<Event>, b: seq<Event>, c: seq<Event>)
    ensures (a + b) + c == a + (b + c)
  {
  }

  /** `_call`: the text it collected and the events it sent. */
  method CallModel(deltas: seq<string>, emittedText: bool) returns (callText: seq<string>, events: seq<Event>)
    ensures callText == Pieces(emittedText, deltas)
    ensures events == Texts(Pieces(emittedText, deltas))
  {
    callText, events := [], [];
    for k := 0 to |deltas|
      invariant callText == Pieces(emittedText, deltas[..k])
      invariant events == Texts(callText)
    {
      if k == 0 && emittedText {
        callText, events := callText + [SEPARATOR], events + [Content(SEPARATOR)];
      }
      callText, events := callText + [deltas[k]], events + [Content(deltas[k])];
      assert deltas[..k + 1] == deltas[..k] + [deltas[k]];
    }
    assert deltas[..|deltas|] == deltas;
  }

  /** A call that wants tools: its narration is taken back, and its tools run. */
  method WithdrawAndRunTools(r: Response, callText: seq<string>, emittedBefore: bool)
    returns (events: seq<Event>, emittedText: bool)
    requires callText == Pieces(emittedBefore, r.deltas)
    ensures events == AfterCall(Join(callText), r.uses)
    ensures emittedText == EmittedAfter(emittedBefore, r.deltas)
  {
    emittedText := emittedBefore || r.deltas != [];
    events := [];
    var narration := Join(callText);
    if narration != "" {
      events := [Retract(narration)];
      emittedText := emittedBefore;
    }
    var shown := RunTools(r.uses);
    events := events + shown;
  }

  method RunTools(uses: seq<ToolUse>) returns (events: seq<Event>)
    ensures events == ToolEvents(uses)
  {
    events := [];
    for k := 0 to |uses|
      invariant events == ToolEvents(uses[..k])
    {
      assert uses[..k + 1][..k] == uses[..k];
      events := events + [Status(uses[k].note)];
      if uses[k].sources != [] {
        events := events + [Sources(uses[k].sources)];
      }
    }
    assert uses[..|uses|] == uses;
  }

  /** Every retract names exactly the end of the text folded before it. */
  ghost predicate RetractsMatch(r: Reply, events: seq<Event>) {
    events == [] ||
    var init, e := events[..|events| - 1], events[|events| - 1];
    && RetractsMatch(r, init)
    && (e.Retract? ==> e.text != "" && EndsWith(Fold(r, init).text, e.text))
  }

  lemma {:induction false} RetractsMatchAppend(r: Reply, a: seq<Event>, b: seq<Event>)
    requires RetractsMatch(r, a) && RetractsMatch(Fold(r, a), b)
    ensures RetractsMatch(r, a + b)
  {
    if b == [] {
      assert a + b == a;
    } else {
      var init := b[..|b| - 1];
      assert (a + b)[..|a + b| - 1] == a + init;
      RetractsMatchAppend(r, a, init);
      FoldAppend(r, a, init);
    }
  }

  lemma {:induction false} FoldTexts(r: Reply, pieces: seq<string>)
    ensures Fold(r, Texts(pieces)) == r.(text := r.text + Join(pieces))
    ensures RetractsMatch(r, Texts(pieces))
  {
    if pieces == [] {
      assert r.text + "" == r.text;
    } else {
      var n := |pieces| - 1;
      FoldTexts(r, pieces[..n]);
      assert Texts(pieces)[..n] == Texts(pieces[..n]);
      assert r.text + (Join(pieces[..n]) + pieces[n]) == r.text + Join(pieces[..n]) + pieces[n];
    }
  }

  /** Status notes and provenance never touch the text. */
  lemma {:induction false} QuietEvents(r: Reply, events: seq<Event>)
    requires forall k :: 0 <= k < |events| ==> events[k].Status? || events[k].Sources?
    ensures Fold(r, events).text == r.text && RetractsMatch(r, events)
  {
    if events != [] {
      QuietEvents(r, events[..|events| - 1]);
    }
  }

  lemma {:induction false} FoldTools(r: Reply, uses: seq<ToolUse>)
    ensures forall k :: 0 <= k < |ToolEvents(uses)| ==> ToolEvents(uses)[k].Status? || ToolEvents(uses)[k].Sources?
    ensures Fold(r, ToolEvents(uses)).text == r.text && RetractsMatch(r, ToolEvents(uses))
  {
    if uses != [] {
      FoldTools(r, uses[..|uses| - 1]);
    }
    QuietEvents(r, ToolEvents(uses));
  }

  /** A tool call's text, and its retract when there is any. */
  function Told(pieces: seq<string>): seq<Event> {
    Texts(pieces) + if Join(pieces) != "" then [Retract(Join(pieces))] else []
  }

  lemma NarrationIsWithdrawn(r: Reply, pieces: seq<string>)
    ensures Fold(r, Told(pieces)).text == r.text && RetractsMatch(r, Told(pieces))
  {
    var told := r.(text := r.text + Join(pieces));
    FoldTexts(r, pieces);
    if Join(pieces) == "" {
      assert told.text == r.text && Told(pieces) == Texts(pieces);
    } else {
      assert Told(pieces)[..|pieces|] == Texts(pieces);
      assert DropTail(told.text, Join(pieces)) == r.text;
    }
  }

  /** Two runs of events folded one after the other. */
  lemma Sequenced(r: Reply, a: seq<Event>, b: seq<Event>, whole: seq<Event>)
    requires RetractsMatch(r, a) && RetractsMatch(Fold(r, a), b) && whole == a + b
    ensures Fold(r, whole) == Fold(Fold(r, a), b) && RetractsMatch(r, whole)
  {
    FoldAppend(r, a, b);
    RetractsMatchAppend(r, a, b);
  }

  lemma ToldThenTools(pieces: seq<string>, uses: seq<ToolUse>)
    ensures Told(pieces) + ToolEvents(uses) == Texts(pieces) + AfterCall(Join(pieces), uses)
  {
    JoinEvents(Texts(pieces), if Join(pieces) != "" then [Retract(Join(pieces))] else [], ToolEvents(uses));
  }

  /** A tool call leaves the text as it found it. */
  lemma ToolCallLeavesNoText(r: Reply, pieces: seq<string>, uses: seq<ToolUse>)
    ensures var events := Texts(pieces) + AfterCall(Join(pieces), uses);
            Fold(r, events).text == r.text && RetractsMatch(r, events)
  {
    NarrationIsWithdrawn(r, pieces);
    FoldTools(Fold(r, Told(pieces)), uses);
    ToldThenTools(pieces, uses);
    Sequenced(r, Told(pieces), ToolEvents(uses), Texts(pieces) + AfterCall(Join(pieces), uses));
  }

  lemma FallbackIsKept(r: Reply, pieces: seq<string>)
    ensures var events := [Status(LIMIT_STATUS)] + Texts(pieces);
            Fold(r, events).text == r.text + Join(pieces) && RetractsMatch(r, events)
  {
    var limit := [Status(LIMIT_STATUS)];
    assert limit[..0] == [] && Fold(r, limit) == r && RetractsMatch(r, limit);
    FoldTexts(r, pieces);
    Sequenced(r, limit, Texts(pieces), limit + Texts(pieces));
  }

  /** `emitted_text` when call `k` begins. */
  function EmittedAt(script: Script, k: nat): bool
    requires k <= MAX_ITERS
  {
    if k == 0 then false else EmittedAfter(EmittedAt(script, k - 1), script[k - 1].deltas)
  }

  /** The text from call `k` on adds the answering call's pieces to `r`, and its retracts match. */
  ghost predicate Survives(script: Script, k: nat, r: Reply)
    requires k <= MAX_ITERS
  {
    var last := AnswerFrom(script, k);
    var events := From(script, k, EmittedAt(script, k));
    && RetractsMatch(r, events)
    && Fold(r, events).text == r.text + Join(Pieces(EmittedAt(script, last), script[last].deltas))
  }

  /** The events of a tool call, up to the next call. */
  function ToldAt(script: Script, k: nat): seq<Event>
    requires k < MAX_ITERS
  {
    var pieces := Pieces(EmittedAt(script, k), script[k].deltas);
    Texts(pieces) + AfterCall(Join(pieces), script[k].uses)
  }

  lemma ToldAtLeavesNoText(script: Script, k: nat, r: Reply)
    requires k < MAX_ITERS
    ensures Fold(r, ToldAt(script, k)).text == r.text && RetractsMatch(r, ToldAt(script, k))
  {
    ToolCallLeavesNoText(r, Pieces(EmittedAt(script, k), script[k].deltas), script[k].uses);
  }

  lemma FromAfterTold(script: Script, k: nat)
    requires k < MAX_ITERS && script[k].wantsTools
    ensures From(script, k, EmittedAt(script, k)) == ToldAt(script, k) + From(script, k + 1, EmittedAt(script, k + 1))
  {
    ToolCallFrom(script, k, EmittedAt(script, k));
  }

  lemma ToolCallThenAnswer(script: Script, k: nat, r: Reply, later: Reply)
    requires k < MAX_ITERS && script[k].wantsTools
    requires later == Fold(r, ToldAt(script, k)) && Survives(script, k + 1, later)
    ensures Survives(script, k, r)
  {
    ToldAtLeavesNoText(script, k, r);
    FromAfterTold(script, k);
    Sequenced(r, ToldAt(script, k), From(script, k + 1, EmittedAt(script, k + 1)),
              From(script, k, EmittedAt(script, k)));
  }

  lemma AnsweringCall(script: Script, k: nat, r: Reply)
    requires k <= MAX_ITERS && (k == MAX_ITERS || !script[k].wantsTools)
    ensures Survives(script, k, r)
  {
    var pieces := Pieces(EmittedAt(script, k), script[k].deltas);
    if k == MAX_ITERS { FallbackIsKept(r, pieces); } else { FoldTexts(r, pieces); }
  }

  lemma {:induction false} AnswerSurvivesFrom(script: Script, k: nat, r: Reply)
    requires k <= MAX_ITERS
    ensures Survives(script, k, r)
    decreases MAX_ITERS - k
  {
    if k == MAX_ITERS || !script[k].wantsTools {
      AnsweringCall(script, k, r);
    } else {
      var later := Fold(r, ToldAt(script, k));
      AnswerSurvivesFrom(script, k + 1, later);
      ToolCallThenAnswer(script, k, r, later);
    }
  }

  /** A call that streamed pieces but no character. */
  predicate OnlyEmptyPieces(r: Response) {
    r.deltas != [] && Join(r.deltas) == ""
  }

  lemma {:induction false} SeparatorIsFirst(deltas: seq<string>)
    ensures Join([SEPARATOR] + deltas) == SEPARATOR + Join(deltas)
  {
    var all := [SEPARATOR] + deltas;
    if deltas == [] {
      assert all[..0] == [];
    } else {
      var front, last := deltas[..|deltas| - 1], deltas[|deltas| - 1];
      assert all[..|all| - 1] == [SEPARATOR] + front;
      SeparatorIsFirst(front);
      assert Join(all) == Join([SEPARATOR] + front) + last;
      assert (SEPARATOR + Join(front)) + last == SEPARATOR + (Join(front) + last);
    }
  }

  lemma EmittedStep(emitted: bool, r: Response)
    ensures EmittedAfter(emitted, r.deltas) <==> emitted || OnlyEmptyPieces(r)
  {
    SeparatorIsFirst(r.deltas);
  }

  /** Some call before `k` streamed nothing but empty pieces. */
  ghost predicate EmptyBefore(script: Script, k: nat)
    requires k <= MAX_ITERS
  {
    exists j :: 0 <= j < k && OnlyEmptyPieces(script[j])
  }

  lemma EmptyBeforeStep(script: Script, k: nat)
    requires k < MAX_ITERS
    ensures EmptyBefore(script, k + 1) <==> EmptyBefore(script, k) || OnlyEmptyPieces(script[k])
  {
    if EmptyBefore(script, k + 1) {
      var j :| 0 <= j < k + 1 && OnlyEmptyPieces(script[j]);
    }
  }

  lemma {:induction false} EmittedExactlyAfterEmptyPieces(script: Script, k: nat)
    requires k <= MAX_ITERS
    ensures EmittedAt(script, k) <==> EmptyBefore(script, k)
  {
    if k > 0 {
      EmittedExactlyAfterEmptyPieces(script, k - 1);
      EmittedStep(EmittedAt(script, k - 1), script[k - 1]);
      EmptyBeforeStep(script, k - 1);
    }
  }

  /** The text of the last call alone. */
  function Answer(script: Script): string {
    Join(script[AnswerFrom(script, 0)].deltas)
  }

  /** Folding all a reply's events leaves the last call's text, and every retract matched when it came. */
  lemma OnlyTheAnswerSurvives(script: Script)
    ensures var events := From(script, 0, false);
            && RetractsMatch(EMPTY, events)
            && ((forall k :: 0 <= k < AnswerFrom(script, 0) ==> !OnlyEmptyPieces(script[k])) ==>
                 Fold(EMPTY, events).text == Answer(script))
  {
    var last := AnswerFrom(script, 0);
    AnswerSurvivesFrom(script, 0, EMPTY);
    EmittedExactlyAfterEmptyPieces(script, last);
  }

  /** Exactly when: a separator strays in front only after a tool call that streamed nothing but empty pieces. */
  lemma StraySeparatorExactlyWhen(script: Script)
    ensures var last := AnswerFrom(script, 0);
            Fold(EMPTY, From(script, 0, false)).text != Answer(script) <==>
            script[last].deltas != [] && exists k :: 0 <= k < last && OnlyEmptyPieces(script[k])
  {
    var last := AnswerFrom(script, 0);
    AnswerSurvivesFrom(script, 0, EMPTY);
    EmittedExactlyAfterEmptyPieces(script, last);
    if EmittedAt(script, last) && script[last].deltas != [] {
      SeparatorIsFirst(script[last].deltas);
      assert |SEPARATOR + Answer(script)| != |Answer(script)|;
    }
  }

  // ------------------------------------------------------------------ what the tools showed

  /** Everything that some tools found, in the order they ran. */
  function FoundBy(uses: seq<ToolUse>): seq<Source> {
    if uses == [] then [] else FoundBy(uses[..|uses| - 1]) + uses[|uses| - 1].sources
  }

  /** Everything that the tools of calls `j` up to `k` found. */
  function Found(script: Script, j: nat, k: nat): seq<Source>
    requires j <= k <= MAX_ITERS
    decreases k - j
  {
    if j == k then [] else FoundBy(script[j].uses) + Found(script, j + 1, k)
  }

  function Notes(events: seq<Event>): seq<string> {
    if events == [] then []
    else
      var init, e := Notes(events[..|events| - 1]), events[|events| - 1];
      if e.Status? then init + [e.text] else init
  }

  function NotesOf(uses: seq<ToolUse>): seq<string> {
    seq(|uses|, k requires 0 <= k < |uses| => uses[k].note)
  }

  function NotesBetween(script: Script, j: nat, k: nat): seq<string>
    requires j <= k <= MAX_ITERS
    decreases k - j
  {
    if j == k then [] else NotesOf(script[j].uses) + NotesBetween(script, j + 1, k)
  }

  lemma {:induction false} ShownAppend(a: seq<Event>, b: seq<Event>)
    ensures AllSources(a + b) == AllSources(a) + AllSources(b)
    ensures Notes(a + b) == Notes(a) + Notes(b)
  {
    if b == [] {
      assert a + b == a;
    } else {
      assert (a + b)[..|a + b| - 1] == a + b[..|b| - 1];
      ShownAppend(a, b[..|b| - 1]);
    }
  }

  lemma {:induction false} TextShowsNothing(pieces: seq<string>)
    ensures AllSources(Texts(pieces)) == [] && Notes(Texts(pieces)) == []
  {
    if pieces != [] {
      var n := |pieces| - 1;
      assert Texts(pieces)[..n] == Texts(pieces[..n]);
      TextShowsNothing(pieces[..n]);
    }
  }

  lemma OneEvent(e: Event)
    ensures AllSources([e]) == (if e.Sources? then e.batch else []) && Notes([e]) == if e.Status? then [e.text] else []
  {
    assert [e][..0] == [];
  }

  lemma OneToolShows(u: ToolUse)
    ensures var events := [Status(u.note)] + if u.sources != [] then [Sources(u.sources)] else [];
            AllSources(events) == u.sources && Notes(events) == [u.note]
  {
    var found := if u.sources != [] then [Sources(u.sources)] else [];
    ShownAppend([Status(u.note)], found);
    OneEvent(Status(u.note));
    if u.sources != [] { OneEvent(Sources(u.sources)); }
  }

  lemma {:induction false} ToolsShow(uses: seq<ToolUse>)
    ensures AllSources(ToolEvents(uses)) == FoundBy(uses) && Notes(ToolEvents(uses)) == NotesOf(uses)
  {
    if uses != [] {
      var init, u := uses[..|uses| - 1], uses[|uses| - 1];
      var shown := [Status(u.note)] + if u.sources != [] then [Sources(u.sources)] else [];
      ToolsShow(init);
      OneToolShows(u);
      ShownAppend(ToolEvents(init), shown);
      JoinEvents(ToolEvents(init), [Status(u.note)], if u.sources != [] then [Sources(u.sources)] else []);
      assert NotesOf(uses) == NotesOf(init) + [u.note];
    }
  }

  lemma ToolCallShows(pieces: seq<string>, uses: seq<ToolUse>)
    ensures var events := Texts(pieces) + AfterCall(Join(pieces), uses);
            AllSources(events) == FoundBy(uses) && Notes(events) == NotesOf(uses)
  {
    var retract := if Join(pieces) != "" then [Retract(Join(pieces))] else [];
    TextShowsNothing(pieces);
    ToolsShow(uses);
    if Join(pieces) != "" { OneEvent(Retract(Join(pieces))); }
    ShownAppend(retract, ToolEvents(uses));
    ShownAppend(Texts(pieces), AfterCall(Join(pieces), uses));
  }

  lemma FallbackShows(pieces: seq<string>)
    ensures var events := [Status(LIMIT_STATUS)] + Texts(pieces);
            AllSources(events) == [] && Notes(events) == [LIMIT_STATUS]
  {
    OneEvent(Status(LIMIT_STATUS));
    TextShowsNothing(pieces);
    ShownAppend([Status(LIMIT_STATUS)], Texts(pieces));
  }

  /** `events` show what the tools of the calls from `k` up to the answer came to. */
  ghost predicate Shows(script: Script, k: nat, events: seq<Event>)
    requires k <= MAX_ITERS
  {
    var last := AnswerFrom(script, k);
    && AllSources(events) == Found(script, k, last)
    && Notes(events) == NotesBetween(script, k, last) + if last == MAX_ITERS then [LIMIT_STATUS] else []
  }

  lemma JoinNotes(a: seq<string>, b: seq<string>, c: seq<string>)
    ensures (a + b) + c == a + (b + c)
  {
  }

  lemma CallThenRest(script: Script, k: nat, told: seq<Event>, rest: seq<Event>)
    requires k < MAX_ITERS && script[k].wantsTools && Shows(script, k + 1, rest)
    requires AllSources(told) == FoundBy(script[k].uses) && Notes(told) == NotesOf(script[k].uses)
    ensures Shows(script, k, told + rest)
  {
    var last := AnswerFrom(script, k + 1);
    ShownAppend(told, rest);
    JoinNotes(NotesOf(script[k].uses), NotesBetween(script, k + 1, last),
              if last == MAX_ITERS then [LIMIT_STATUS] else []);
  }

  lemma {:induction false} ShownFrom(script: Script, k: nat, emitted: bool)
    requires k <= MAX_ITERS
    ensures Shows(script, k, From(script, k, emitted))
    decreases MAX_ITERS - k
  {
    var r := script[k];
    var pieces := Pieces(emitted, r.deltas);
    if k == MAX_ITERS {
      FallbackShows(pieces);
    } else if !r.wantsTools {
      TextShowsNothing(pieces);
    } else {
      var later := EmittedAfter(emitted, r.deltas);
      ToolCallFrom(script, k, emitted);
      ToolCallShows(pieces, r.uses);
      ShownFrom(script, k + 1, later);
      CallThenRest(script, k, Texts(pieces) + AfterCall(Join(pieces), r.uses), From(script, k + 1, later));
    }
  }

  /**
   The tools of every call before the answer run, and of no other: each note is
   shown in order, with the limit's at the end of a script that never answers,
   and of everything they found the first of each key is stored, in order.
   */
  lemma EveryToolIsShown(script: Script)
    ensures var events, last := From(script, 0, false), AnswerFrom(script, 0);
            && Notes(events) ==
               NotesBetween(script, 0, last) + (if last == MAX_ITERS then ["Reached the tool-use limit."] else [])
            && Fold(EMPTY, events).sources == Firsts(Found(script, 0, last))
  {
    ShownFrom(script, 0, false);
    FoldKeepsFirstSources(From(script, 0, false));
  }
}
