/**
 One reply's task from its first step to its terminal marker: `Turn._run`,
 `_finish`, `_heartbeat` and `stop` in apps/api/turns.py.

 Inputs are what the event loop may deliver, in any order: the model's events,
 its end or failure, a Stop, a cancellation (a drain or the deadline), the task
 waking up, the heartbeat's refreshes and the database's answers. An input that
 cannot happen at a stage changes nothing.
 */
module Turns {
  import opened Events
  import opened Folds
  import opened Conversations
  import opened ReplyRuns

  datatype Item = Ev(event: Event) | End(marker: Marker)

  /** `StreamEnded`, `StreamFailed`, `Interrupted`: the consumer is done and `_run` has not woken yet. */
  datatype Stage =
    | Waiting
    | Streaming
    | StreamEnded
    | StreamFailed
    | Interrupted
    | Finishing(completed: bool, heartbeatOver: bool, saveRaised: bool)
    | Finished

  datatype SaveAnswer = Released | NotHeld | SaveRaised

  datatype Call =
    | PersistReply(token: Time, content: string, sources: seq<Source>, answer: SaveAnswer)
    | ReleaseClaim(token: Time)

  datatype Task = Task(token: Time, reply: Reply, queue: seq<Item>, stopped: bool, cancelling: bool,
                       stage: Stage, calls: seq<Call>)

  datatype Input =
    | Begin
    | Emit(event: Event)
    | ModelEnds
    | ModelFails
    | Stop
    | Cancel
    | Wake
    | Refreshed(token: Time)
    | HeartbeatEnds
    | SaveAnswers(answer: SaveAnswer)
    | ReleaseAnswers

  /** Python's `str.isspace`. */
  predicate IsSpace(c: char) {
    || '\t' <= c <= '\r' || '\U{1C}' <= c <= ' ' || c == '\U{85}' || c == '\U{A0}' || c == '\U{1680}'
    || '\U{2000}' <= c <= '\U{200A}' || c == '\U{2028}' || c == '\U{2029}' || c == '\U{202F}'
    || c == '\U{205F}' || c == '\U{3000}'
  }

  /** `not text.strip()` */
  predicate Blank(text: string) {
    forall k :: 0 <= k < |text| ==> IsSpace(text[k])
  }

  predicate BeforeWake(stage: Stage) {
    stage.Streaming? || stage.StreamEnded? || stage.StreamFailed? || stage.Interrupted?
  }

  predicate HeartbeatRuns(stage: Stage) {
    BeforeWake(stage) || (stage.Finishing? && !stage.heartbeatOver)
  }

  function NewTask(claimedAt: Time): Task {
    Task(claimedAt, EMPTY, [], false, false, Waiting, [])
  }

  /** What `_run` decides when the consumer's end reaches it. */
  predicate Keeps(t: Task) {
    !t.cancelling && (t.stage.StreamEnded? || (t.stage.Interrupted? && t.stopped)) && !Blank(t.reply.text)
  }

  function NextInput(t: Task, i: Input): Task {
    match i
    case Begin =>
      if !t.stage.Waiting? then t
      else t.(stage := if t.stopped then Finishing(false, false, false) else Streaming)
    case Emit(e) =>
      if !t.stage.Streaming? then t else t.(reply := FoldEvent(t.reply, e), queue := t.queue + [Ev(e)])
    case ModelEnds => if t.stage.Streaming? then t.(stage := StreamEnded) else t
    case ModelFails => if t.stage.Streaming? || t.stage.Interrupted? then t.(stage := StreamFailed) else t
    case Stop => t.(stopped := true, stage := if t.stage.Streaming? then Interrupted else t.stage)
    case Cancel =>
      if !BeforeWake(t.stage) then t
      else t.(cancelling := true, stage := if t.stage.Streaming? then Interrupted else t.stage)
    case Wake =>
      if !BeforeWake(t.stage) || t.stage.Streaming? then t else t.(stage := Finishing(Keeps(t), false, false))
    case Refreshed(token) => if HeartbeatRuns(t.stage) then t.(token := token) else t
    case HeartbeatEnds =>
      if t.stage.Finishing? && !t.stage.heartbeatOver then t.(stage := t.stage.(heartbeatOver := true)) else t
    case SaveAnswers(answer) =>
      if !(t.stage.Finishing? && t.stage.heartbeatOver && t.stage.completed && !t.stage.saveRaised) then t
      else
        var called := t.(calls := t.calls + [PersistReply(t.token, t.reply.text, t.reply.sources, answer)]);
        if answer.SaveRaised? then called.(stage := t.stage.(saveRaised := true))
        else called.(stage := Finished, queue := t.queue + [End(if answer.Released? then Done else Failed)])
    case ReleaseAnswers =>
      if !(t.stage.Finishing? && t.stage.heartbeatOver && (!t.stage.completed || t.stage.saveRaised)) then t
      else t.(calls := t.calls + [ReleaseClaim(t.token)], stage := Finished, queue := t.queue + [End(Failed)])
  }

  function Life(claimedAt: Time, inputs: seq<Input>): Task {
    if inputs == [] then NewTask(claimedAt)
    else NextInput(Life(claimedAt, inputs[..|inputs| - 1]), inputs[|inputs| - 1])
  }

  function Items(events: seq<Event>): seq<Item> {
    seq(|events|, k requires 0 <= k < |events| => Ev(events[k]))
  }

  /** The events `inputs` made the task emit: those that came while the model streamed. */
  function Emitted(claimedAt: Time, inputs: seq<Input>): seq<Event> {
    if inputs == [] then []
    else
      var init, i := inputs[..|inputs| - 1], inputs[|inputs| - 1];
      if i.Emit? && Life(claimedAt, init).stage.Streaming? then Emitted(claimedAt, init) + [i.event]
      else Emitted(claimedAt, init)
  }

  /** A save call carries the whole reply, not blank, under a token that is the row's last known value. */
  ghost predicate GoodSave(t: Task, c: Call) {
    && c.PersistReply? && c.token == t.token
    && c.content == t.reply.text && c.sources == t.reply.sources && !Blank(c.content)
  }

  ghost predicate CallsInv(t: Task) {
    match t.stage
    case Finishing(completed, heartbeatOver, saveRaised) =>
      && (completed ==> !t.cancelling && !Blank(t.reply.text))
      && (saveRaised ==> completed && heartbeatOver)
      && (if saveRaised then |t.calls| == 1 && GoodSave(t, t.calls[0]) && t.calls[0].answer.SaveRaised?
          else t.calls == [])
    case Finished =>
      || t.calls == [ReleaseClaim(t.token)]
      || (!t.cancelling && t.calls != [] && GoodSave(t, t.calls[0]) &&
          if t.calls[0].answer.SaveRaised? then t.calls[1..] == [ReleaseClaim(t.token)] else |t.calls| == 1)
    case _ => t.calls == []
  }

  /** The marker a finished task's listener gets. */
  function MarkerOf(calls: seq<Call>): Marker {
    if calls != [] && calls[0].PersistReply? && calls[0].answer.Released? then Done else Failed
  }

  lemma CallsInvStep(t: Task, i: Input)
    requires CallsInv(t)
    ensures CallsInv(NextInput(t, i))
  {
    match i
    case SaveAnswers(_) =>
    case ReleaseAnswers =>
    case _ =>
  }

  /** What the listener will read after `events` from a task that has made `calls`. */
  function QueueOf(events: seq<Event>, t: Task): seq<Item> {
    Items(events) + if t.stage.Finished? then [End(MarkerOf(t.calls))] else []
  }

  lemma QueueStep(t: Task, i: Input, events: seq<Event>)
    requires CallsInv(t) && t.queue == QueueOf(events, t)
    ensures var t' := NextInput(t, i);
            t'.queue == QueueOf(if i.Emit? && t.stage.Streaming? then events + [i.event] else events, t')
  {
    if i.Emit? && t.stage.Streaming? {
      assert Items(events + [i.event]) == Items(events) + [Ev(i.event)];
    }
  }

  lemma ReplyStep(t: Task, i: Input, events: seq<Event>)
    requires t.reply == Fold(EMPTY, events)
    ensures NextInput(t, i).reply ==
            Fold(EMPTY, if i.Emit? && t.stage.Streaming? then events + [i.event] else events)
  {
    if i.Emit? && t.stage.Streaming? { assert (events + [i.event])[..|events|] == events; }
  }

  /**
   The whole of a reply's end. Its listener reads every event, then exactly one
   marker; the marker is "done" exactly when the save's own transaction
   released the claim; what is saved is the fold of all that was emitted, never
   blank; and every database call carries the token as the ended heartbeat left
   it.
   */
  lemma {:induction false} TurnEnd(claimedAt: Time, inputs: seq<Input>)
    ensures var t := Life(claimedAt, inputs);
            && t.reply == Fold(EMPTY, Emitted(claimedAt, inputs))
            && t.queue == QueueOf(Emitted(claimedAt, inputs), t)
            && CallsInv(t)
  {
    if inputs != [] {
      var init, i := inputs[..|inputs| - 1], inputs[|inputs| - 1];
      TurnEnd(claimedAt, init);
      var events, t := Emitted(claimedAt, init), Life(claimedAt, init);
      CallsInvStep(t, i);
      QueueStep(t, i, events);
      ReplyStep(t, i, events);
    }
  }

  /** Some wake-up decided to keep the reply. */
  ghost predicate WokeToKeep(claimedAt: Time, inputs: seq<Input>) {
    exists k :: 0 <= k < |inputs| && inputs[k].Wake? && Keeps(Life(claimedAt, inputs[..k]))
  }

  predicate Saving(t: Task) {
    (t.stage.Finishing? && t.stage.completed) || (t.stage.Finished? && t.calls != [] && t.calls[0].PersistReply?)
  }

  lemma WokeToKeepStep(claimedAt: Time, inputs: seq<Input>)
    requires inputs != []
    ensures var init, i := inputs[..|inputs| - 1], inputs[|inputs| - 1];
            WokeToKeep(claimedAt, inputs) <==>
            WokeToKeep(claimedAt, init) || (i.Wake? && Keeps(Life(claimedAt, init)))
  {
    var init := inputs[..|inputs| - 1];
    assert forall k :: 0 <= k <= |init| ==> init[..k] == inputs[..k];
    assert inputs[..|inputs| - 1] == init;
  }

  lemma SavingStep(t: Task, i: Input)
    requires CallsInv(t)
    ensures Saving(NextInput(t, i)) <==> Saving(t) || (i.Wake? && Keeps(t))
  {
    match i
    case SaveAnswers(_) =>
    case ReleaseAnswers =>
    case _ =>
  }

  lemma {:induction false} SavedWhenWokenToKeep(claimedAt: Time, inputs: seq<Input>)
    ensures Saving(Life(claimedAt, inputs)) <==> WokeToKeep(claimedAt, inputs)
  {
    if inputs != [] {
      var init := inputs[..|inputs| - 1];
      SavedWhenWokenToKeep(claimedAt, init);
      TurnEnd(claimedAt, init);
      WokeToKeepStep(claimedAt, inputs);
      SavingStep(Life(claimedAt, init), inputs[|inputs| - 1]);
    }
  }

  // ------------------------------------------------------------------ what is saved, said of the inputs alone

  predicate EndsStream(i: Input) {
    i.ModelEnds? || i.ModelFails? || i.Stop? || i.Cancel?
  }

  /** The task starts at input `b`, not stopped before. */
  ghost predicate StartsAt(inputs: seq<Input>, b: nat) {
    && b < |inputs| && inputs[b].Begin?
    && forall k :: 0 <= k < b ==> !inputs[k].Begin? && !inputs[k].Stop?
  }

  /** Its stream, started at `b`, is ended by input `e`. */
  ghost predicate StreamsTo(inputs: seq<Input>, b: nat, e: nat) {
    && StartsAt(inputs, b) && b < e < |inputs| && EndsStream(inputs[e])
    && forall k :: b < k < e ==> !EndsStream(inputs[k])
  }

  /** It wakes at input `u`, the first chance after that end. */
  ghost predicate WakesAt(inputs: seq<Input>, b: nat, e: nat, u: nat) {
    && StreamsTo(inputs, b, e) && e < u < |inputs| && inputs[u].Wake?
    && forall k :: e < k < u ==> !inputs[k].Wake?
  }

  /** The events among some inputs. */
  function EventsIn(inputs: seq<Input>): seq<Event> {
    if inputs == [] then []
    else
      var init, i := EventsIn(inputs[..|inputs| - 1]), inputs[|inputs| - 1];
      if i.Emit? then init + [i.event] else init
  }

  /** The reply that streamed from `b` to `e`. */
  function Streamed(inputs: seq<Input>, b: nat, e: nat): Reply
    requires b <= e <= |inputs|
  {
    Fold(EMPTY, EventsIn(inputs[b..e]))
  }

  ghost predicate CancelIn(inputs: seq<Input>, from: nat, to: nat)
    requires to <= |inputs|
  {
    exists k :: from <= k < to && inputs[k].Cancel?
  }

  ghost predicate FailureIn(inputs: seq<Input>, from: nat, to: nat)
    requires to <= |inputs|
  {
    exists k :: from <= k < to && inputs[k].ModelFails?
  }

  /**
   The reply is kept: the model came to its end, or a Stop ended the stream and
   the consumer did not raise while it closed; no cancellation came in between;
   and some character is no space.
   */
  ghost predicate Kept(inputs: seq<Input>, b: nat, e: nat, u: nat)
    requires b <= e < u <= |inputs|
  {
    && (inputs[e].ModelEnds? || (inputs[e].Stop? && !FailureIn(inputs, e + 1, u)))
    && !CancelIn(inputs, e + 1, u)
    && exists c :: c in Streamed(inputs, b, e).text && !IsSpace(c)
  }

  lemma LifeMore(claimedAt: Time, inputs: seq<Input>, k: nat)
    requires k < |inputs|
    ensures Life(claimedAt, inputs[..k + 1]) == NextInput(Life(claimedAt, inputs[..k]), inputs[k])
  {
    assert inputs[..k + 1][..k] == inputs[..k];
  }

  lemma {:induction false} WaitsUntilItStarts(claimedAt: Time, inputs: seq<Input>, k: nat)
    requires k <= |inputs| && forall j :: 0 <= j < k ==> !inputs[j].Begin? && !inputs[j].Stop?
    ensures Life(claimedAt, inputs[..k]) == NewTask(claimedAt)
  {
    if k > 0 {
      WaitsUntilItStarts(claimedAt, inputs, k - 1);
      LifeMore(claimedAt, inputs, k - 1);
    }
  }

  lemma EventsMore(inputs: seq<Input>, b: nat, k: nat)
    requires b <= k < |inputs|
    ensures EventsIn(inputs[b..k + 1]) ==
            if inputs[k].Emit? then EventsIn(inputs[b..k]) + [inputs[k].event] else EventsIn(inputs[b..k])
  {
    assert inputs[b..k + 1][..k - b] == inputs[b..k];
  }

  /** The task streams, and has folded what came. */
  predicate StreamsAt(t: Task, inputs: seq<Input>, b: nat, k: nat)
    requires b <= k <= |inputs|
  {
    t.stage.Streaming? && !t.stopped && !t.cancelling && t.reply == Streamed(inputs, b, k)
  }

  lemma StreamStarts(claimedAt: Time, inputs: seq<Input>, b: nat)
    requires StartsAt(inputs, b)
    ensures StreamsAt(NextInput(NewTask(claimedAt), Begin), inputs, b, b + 1)
  {
    EventsMore(inputs, b, b);
    assert inputs[b..b] == [];
  }

  lemma StreamGoesOn(t: Task, inputs: seq<Input>, b: nat, k: nat)
    requires b <= k < |inputs| && StreamsAt(t, inputs, b, k) && !EndsStream(inputs[k])
    ensures StreamsAt(NextInput(t, inputs[k]), inputs, b, k + 1)
  {
    var i, events := inputs[k], EventsIn(inputs[b..k]);
    EventsMore(inputs, b, k);
    if i.Emit? { assert (events + [i.event])[..|events|] == events; }
  }

  /** While nothing ends the stream, the task streams. */
  lemma {:induction false} StreamsMeanwhile(claimedAt: Time, inputs: seq<Input>, b: nat, k: nat)
    requires StartsAt(inputs, b) && b < k <= |inputs| && forall j :: b < j < k ==> !EndsStream(inputs[j])
    ensures StreamsAt(Life(claimedAt, inputs[..k]), inputs, b, k)
  {
    LifeMore(claimedAt, inputs, k - 1);
    if k == b + 1 {
      WaitsUntilItStarts(claimedAt, inputs, b);
      StreamStarts(claimedAt, inputs, b);
    } else {
      StreamsMeanwhile(claimedAt, inputs, b, k - 1);
      StreamGoesOn(Life(claimedAt, inputs[..k - 1]), inputs, b, k - 1);
    }
  }

  /** What the task knows between the stream's end and its wake-up. */
  ghost predicate Settled(t: Task, inputs: seq<Input>, b: nat, e: nat, k: nat)
    requires b <= e < k <= |inputs|
  {
    && BeforeWake(t.stage) && !t.stage.Streaming?
    && t.reply == Streamed(inputs, b, e)
    && (t.cancelling <==> inputs[e].Cancel? || CancelIn(inputs, e + 1, k))
    && (t.stage.StreamEnded? <==> inputs[e].ModelEnds?)
    && (t.stage.StreamFailed? <==> inputs[e].ModelFails? || (!inputs[e].ModelEnds? && FailureIn(inputs, e + 1, k)))
    && (inputs[e].Stop? ==> t.stopped)
  }

  lemma CancelMore(inputs: seq<Input>, from: nat, to: nat)
    requires from <= to < |inputs|
    ensures CancelIn(inputs, from, to + 1) <==> CancelIn(inputs, from, to) || inputs[to].Cancel?
  {
  }

  lemma FailureMore(inputs: seq<Input>, from: nat, to: nat)
    requires from <= to < |inputs|
    ensures FailureIn(inputs, from, to + 1) <==> FailureIn(inputs, from, to) || inputs[to].ModelFails?
  {
  }

  lemma StreamEnds(t: Task, inputs: seq<Input>, b: nat, e: nat)
    requires b <= e < |inputs| && StreamsAt(t, inputs, b, e) && EndsStream(inputs[e])
    ensures Settled(NextInput(t, inputs[e]), inputs, b, e, e + 1)
  {
  }

  lemma OneMoreSettled(t: Task, i: Input)
    requires BeforeWake(t.stage) && !t.stage.Streaming? && !i.Wake?
    ensures var t' := NextInput(t, i);
            && BeforeWake(t'.stage) && !t'.stage.Streaming? && t'.reply == t.reply
            && (t'.cancelling <==> t.cancelling || i.Cancel?)
            && (t'.stage.StreamEnded? <==> t.stage.StreamEnded?)
            && (t'.stage.StreamFailed? <==> t.stage.StreamFailed? || (!t.stage.StreamEnded? && i.ModelFails?))
            && (t.stopped ==> t'.stopped)
  {
  }

  lemma StaysSettled(t: Task, inputs: seq<Input>, b: nat, e: nat, k: nat)
    requires b <= e < k < |inputs| && Settled(t, inputs, b, e, k) && !inputs[k].Wake?
    ensures Settled(NextInput(t, inputs[k]), inputs, b, e, k + 1)
  {
    OneMoreSettled(t, inputs[k]);
    CancelMore(inputs, e + 1, k);
    FailureMore(inputs, e + 1, k);
  }

  lemma SettlesAtOnce(claimedAt: Time, inputs: seq<Input>, b: nat, e: nat)
    requires StreamsTo(inputs, b, e)
    ensures Settled(Life(claimedAt, inputs[..e + 1]), inputs, b, e, e + 1)
  {
    StreamsMeanwhile(claimedAt, inputs, b, e);
    LifeMore(claimedAt, inputs, e);
    StreamEnds(Life(claimedAt, inputs[..e]), inputs, b, e);
  }

  lemma SettlesOneMore(claimedAt: Time, inputs: seq<Input>, b: nat, e: nat, k: nat)
    requires b <= e < k < |inputs| && Settled(Life(claimedAt, inputs[..k]), inputs, b, e, k) && !inputs[k].Wake?
    ensures Settled(Life(claimedAt, inputs[..k + 1]), inputs, b, e, k + 1)
  {
    LifeMore(claimedAt, inputs, k);
    StaysSettled(Life(claimedAt, inputs[..k]), inputs, b, e, k);
  }

  lemma {:induction false} SettlesUntilItWakes(claimedAt: Time, inputs: seq<Input>, b: nat, e: nat, k: nat)
    requires StreamsTo(inputs, b, e) && e < k <= |inputs| && forall j :: e < j < k ==> !inputs[j].Wake?
    ensures Settled(Life(claimedAt, inputs[..k]), inputs, b, e, k)
  {
    if k == e + 1 {
      SettlesAtOnce(claimedAt, inputs, b, e);
    } else {
      SettlesUntilItWakes(claimedAt, inputs, b, e, k - 1);
      SettlesOneMore(claimedAt, inputs, b, e, k - 1);
    }
  }

  /** A wake-up keeps the reply exactly when the inputs before it say so. */
  lemma WakesToKeep(claimedAt: Time, inputs: seq<Input>, b: nat, e: nat, u: nat)
    requires WakesAt(inputs, b, e, u)
    ensures Keeps(Life(claimedAt, inputs[..u])) <==> Kept(inputs, b, e, u)
  {
    SettlesUntilItWakes(claimedAt, inputs, b, e, u);
    var t := Life(claimedAt, inputs[..u]);
    assert Blank(t.reply.text) <==> forall c :: c in t.reply.text ==> IsSpace(c);
  }

  /** A task that streams was started. */
  lemma {:induction false} StreamingStarted(claimedAt: Time, inputs: seq<Input>) returns (b: nat)
    requires Life(claimedAt, inputs).stage.Streaming?
    ensures StartsAt(inputs, b) && forall j :: b < j < |inputs| ==> !EndsStream(inputs[j])
  {
    var init := inputs[..|inputs| - 1];
    if Life(claimedAt, init).stage.Streaming? {
      b := StreamingStarted(claimedAt, init);
    } else {
      NotStartedYet(claimedAt, init);
      b := |init|;
    }
  }

  lemma {:induction false} NotStartedYet(claimedAt: Time, inputs: seq<Input>)
    requires Life(claimedAt, inputs).stage.Waiting?
    ensures forall j :: 0 <= j < |inputs| ==> !inputs[j].Begin?
    ensures Life(claimedAt, inputs).stopped <==> exists j :: 0 <= j < |inputs| && inputs[j].Stop?
  {
    if inputs != [] { NotStartedYet(claimedAt, inputs[..|inputs| - 1]); }
  }

  lemma EndsNow(inputs: seq<Input>, b: nat)
    requires inputs != [] && EndsStream(inputs[|inputs| - 1]) && StartsAt(inputs[..|inputs| - 1], b)
    requires forall j :: b < j < |inputs| - 1 ==> !EndsStream(inputs[j])
    ensures StreamsTo(inputs, b, |inputs| - 1)
  {
    assert StartsAt(inputs, b);
  }

  lemma EndedBefore(inputs: seq<Input>, b: nat, e: nat)
    requires inputs != [] && StreamsTo(inputs[..|inputs| - 1], b, e)
    ensures StreamsTo(inputs, b, e)
  {
    assert StartsAt(inputs, b);
  }

  /** How an input brings a task to where its stream is over and it has not woken. */
  lemma EndedBy(t: Task, i: Input)
    requires BeforeWake(NextInput(t, i).stage) && !NextInput(t, i).stage.Streaming?
    ensures BeforeWake(t.stage) && if t.stage.Streaming? then EndsStream(i) else !i.Wake?
  {
  }

  /** A task whose stream is over, and which has not woken, was started and then ended. */
  lemma {:induction false} StreamWasEnded(claimedAt: Time, inputs: seq<Input>) returns (b: nat, e: nat)
    requires var t := Life(claimedAt, inputs); BeforeWake(t.stage) && !t.stage.Streaming?
    ensures StreamsTo(inputs, b, e) && forall j :: e < j < |inputs| ==> !inputs[j].Wake?
  {
    var init := inputs[..|inputs| - 1];
    EndedBy(Life(claimedAt, init), inputs[|inputs| - 1]);
    if Life(claimedAt, init).stage.Streaming? {
      b := StreamingStarted(claimedAt, init);
      e := |init|;
      EndsNow(inputs, b);
    } else {
      b, e := StreamWasEnded(claimedAt, init);
      EndedBefore(inputs, b, e);
    }
  }

  /** The task is started at `b`, its stream ends at `e`, and it wakes at `u` to keep what had streamed. */
  ghost predicate WakesKeeping(inputs: seq<Input>, b: nat, e: nat, u: nat) {
    WakesAt(inputs, b, e, u) && Kept(inputs, b, e, u)
  }

  lemma KeepsThere(claimedAt: Time, inputs: seq<Input>, u: nat) returns (b: nat, e: nat)
    requires u < |inputs| && inputs[u].Wake? && Keeps(Life(claimedAt, inputs[..u]))
    ensures WakesKeeping(inputs, b, e, u)
  {
    b, e := StreamWasEnded(claimedAt, inputs[..u]);
    assert StartsAt(inputs, b);
    assert WakesAt(inputs, b, e, u);
    WakesToKeep(claimedAt, inputs, b, e, u);
  }

  lemma KeptIsWokenTo(claimedAt: Time, inputs: seq<Input>, b: nat, e: nat, u: nat)
    requires WakesKeeping(inputs, b, e, u)
    ensures WokeToKeep(claimedAt, inputs)
  {
    WakesToKeep(claimedAt, inputs, b, e, u);
  }

  /**
   A reply is saved exactly when the task was started before any Stop, its
   stream ended by itself or by a Stop, no cancellation and no failure came
   before it woke, and what had streamed is not blank.
   */
  lemma SavedExactlyWhenKept(claimedAt: Time, inputs: seq<Input>)
    ensures Saving(Life(claimedAt, inputs)) <==> exists b: nat, e: nat, u: nat :: WakesKeeping(inputs, b, e, u)
  {
    SavedWhenWokenToKeep(claimedAt, inputs);
    if WokeToKeep(claimedAt, inputs) {
      var u: nat :| u < |inputs| && inputs[u].Wake? && Keeps(Life(claimedAt, inputs[..u]));
      var b, e := KeepsThere(claimedAt, inputs, u);
    }
    if b: nat, e: nat, u: nat :| WakesKeeping(inputs, b, e, u) {
      KeptIsWokenTo(claimedAt, inputs, b, e, u);
    }
  }

  lemma WokenStays(t: Task, i: Input)
    requires t.stage.Finishing? || t.stage.Finished?
    ensures var t' := NextInput(t, i); (t'.stage.Finishing? || t'.stage.Finished?) && t'.reply == t.reply
  {
  }

  /** The reply a woken task holds, whatever comes later, is what had streamed. */
  lemma {:induction false} SavedIsWhatStreamed(claimedAt: Time, inputs: seq<Input>, b: nat, e: nat, u: nat)
    requires WakesAt(inputs, b, e, u)
    ensures var t := Life(claimedAt, inputs);
            t.reply == Streamed(inputs, b, e) && (t.stage.Finishing? || t.stage.Finished?)
    decreases |inputs|
  {
    var init := inputs[..|inputs| - 1];
    if |inputs| == u + 1 {
      SettlesUntilItWakes(claimedAt, inputs, b, e, u);
    } else {
      assert StartsAt(init, b) && WakesAt(init, b, e, u);
      SavedIsWhatStreamed(claimedAt, init, b, e, u);
      assert init[b..e] == inputs[b..e];
      WokenStays(Life(claimedAt, init), inputs[|inputs| - 1]);
    }
  }

  lemma LifeOn(claimedAt: Time, inputs: seq<Input>, i: Input)
    ensures Life(claimedAt, inputs + [i]) == NextInput(Life(claimedAt, inputs), i)
  {
    assert (inputs + [i])[..|inputs|] == inputs;
  }

  /** The database calls of a task that has just woken, once its heartbeat and they have answered. */
  function LastCalls(claimedAt: Time, inputs: seq<Input>, answer: SaveAnswer): Task {
    Life(claimedAt, inputs + [HeartbeatEnds] + [SaveAnswers(answer)] + [ReleaseAnswers])
  }

  lemma FinishesAfter(t: Task, answer: SaveAnswer)
    requires t.stage.Finishing? && !t.stage.heartbeatOver && !t.stage.saveRaised && t.calls == []
    ensures var done := NextInput(NextInput(NextInput(t, HeartbeatEnds), SaveAnswers(answer)), ReleaseAnswers);
            && done.stage.Finished?
            && done.calls == (if t.stage.completed then [PersistReply(t.token, t.reply.text, t.reply.sources, answer)]
                              else [])
                             + (if !t.stage.completed || answer.SaveRaised? then [ReleaseClaim(t.token)] else [])
            && done.queue == t.queue + [End(if t.stage.completed && answer.Released? then Done else Failed)]
  {
  }

  /**
   Every woken task comes to its end: one that keeps its reply saves it, and
   also releases its claim when the save raised; any other releases its claim
   and saves nothing.
   */
  lemma WokenTaskFinishes(claimedAt: Time, inputs: seq<Input>, b: nat, e: nat, answer: SaveAnswer)
    requires inputs != [] && WakesAt(inputs, b, e, |inputs| - 1)
    ensures var token, queue := Life(claimedAt, inputs).token, Life(claimedAt, inputs).queue;
            var reply := Streamed(inputs, b, e);
            var done := LastCalls(claimedAt, inputs, answer);
            && done.stage.Finished?
            && (Kept(inputs, b, e, |inputs| - 1) ==>
                  && done.queue == queue + [End(if answer.Released? then Done else Failed)]
                  && done.calls == [PersistReply(token, reply.text, reply.sources, answer)]
                                   + if answer.SaveRaised? then [ReleaseClaim(token)] else [])
            && (!Kept(inputs, b, e, |inputs| - 1) ==>
                  done.queue == queue + [End(Failed)] && done.calls == [ReleaseClaim(token)])
  {
    var u := |inputs| - 1;
    SettlesUntilItWakes(claimedAt, inputs, b, e, u);
    WakesToKeep(claimedAt, inputs, b, e, u);
    TurnEnd(claimedAt, inputs[..u]);
    FinishesAfter(Life(claimedAt, inputs), answer);
    LifeOn(claimedAt, inputs, HeartbeatEnds);
    LifeOn(claimedAt, inputs + [HeartbeatEnds], SaveAnswers(answer));
    LifeOn(claimedAt, inputs + [HeartbeatEnds] + [SaveAnswers(answer)], ReleaseAnswers);
  }

  /** A drain or the deadline that arrives before the wake-up wins over a Stop and over a natural end. */
  lemma {:induction false} CancelStoresNothing(claimedAt: Time, before: seq<Input>, after: seq<Input>)
    requires BeforeWake(Life(claimedAt, before).stage)
    ensures var t := Life(claimedAt, before + [Cancel] + after);
            t.cancelling && !Saving(t) && (t.stage.Finished? ==> t.calls == [ReleaseClaim(t.token)])
  {
    var all := before + [Cancel] + after;
    TurnEnd(claimedAt, all);
    if after == [] {
      assert all[..|all| - 1] == before;
      TurnEnd(claimedAt, before);
    } else {
      assert all[..|all| - 1] == before + [Cancel] + after[..|after| - 1];
      CancelStoresNothing(claimedAt, before, after[..|after| - 1]);
    }
  }

  /** A task that has been stopped never streams, or never streams again. */
  predicate Quiet(t: Task) {
    t.stopped && !t.stage.Streaming?
  }

  lemma QuietStays(t: Task, i: Input)
    requires Quiet(t)
    ensures Quiet(NextInput(t, i))
  {
  }

  /** A Stop keeps what was written so far: nothing is emitted after it. */
  lemma {:induction false} StopFreezesTheReply(claimedAt: Time, before: seq<Input>, after: seq<Input>)
    ensures Quiet(Life(claimedAt, before + [Stop] + after))
    ensures Emitted(claimedAt, before + [Stop] + after) == Emitted(claimedAt, before)
  {
    var all := before + [Stop] + after;
    if after == [] {
      assert all[..|all| - 1] == before;
    } else {
      var init := before + [Stop] + after[..|after| - 1];
      assert all[..|all| - 1] == init;
      StopFreezesTheReply(claimedAt, before, after[..|after| - 1]);
      QuietStays(Life(claimedAt, init), all[|all| - 1]);
    }
  }

  /** The task's own object: its fields change as the event loop calls in. */
  class Turn {
    var token: Time
    var buffer: seq<string>
    var sources: seq<Source>
    var queue: seq<Item>
    var stopped: bool
    var cancelling: bool
    var stage: Stage
    var calls: seq<Call>

    function State(): Task
      reads this
    {
      Task(token, Reply(Join(buffer), sources), queue, stopped, cancelling, stage, calls)
    }

    constructor (claimedAt: Time)
      ensures State() == NewTask(claimedAt)
    {
      token, buffer, sources, queue := claimedAt, [], [], [];
      stopped, cancelling, stage, calls := false, false, Waiting, [];
    }

    method SetDefault(s: Source)
      modifies this`sources
      ensures sources == Keep(old(sources), s)
    {
      var k := 0;
      while k < |sources| && ServerKey(sources[k]) != ServerKey(s)
        invariant k <= |sources| && sources == old(sources)
        invariant forall j :: 0 <= j < k ==> ServerKey(sources[j]) != ServerKey(s)
      {
        k := k + 1;
      }
      if k == |sources| {
        sources := sources + [s];
      }
    }

    /** One pass of `consume`'s loop. */
    method Consume(event: Event)
      modifies this`buffer, this`sources, this`queue
      ensures State() == NextInput(old(State()), Emit(event))
    {
      if !stage.Streaming? {
        return;
      }
      match event {
        case Content(text) =>
          assert (buffer + [text])[..|buffer + [text]| - 1] == buffer;
          buffer := buffer + [text];
        case Retract(text) =>
          var whole := Join(buffer);
          if text != "" && EndsWith(whole, text) {
            var kept := whole[..|whole| - |text|];
            buffer := [kept];
            assert Join(buffer) == kept by { assert buffer[..0] == []; }
          }
        case Status(_) =>
        case Sources(batch) =>
          for k := 0 to |batch|
            invariant sources == KeepAll(old(sources), batch[..k])
            invariant buffer == old(buffer) && queue == old(queue)
          {
            assert batch[..k + 1][..k] == batch[..k];
            SetDefault(batch[k]);
          }
          assert batch[..|batch|] == batch;
      }
      queue := queue + [Ev(event)];
    }

    /** `stop`: cancels only the inner consumption. */
    method StopReply()
      modifies this`stopped, this`stage
      ensures State() == NextInput(old(State()), Stop)
    {
      stopped := true;
      if stage.Streaming? {
        stage := Interrupted;
      }
    }

    /** `_run` wakes with the consumer's end and decides what to keep. */
    method WakeUp()
      modifies this`stage
      ensures State() == NextInput(old(State()), Wake)
    {
      if !BeforeWake(stage) || stage.Streaming? {
        return;
      }
      var completed := false;
      if !cancelling && (stage.StreamEnded? || (stage.Interrupted? && stopped)) {
        var text := Join(buffer);
        var k := 0;
        while k < |text| && IsSpace(text[k])
          invariant k <= |text| && forall j :: 0 <= j < k ==> IsSpace(text[j])
        {
          k := k + 1;
        }
        completed := k < |text|;
      }
      stage := Finishing(completed, false, false);
    }

    /** `_finish` after the heartbeat has ended; `answer` is the save's outcome, if one is tried. */
    method Finish(answer: SaveAnswer) returns (stored: bool)
      requires stage.Finishing? && stage.heartbeatOver && !stage.saveRaised
      modifies this`stage, this`calls, this`queue
      ensures stored == (old(stage.completed) && answer.Released?)
      ensures State() == if !old(stage.completed) then NextInput(old(State()), ReleaseAnswers)
                         else if answer.SaveRaised? then
                           NextInput(NextInput(old(State()), SaveAnswers(answer)), ReleaseAnswers)
                         else NextInput(old(State()), SaveAnswers(answer))
    {
      stored := false;
      if !stage.completed {
        calls := calls + [ReleaseClaim(token)];
      } else {
        calls := calls + [PersistReply(token, Join(buffer), sources, answer)];
        if answer.SaveRaised? {
          calls := calls + [ReleaseClaim(token)];
        }
        stored := answer.Released?;
      }
      stage := Finished;
      queue := queue + [End(if stored then Done else Failed)];
    }
  }
}
