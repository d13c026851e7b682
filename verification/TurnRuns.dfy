/**
 One reply's task inside a run of everything else: the inputs of Turns joined
 with the transactions of ReplyRuns. What the task is answered is what its own
 refresh, save or release did to the row, with every other turn, send, retry
 and the delete free to come between. Its process does not die.
 */
module TurnRuns {
  import opened Wrappers
  import opened Folds
  import opened Conversations
  import opened ReplyRuns
  import opened Sse
  import opened Wire
  import Pipeline
  import Turns

  datatype JointEvent =
    | Inside(input: Turns.Input)
    | RefreshClaim(now: Time, outcome: ReplyRuns.Outcome)
    | SaveReply(id: Id, now: Time, outcome: ReplyRuns.Outcome)
    | ReleaseTheClaim(now: Time, outcome: ReplyRuns.Outcome)
    | Outside(step: Step)

  /** The world, and the inputs the task has had. */
  datatype Joint = Joint(w: World, inputs: seq<Turns.Input>)

  /** Inputs that are no answer of the database. */
  predicate Unanswered(i: Turns.Input) {
    !i.Refreshed? && !i.SaveAnswers? && !i.ReleaseAnswers?
  }

  predicate OwnStep(x: nat, s: Step) {
    match s
    case Read(i) => i == x
    case Beat(i, _, _) => i == x
    case Save(i, _, _, _, _, _) => i == x
    case GiveUp(i, _, _) => i == x
    case Die(i) => i == x
    case _ => false
  }

  predicate MaySave(x: nat, w: World, t: Turns.Task, id: Id, now: Time, outcome: ReplyRuns.Outcome) {
    && x < |w.turns| && w.clock <= now
    && t.stage.Finishing? && t.stage.heartbeatOver && t.stage.completed && !t.stage.saveRaised
    && (w.row.Some? ==> !Stored(w.row.value.log, id))
    && (outcome.AnswerLost? ==> t.token < now)
  }

  predicate MayRelease(x: nat, w: World, t: Turns.Task, now: Time) {
    && x < |w.turns| && w.clock <= now
    && t.stage.Finishing? && t.stage.heartbeatOver && (!t.stage.completed || t.stage.saveRaised)
  }

  function SaveStepOf(x: nat, t: Turns.Task, id: Id, now: Time, outcome: ReplyRuns.Outcome): Step {
    Save(x, id, t.reply.text, t.reply.sources, now, outcome)
  }

  function AnswerOf(w: World, t: Turns.Task, outcome: ReplyRuns.Outcome): Turns.SaveAnswer {
    if !outcome.Committed? then Turns.SaveRaised
    else if Holds(w.row, t.token) then Turns.Released
    else Turns.NotHeld
  }

  function NextJoint(x: nat, claimedAt: Time, j: Joint, e: JointEvent): Joint {
    var t := Turns.Life(claimedAt, j.inputs);
    match e
    case Inside(i) => if Unanswered(i) then j.(inputs := j.inputs + [i]) else j
    case RefreshClaim(now, outcome) =>
      if x < |j.w.turns| && j.w.clock <= now && Turns.HeartbeatRuns(t.stage) then
        Joint(Next(j.w, Beat(x, now, outcome)),
              if outcome.Committed? && Holds(j.w.row, t.token) then j.inputs + [Turns.Refreshed(now)] else j.inputs)
      else j
    case SaveReply(id, now, outcome) =>
      if MaySave(x, j.w, t, id, now, outcome) then
        Joint(Next(j.w, SaveStepOf(x, t, id, now, outcome)),
              j.inputs + [Turns.SaveAnswers(AnswerOf(j.w, t, outcome))])
      else j
    case ReleaseTheClaim(now, outcome) =>
      if MayRelease(x, j.w, t, now) then
        Joint(Next(j.w, GiveUp(x, now, outcome)), j.inputs + [Turns.ReleaseAnswers])
      else j
    case Outside(s) => if OwnStep(x, s) then j else j.(w := Next(j.w, s))
  }

  function RunOf(x: nat, claimedAt: Time, start: World, events: seq<JointEvent>): Joint {
    if events == [] then Joint(start, [])
    else NextJoint(x, claimedAt, RunOf(x, claimedAt, start, events[..|events| - 1]), events[|events| - 1])
  }

  /** Turn `x` has just been started as a task: it has its claim's token and its history. */
  ghost predicate Begins(x: nat, claimedAt: Time, w: World) {
    Inv(w) && x < |w.turns| && w.turns[x].phase.Running? && w.turns[x].token == claimedAt
  }

  /** The turn's phase in the world, from its task. */
  predicate PhaseOf(t: Turns.Task, phase: Phase) {
    match t.stage
    case Finishing(_, _, saveRaised) => if saveRaised then phase.Broken? else phase.Running?
    case Finished => phase == Over(Turns.MarkerOf(t.calls))
    case _ => phase.Running?
  }

  ghost predicate JointInv(x: nat, w: World, t: Turns.Task) {
    && Inv(w) && Turns.CallsInv(t)
    && x < |w.turns| && w.turns[x].token == t.token && PhaseOf(t, w.turns[x].phase)
  }

  lemma LifeMore(claimedAt: Time, inputs: seq<Turns.Input>, i: Turns.Input)
    ensures Turns.Life(claimedAt, inputs + [i]) == Turns.NextInput(Turns.Life(claimedAt, inputs), i)
  {
    assert (inputs + [i])[..|inputs|] == inputs;
  }

  lemma OthersLeaveTheTurn(x: nat, w: World, s: Step)
    requires x < |w.turns| && !OwnStep(x, s)
    ensures x < |Next(w, s).turns| && Next(w, s).turns[x] == w.turns[x]
  {
  }

  lemma InsideKeeps(x: nat, w: World, t: Turns.Task, i: Turns.Input)
    requires JointInv(x, w, t) && Unanswered(i)
    ensures JointInv(x, w, Turns.NextInput(t, i))
  {
    Turns.CallsInvStep(t, i);
  }

  lemma RefreshKeeps(x: nat, w: World, t: Turns.Task, now: Time, outcome: ReplyRuns.Outcome)
    requires JointInv(x, w, t) && w.clock <= now && Turns.HeartbeatRuns(t.stage)
    ensures JointInv(x, Next(w, Beat(x, now, outcome)),
                     if outcome.Committed? && Holds(w.row, t.token)
                     then Turns.NextInput(t, Turns.Refreshed(now)) else t)
  {
    InvStep(w, Beat(x, now, outcome));
    Turns.CallsInvStep(t, Turns.Refreshed(now));
  }

  lemma SavedTextIsNotEmpty(t: Turns.Task)
    requires Turns.CallsInv(t) && t.stage.Finishing? && t.stage.completed
    ensures t.reply.text != ""
  {
  }

  lemma SaveKeeps(x: nat, w: World, t: Turns.Task, id: Id, now: Time, outcome: ReplyRuns.Outcome)
    requires JointInv(x, w, t) && MaySave(x, w, t, id, now, outcome)
    ensures JointInv(x, Next(w, SaveStepOf(x, t, id, now, outcome)),
                     Turns.NextInput(t, Turns.SaveAnswers(AnswerOf(w, t, outcome))))
  {
    InvStep(w, SaveStepOf(x, t, id, now, outcome));
    Turns.CallsInvStep(t, Turns.SaveAnswers(AnswerOf(w, t, outcome)));
    SavedTextIsNotEmpty(t);
  }

  lemma ReleaseKeeps(x: nat, w: World, t: Turns.Task, now: Time, outcome: ReplyRuns.Outcome)
    requires JointInv(x, w, t) && MayRelease(x, w, t, now)
    ensures JointInv(x, Next(w, GiveUp(x, now, outcome)), Turns.NextInput(t, Turns.ReleaseAnswers))
  {
    InvStep(w, GiveUp(x, now, outcome));
    Turns.CallsInvStep(t, Turns.ReleaseAnswers);
  }

  lemma JointStep(x: nat, claimedAt: Time, j: Joint, e: JointEvent)
    requires JointInv(x, j.w, Turns.Life(claimedAt, j.inputs))
    ensures var j' := NextJoint(x, claimedAt, j, e); JointInv(x, j'.w, Turns.Life(claimedAt, j'.inputs))
  {
    var t := Turns.Life(claimedAt, j.inputs);
    match e
    case Inside(i) =>
      if Unanswered(i) {
        InsideKeeps(x, j.w, t, i);
        LifeMore(claimedAt, j.inputs, i);
      }
    case RefreshClaim(now, outcome) =>
      if j.w.clock <= now && Turns.HeartbeatRuns(t.stage) {
        RefreshKeeps(x, j.w, t, now, outcome);
        LifeMore(claimedAt, j.inputs, Turns.Refreshed(now));
      }
    case SaveReply(id, now, outcome) =>
      if MaySave(x, j.w, t, id, now, outcome) {
        SaveKeeps(x, j.w, t, id, now, outcome);
        LifeMore(claimedAt, j.inputs, Turns.SaveAnswers(AnswerOf(j.w, t, outcome)));
      }
    case ReleaseTheClaim(now, outcome) =>
      if MayRelease(x, j.w, t, now) {
        ReleaseKeeps(x, j.w, t, now, outcome);
        LifeMore(claimedAt, j.inputs, Turns.ReleaseAnswers);
      }
    case Outside(s) =>
      if !OwnStep(x, s) {
        InvStep(j.w, s);
        OthersLeaveTheTurn(x, j.w, s);
      }
  }

  /** In every run the task and its turn in the world go together. */
  lemma {:induction false} EveryRunKeepsJoint(x: nat, claimedAt: Time, start: World, events: seq<JointEvent>)
    requires Begins(x, claimedAt, start)
    ensures var j := RunOf(x, claimedAt, start, events); JointInv(x, j.w, Turns.Life(claimedAt, j.inputs))
  {
    if events != [] {
      EveryRunKeepsJoint(x, claimedAt, start, events[..|events| - 1]);
      JointStep(x, claimedAt, RunOf(x, claimedAt, start, events[..|events| - 1]), events[|events| - 1]);
    }
  }

  /** The save that was answered "released". */
  predicate SaidReleased(t: Turns.Task) {
    t.calls != [] && t.calls[0].PersistReply? && t.calls[0].answer.Released?
  }

  /**
   Event `e` is a save that appends `reply` to the very log the turn's model
   call read, and frees the conversation; its answer may be lost.
   */
  predicate StoresReply(x: nat, claimedAt: Time, j: Joint, e: JointEvent, reply: Reply) {
    && e.SaveReply? && j.w.row.Some?
    && x < |j.w.turns| && j.w.turns[x].phase == Running(j.w.row.value.log)
    && NextJoint(x, claimedAt, j, e).w.row ==
       Some(Conv(j.w.row.value.owner, None,
                 j.w.row.value.log + [Message(e.id, Assistant, reply.text, reply.sources)]))
  }

  /** Some save of the run stored `reply`, and its answer came or was lost, as `answered` says. */
  ghost predicate StoredIn(
    x: nat, claimedAt: Time, start: World, events: seq<JointEvent>, reply: Reply, answered: bool)
  {
    exists k :: 0 <= k < |events| && StoresAt(x, claimedAt, start, events, k, reply, answered)
  }

  predicate StoresAt(
    x: nat, claimedAt: Time, start: World, events: seq<JointEvent>, k: nat, reply: Reply, answered: bool)
    requires k < |events|
  {
    && StoresReply(x, claimedAt, RunOf(x, claimedAt, start, events[..k]), events[k], reply)
    && (events[k].outcome.Committed? <==> answered)
  }

  lemma StoredLater(x: nat, claimedAt: Time, start: World, events: seq<JointEvent>, reply: Reply, answered: bool)
    requires events != []
    ensures var front := events[..|events| - 1];
            StoredIn(x, claimedAt, start, events, reply, answered) <==>
            || StoredIn(x, claimedAt, start, front, reply, answered)
            || StoresAt(x, claimedAt, start, events, |front|, reply, answered)
  {
    var front := events[..|events| - 1];
    forall k | 0 <= k < |front|
      ensures StoresAt(x, claimedAt, start, events, k, reply, answered) <==>
              StoresAt(x, claimedAt, start, front, k, reply, answered)
    {
      assert front[..k] == events[..k] && front[k] == events[k];
    }
  }

  lemma AppendedAlike(log: seq<Message>, a: Message, b: Message)
    ensures log + [a] == log + [b] <==> a == b
  {
    assert (log + [a])[|log|] == a && (log + [b])[|log|] == b;
  }

  /** What a save that is tried does to the row and to its turn. */
  lemma SaveOutcome(x: nat, w: World, t: Turns.Task, id: Id, now: Time, outcome: ReplyRuns.Outcome)
    requires JointInv(x, w, t) && MaySave(x, w, t, id, now, outcome)
    ensures w.turns[x].phase.Running? && !w.turns[x].stored
    ensures var w' := Next(w, SaveStepOf(x, t, id, now, outcome));
            var stores := Holds(w.row, t.token) && !outcome.RolledBack?;
            && w'.turns[x].stored == stores
            && (!stores ==> w'.row == w.row)
            && (stores ==> w'.row ==
                           Some(Conv(w.row.value.owner, None,
                                     w.row.value.log + [Message(id, Assistant, t.reply.text, t.reply.sources)])))
            && (stores ==> w.turns[x].phase == Running(w.row.value.log))
  {
    SavedTextIsNotEmpty(t);
    if Holds(w.row, t.token) { assert w.holder == Some(x); }
  }

  /** A save stores exactly when the row still carries the task's token and it is not rolled back. */
  lemma SaveStoresExactly(
    x: nat, claimedAt: Time, j: Joint, id: Id, now: Time, outcome: ReplyRuns.Outcome, reply: Reply)
    requires JointInv(x, j.w, Turns.Life(claimedAt, j.inputs))
    requires MaySave(x, j.w, Turns.Life(claimedAt, j.inputs), id, now, outcome)
    ensures var t := Turns.Life(claimedAt, j.inputs);
            StoresReply(x, claimedAt, j, SaveReply(id, now, outcome), reply) <==>
            Holds(j.w.row, t.token) && !outcome.RolledBack? && reply == t.reply
  {
    var t := Turns.Life(claimedAt, j.inputs);
    SaveOutcome(x, j.w, t, id, now, outcome);
    if j.w.row.Some? {
      var log := j.w.row.value.log;
      AppendedAlike(log, Message(id, Assistant, reply.text, reply.sources),
                    Message(id, Assistant, t.reply.text, t.reply.sources));
      assert |log + [Message(id, Assistant, reply.text, reply.sources)]| == |log| + 1;
    }
  }

  lemma NotSavingStoresNothing(x: nat, claimedAt: Time, j: Joint, e: JointEvent, reply: Reply)
    requires e.SaveReply? && !MaySave(x, j.w, Turns.Life(claimedAt, j.inputs), e.id, e.now, e.outcome)
    ensures !StoresReply(x, claimedAt, j, e, reply)
  {
  }

  /** What a joint event may have changed of a save's two signs: the answer, and the turn's mark in the world. */
  ghost predicate Signs(x: nat, t: Turns.Task, w: World, t': Turns.Task, w': World, answered: bool, lost: bool) {
    && x < |w.turns| && x < |w'.turns|
    && (SaidReleased(t') <==> SaidReleased(t) || answered)
    && (w'.turns[x].stored <==> w.turns[x].stored || answered || lost)
    && (answered || lost ==> !SaidReleased(t) && !w.turns[x].stored)
    && (w.turns[x].stored || answered || lost ==> t'.reply == t.reply)
  }

  lemma TriedSaveSigns(x: nat, claimedAt: Time, j: Joint, e: JointEvent)
    requires e.SaveReply? && JointInv(x, j.w, Turns.Life(claimedAt, j.inputs))
    requires MaySave(x, j.w, Turns.Life(claimedAt, j.inputs), e.id, e.now, e.outcome)
    ensures var t, j' := Turns.Life(claimedAt, j.inputs), NextJoint(x, claimedAt, j, e);
            var stores := StoresReply(x, claimedAt, j, e, t.reply);
            Signs(x, t, j.w, Turns.Life(claimedAt, j'.inputs), j'.w,
                  stores && e.outcome.Committed?, stores && !e.outcome.Committed?)
  {
    var t := Turns.Life(claimedAt, j.inputs);
    SaveStoresExactly(x, claimedAt, j, e.id, e.now, e.outcome, t.reply);
    SaveOutcome(x, j.w, t, e.id, e.now, e.outcome);
    LifeMore(claimedAt, j.inputs, Turns.SaveAnswers(AnswerOf(j.w, t, e.outcome)));
  }

  predicate PastTheSave(t: Turns.Task) {
    t.stage.Finished? || (t.stage.Finishing? && t.stage.saveRaised)
  }

  lemma OtherInput(t: Turns.Task, i: Turns.Input)
    requires Turns.CallsInv(t) && !i.SaveAnswers?
    ensures SaidReleased(Turns.NextInput(t, i)) <==> SaidReleased(t)
    ensures PastTheSave(t) ==> Turns.NextInput(t, i).reply == t.reply
  {
  }

  lemma OtherEventInput(x: nat, claimedAt: Time, j: Joint, e: JointEvent)
    requires JointInv(x, j.w, Turns.Life(claimedAt, j.inputs)) && !e.SaveReply?
    ensures var t, t' := Turns.Life(claimedAt, j.inputs), Turns.Life(claimedAt, NextJoint(x, claimedAt, j, e).inputs);
            && (SaidReleased(t') <==> SaidReleased(t))
            && (PastTheSave(t) ==> t'.reply == t.reply)
  {
    var inputs := NextJoint(x, claimedAt, j, e).inputs;
    if inputs != j.inputs {
      var i := inputs[|inputs| - 1];
      assert inputs == j.inputs + [i] && !i.SaveAnswers?;
      LifeMore(claimedAt, j.inputs, i);
      OtherInput(Turns.Life(claimedAt, j.inputs), i);
    }
  }

  lemma OtherEventMark(x: nat, claimedAt: Time, j: Joint, e: JointEvent)
    requires x < |j.w.turns| && !e.SaveReply?
    ensures var j' := NextJoint(x, claimedAt, j, e);
            x < |j'.w.turns| && j'.w.turns[x].stored == j.w.turns[x].stored
  {
    match e
    case Outside(s) => if !OwnStep(x, s) { OthersLeaveTheTurn(x, j.w, s); }
    case _ =>
  }

  /** A turn marked as stored is past its save. */
  lemma StoredIsPastTheSave(x: nat, w: World, t: Turns.Task)
    requires JointInv(x, w, t) && w.turns[x].stored
    ensures PastTheSave(t)
  {
  }

  lemma EventSigns(x: nat, claimedAt: Time, j: Joint, e: JointEvent)
    requires JointInv(x, j.w, Turns.Life(claimedAt, j.inputs))
    ensures var t, j' := Turns.Life(claimedAt, j.inputs), NextJoint(x, claimedAt, j, e);
            var stores := StoresReply(x, claimedAt, j, e, t.reply);
            Signs(x, t, j.w, Turns.Life(claimedAt, j'.inputs), j'.w,
                  stores && e.outcome.Committed?, stores && !e.outcome.Committed?)
  {
    var t := Turns.Life(claimedAt, j.inputs);
    if j.w.turns[x].stored { StoredIsPastTheSave(x, j.w, t); }
    if !e.SaveReply? {
      OtherEventInput(x, claimedAt, j, e);
      OtherEventMark(x, claimedAt, j, e);
    } else if MaySave(x, j.w, t, e.id, e.now, e.outcome) {
      TriedSaveSigns(x, claimedAt, j, e);
    } else {
      NotSavingStoresNothing(x, claimedAt, j, e, t.reply);
    }
  }

  /** Whatever is stored is the reply of the task, then and from then on. */
  lemma OnlyItsReply(x: nat, claimedAt: Time, j: Joint, e: JointEvent, reply: Reply)
    requires JointInv(x, j.w, Turns.Life(claimedAt, j.inputs)) && StoresReply(x, claimedAt, j, e, reply)
    ensures reply == Turns.Life(claimedAt, j.inputs).reply
  {
    var t := Turns.Life(claimedAt, j.inputs);
    if MaySave(x, j.w, t, e.id, e.now, e.outcome) {
      SaveStoresExactly(x, claimedAt, j, e.id, e.now, e.outcome, reply);
    } else {
      NotSavingStoresNothing(x, claimedAt, j, e, reply);
    }
  }

  /** What a run's saves came to, by the answer that was read and by the turn's mark in the world. */
  ghost predicate Accounted(x: nat, claimedAt: Time, start: World, events: seq<JointEvent>, reply: Reply) {
    var j := RunOf(x, claimedAt, start, events);
    var t := Turns.Life(claimedAt, j.inputs);
    && x < |j.w.turns|
    && (StoredIn(x, claimedAt, start, events, reply, true) <==> SaidReleased(t) && reply == t.reply)
    && (StoredIn(x, claimedAt, start, events, reply, false) <==>
        j.w.turns[x].stored && !SaidReleased(t) && reply == t.reply)
    && (SaidReleased(t) ==> j.w.turns[x].stored)
  }

  lemma AccountedStep(x: nat, claimedAt: Time, start: World, events: seq<JointEvent>, reply: Reply)
    requires events != [] && Begins(x, claimedAt, start)
    requires Accounted(x, claimedAt, start, events[..|events| - 1], reply)
    ensures Accounted(x, claimedAt, start, events, reply)
  {
    var front, e := events[..|events| - 1], events[|events| - 1];
    var j := RunOf(x, claimedAt, start, front);
    EveryRunKeepsJoint(x, claimedAt, start, front);
    StoredLater(x, claimedAt, start, events, reply, true);
    StoredLater(x, claimedAt, start, events, reply, false);
    EventSigns(x, claimedAt, j, e);
    if StoresReply(x, claimedAt, j, e, reply) { OnlyItsReply(x, claimedAt, j, e, reply); }
  }

  lemma {:induction false} EveryRunIsAccounted(
    x: nat, claimedAt: Time, start: World, events: seq<JointEvent>, reply: Reply)
    requires Begins(x, claimedAt, start)
    ensures Accounted(x, claimedAt, start, events, reply)
  {
    EveryRunKeepsJoint(x, claimedAt, start, events);
    if events != [] {
      EveryRunIsAccounted(x, claimedAt, start, events[..|events| - 1], reply);
      AccountedStep(x, claimedAt, start, events, reply);
    }
  }

  /**
   In every run the turn has stored exactly when some save of it did, always
   its own reply: its save was answered "released" exactly when that save's
   answer came, and else the answer was lost.
   */
  lemma StoredExactlyWhen(x: nat, claimedAt: Time, start: World, events: seq<JointEvent>)
    requires Begins(x, claimedAt, start)
    ensures var j := RunOf(x, claimedAt, start, events);
            var t := Turns.Life(claimedAt, j.inputs);
            && x < |j.w.turns|
            && (j.w.turns[x].stored <==> || StoredIn(x, claimedAt, start, events, t.reply, true)
                                         || StoredIn(x, claimedAt, start, events, t.reply, false))
            && (SaidReleased(t) <==> StoredIn(x, claimedAt, start, events, t.reply, true))
            && (SaidReleased(t) ==> !StoredIn(x, claimedAt, start, events, t.reply, false))
            && (forall reply, answered :: StoredIn(x, claimedAt, start, events, reply, answered) ==> reply == t.reply)
  {
    forall reply, answered | StoredIn(x, claimedAt, start, events, reply, answered)
      ensures reply == Turns.Life(claimedAt, RunOf(x, claimedAt, start, events).inputs).reply
    {
      EveryRunIsAccounted(x, claimedAt, start, events, reply);
    }
    EveryRunIsAccounted(x, claimedAt, start, events,
                        Turns.Life(claimedAt, RunOf(x, claimedAt, start, events).inputs).reply);
  }

  /**
   From the database to the page: in every run, and for every split of the
   bytes, the page reads success exactly when a save stored the very reply it
   shows, after the very messages its model call read, and was answered.
   */
  lemma PageReadsSuccessExactlyWhenStored(
    x: nat, claimedAt: Time, start: World, events: seq<JointEvent>, conversationId: string, frames: seq<Frame>,
    chunks: seq<string>, rejected: bool)
    requires Begins(x, claimedAt, start)
    requires var t := Turns.Life(claimedAt, RunOf(x, claimedAt, start, events).inputs);
             t.stage.Finished? && Pipeline.FramesOf(frames, conversationId, t) && Flatten(chunks) == WireText(frames)
    ensures var r := ReadOnce(Flatten(chunks), rejected);
            r.1 == Replied <==> StoredIn(x, claimedAt, start, events, Pipeline.PageFold(EMPTY, r.0), true)
  {
    var inputs := RunOf(x, claimedAt, start, events).inputs;
    Pipeline.PageShowsWhatIsStored(claimedAt, inputs, conversationId, frames, chunks, rejected);
    EveryRunIsAccounted(x, claimedAt, start, events,
                        Pipeline.PageFold(EMPTY, ReadOnce(Flatten(chunks), rejected).0));
  }
}
