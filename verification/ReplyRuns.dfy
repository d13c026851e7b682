/**
 Every interleaving of sends, retries, refreshes, saves, releases, deaths and a
 delete over one conversation: the turn-claim lease of apps/api/turns.py and
 packages/db/repos/conversations.py as a step machine.

 One step is one transaction (or one read), run at a `now` that never goes
 back. A transaction may commit, commit with its answer lost, or roll back.
 A step that is not possible leaves the world as it is, so a claim about
 `Exec(Start(u), steps)` for all `steps` is a claim about every run.
 */
module ReplyRuns {
  import opened Wrappers
  import opened Events
  import opened Conversations
  import History

  datatype Outcome = Committed | AnswerLost | RolledBack
  datatype Marker = Done | Failed

  /** `Claimed`: the history is not read yet. `Broken`: the save raised, its release is still to come. */
  datatype Phase =
    | Claimed
    | Running(read: seq<Message>)
    | Broken
    | Over(marker: Marker)
    | Dead

  /** `token` is the turn's own copy, which may lag the row; `base` is the log its claim transaction left. */
  datatype Turn = Turn(token: Time, base: seq<Message>, phase: Phase, stored: bool)

  /** `holder` is the turn whose claim the row carries, while that turn is not over. */
  datatype World = World(row: Option<Conv>, turns: seq<Turn>, holder: Option<nat>, clock: Time)

  datatype Step =
    | Send(user: Id, prompt: string, id: Id, elsewhere: bool, now: Time, outcome: Outcome)
    | Retry(user: Id, after: Id, replace: bool, now: Time, outcome: Outcome)
    | Read(turn: nat)
    | Beat(turn: nat, now: Time, outcome: Outcome)
    | Save(turn: nat, id: Id, content: string, sources: seq<Source>, now: Time, outcome: Outcome)
    | GiveUp(turn: nat, now: Time, outcome: Outcome)
    | Die(turn: nat)
    | DeleteConversation(user: Id, now: Time)

  predicate Live(t: Turn) {
    !t.phase.Over? && !t.phase.Dead?
  }

  function Start(owner: Id, now: Time): World {
    World(Some(Conv(owner, None, [])), [], None, now)
  }

  /** A claim transaction: a new turn owns the row, or nobody does when the answer was lost. */
  function ClaimStep(w: World, claim: Result<Conv, Refusal>, now: Time, outcome: Outcome): World {
    var later := w.(clock := now);
    if claim.Failure? || outcome.RolledBack? then later
    else if outcome.AnswerLost? then later.(row := Some(claim.value), holder := None)
    else
      later.(row := Some(claim.value),
      turns := w.turns + [Turn(now, claim.value.log, Claimed, false)],
      holder := Some(|w.turns|))
  }

  function BeatStep(w: World, i: nat, now: Time, outcome: Outcome): World
    requires i < |w.turns|
  {
    var t, later := w.turns[i], w.(clock := now);
    if !t.phase.Running? || outcome.RolledBack? || !Holds(w.row, t.token) then later
    else
      var moved := later.(row := Refresh(w.row, t.token, now));
      if outcome.AnswerLost? then moved else moved.(turns := w.turns[i := t.(token := now)])
  }

  /** `_finish` with a reply to keep: `persist_assistant_turn`, then the marker the listener gets. */
  function SaveStep(w: World, i: nat, id: Id, content: string, sources: seq<Source>, now: Time, outcome: Outcome): World
    requires i < |w.turns|
  {
    var t, later := w.turns[i], w.(clock := now);
    if !t.phase.Running? || content == "" || (w.row.Some? && Stored(w.row.value.log, id)) then w
    else if outcome.RolledBack? then later.(turns := w.turns[i := t.(phase := Broken)])
    else if outcome.AnswerLost? && now <= t.token then w
    else
      var kept := Holds(w.row, t.token);
      var phase := if outcome.AnswerLost? then Broken else if kept then Over(Done) else Over(Failed);
      later.(row := PersistAssistantTurn(w.row, t.token, id, content, sources),
      turns := w.turns[i := t.(phase := phase, stored := kept)],
      holder := if (kept || phase.Over?) && w.holder == Some(i) then None else w.holder)
  }

  /** `release_claim`: nothing stored, whatever the transaction's fate. */
  function GiveUpStep(w: World, i: nat, now: Time, outcome: Outcome): World
    requires i < |w.turns|
  {
    var t, later := w.turns[i], w.(clock := now);
    if !Live(t) then w
    else
      later.(row := if outcome.RolledBack? then w.row else Release(w.row, t.token),
      turns := w.turns[i := t.(phase := Over(Failed))],
      holder := if w.holder == Some(i) then None else w.holder)
  }

  function Next(w: World, s: Step): World {
    match s
    case Send(user, prompt, id, elsewhere, now, outcome) =>
      if now < w.clock then w
      else ClaimStep(w, PersistUserTurn(w.row, user, prompt, id, elsewhere, now), now, outcome)
    case Retry(user, after, replace, now, outcome) =>
      if now < w.clock then w
      else ClaimStep(w, ClaimForRetry(w.row, user, after, replace, now), now, outcome)
    case Read(i) =>
      if i < |w.turns| && w.turns[i].phase.Claimed? && w.row.Some? then
        w.(turns := w.turns[i := w.turns[i].(phase := Running(w.row.value.log))])
      else w
    case Beat(i, now, outcome) =>
      if i < |w.turns| && w.clock <= now then BeatStep(w, i, now, outcome) else w
    case Save(i, id, content, sources, now, outcome) =>
      if i < |w.turns| && w.clock <= now then SaveStep(w, i, id, content, sources, now, outcome) else w
    case GiveUp(i, now, outcome) =>
      if i < |w.turns| && w.clock <= now then GiveUpStep(w, i, now, outcome) else w
    case Die(i) =>
      if i < |w.turns| && Live(w.turns[i]) then w.(turns := w.turns[i := w.turns[i].(phase := Dead)]) else w
    case DeleteConversation(user, now) =>
      if w.clock <= now && Owned(w.row, user) then World(None, w.turns, None, now) else w
  }

  function Exec(w: World, steps: seq<Step>): World {
    if steps == [] then w else Next(Exec(w, steps[..|steps| - 1]), steps[|steps| - 1])
  }

  /** Whoever the row's claim belongs to, its log is the one that claim left. */
  ghost predicate HolderInv(row: Conv, turns: seq<Turn>, h: nat) {
    && h < |turns|
    && row.streamingSince.Some?
    && turns[h].token <= row.streamingSince.value
    && !turns[h].phase.Over?
    && !turns[h].stored
    && turns[h].base == row.log
    && (turns[h].phase.Running? ==> turns[h].phase.read == row.log)
  }

  /** No live turn but the holder can match the row's claim, now or after any later claim. */
  ghost predicate Fenced(row: Conv, turns: seq<Turn>, holder: Option<nat>, clock: Time) {
    forall i :: 0 <= i < |turns| && Live(turns[i]) && holder != Some(i) ==>
      turns[i].token < clock && (row.streamingSince.Some? ==> turns[i].token < row.streamingSince.value)
  }

  ghost predicate Inv(w: World) {
    && (forall i :: 0 <= i < |w.turns| ==> w.turns[i].token <= w.clock)
    && (forall i :: 0 <= i < |w.turns| && w.turns[i].phase == Over(Done) ==> w.turns[i].stored)
    && (forall i :: 0 <= i < |w.turns| && w.turns[i].stored ==>
          !w.turns[i].phase.Claimed? && !w.turns[i].phase.Running?)
    && (w.row.Some? ==>
      var row := w.row.value;
      && History.LogShape(row.log)
      && DistinctIds(row.log)
      && (row.streamingSince.Some? ==>
        && row.streamingSince.value <= w.clock
        && row.log != [] && row.log[|row.log| - 1].role.User?)
      && (w.holder.Some? ==> HolderInv(row, w.turns, w.holder.value))
      && Fenced(row, w.turns, w.holder, w.clock))
    && (w.row.None? ==> w.holder.None?)
  }

  lemma BeatKeepsInv(w: World, i: nat, now: Time, outcome: Outcome)
    requires Inv(w) && i < |w.turns| && w.clock <= now
    ensures Inv(BeatStep(w, i, now, outcome))
  {
    var t := w.turns[i];
    if t.phase.Running? && Holds(w.row, t.token) {
      assert w.holder == Some(i);
    }
  }

  lemma SaveKeepsInv(w: World, i: nat, id: Id, content: string, sources: seq<Source>, now: Time, outcome: Outcome)
    requires Inv(w) && i < |w.turns| && w.clock <= now
    ensures Inv(SaveStep(w, i, id, content, sources, now, outcome))
  {
    var t := w.turns[i];
    if t.phase.Running? && Holds(w.row, t.token) {
      assert w.holder == Some(i);
    }
  }

  lemma GiveUpKeepsInv(w: World, i: nat, now: Time, outcome: Outcome)
    requires Inv(w) && i < |w.turns| && w.clock <= now
    ensures Inv(GiveUpStep(w, i, now, outcome))
  {
    var t := w.turns[i];
    if Live(t) && Holds(w.row, t.token) {
      assert w.holder == Some(i);
    }
  }

  /** What a claim may leave behind: the claim at `now` and a well-shaped log that waits for an answer. */
  ghost predicate GoodClaim(row: Option<Conv>, claim: Result<Conv, Refusal>, now: Time) {
    claim.Success? ==>
      && row.Some? && Free(row.value.streamingSince, now)
      && claim.value.streamingSince == Some(now)
      && History.LogShape(claim.value.log) && DistinctIds(claim.value.log)
      && claim.value.log != [] && claim.value.log[|claim.value.log| - 1].role.User?
  }

  lemma SendClaimsWell(row: Option<Conv>, user: Id, prompt: string, id: Id, elsewhere: bool, now: Time)
    requires row.Some? ==> History.LogShape(row.value.log) && DistinctIds(row.value.log)
    ensures GoodClaim(row, PersistUserTurn(row, user, prompt, id, elsewhere, now), now)
  {
  }

  lemma WithdrawnLogIsWell(log: seq<Message>, after: Id)
    requires History.LogShape(log) && DistinctIds(log) && Answered(log, after)
    ensures var rest := Without(log, log[|log| - 1].id);
            && History.LogShape(rest) && DistinctIds(rest) && rest != [] && rest[|rest| - 1].role.User?
  {
    WithoutLast(log);
  }

  lemma RetryClaimsWell(row: Option<Conv>, user: Id, after: Id, replace: bool, now: Time)
    requires row.Some? ==> History.LogShape(row.value.log) && DistinctIds(row.value.log)
    ensures GoodClaim(row, ClaimForRetry(row, user, after, replace, now), now)
  {
    if row.Some? && Answered(row.value.log, after) {
      WithdrawnLogIsWell(row.value.log, after);
    }
  }

  lemma ClaimKeepsInv(w: World, claim: Result<Conv, Refusal>, now: Time, outcome: Outcome)
    requires Inv(w) && w.clock <= now && GoodClaim(w.row, claim, now)
    ensures Inv(ClaimStep(w, claim, now, outcome))
  {
  }

  lemma InvStep(w: World, s: Step)
    requires Inv(w)
    ensures Inv(Next(w, s))
  {
    match s
    case Send(user, prompt, id, elsewhere, now, outcome) =>
      if w.clock <= now {
        SendClaimsWell(w.row, user, prompt, id, elsewhere, now);
        ClaimKeepsInv(w, PersistUserTurn(w.row, user, prompt, id, elsewhere, now), now, outcome);
      }
    case Retry(user, after, replace, now, outcome) =>
      if w.clock <= now {
        RetryClaimsWell(w.row, user, after, replace, now);
        ClaimKeepsInv(w, ClaimForRetry(w.row, user, after, replace, now), now, outcome);
      }
    case Beat(i, now, outcome) =>
      if i < |w.turns| && w.clock <= now { BeatKeepsInv(w, i, now, outcome); }
    case Save(i, id, content, sources, now, outcome) =>
      if i < |w.turns| && w.clock <= now { SaveKeepsInv(w, i, id, content, sources, now, outcome); }
    case GiveUp(i, now, outcome) =>
      if i < |w.turns| && w.clock <= now { GiveUpKeepsInv(w, i, now, outcome); }
    case Read(i) =>
    case Die(i) =>
    case DeleteConversation(user, now) =>
  }

  lemma {:induction false} EveryRunKeepsInv(owner: Id, start: Time, steps: seq<Step>)
    ensures Inv(Exec(Start(owner, start), steps))
  {
    if steps != [] {
      EveryRunKeepsInv(owner, start, steps[..|steps| - 1]);
      InvStep(Exec(Start(owner, start), steps[..|steps| - 1]), steps[|steps| - 1]);
    }
  }

  lemma ExecAppend(w: World, before: seq<Step>, after: seq<Step>)
    ensures Exec(w, before + after) == Exec(Exec(w, before), after)
  {
    if after == [] {
      assert before + after == before;
    } else {
      assert (before + after)[..|before + after| - 1] == before + after[..|after| - 1];
      ExecAppend(w, before, after[..|after| - 1]);
    }
  }

  /**
   Serial equivalence: while the row carries a live turn's token, the messages
   are exactly those its own claim left, and replaying them alternates.
   */
  lemma ClaimFreezesTheLog(owner: Id, start: Time, steps: seq<Step>, i: nat)
    requires var w := Exec(Start(owner, start), steps);
             i < |w.turns| && Live(w.turns[i]) && Holds(w.row, w.turns[i].token)
    ensures var w := Exec(Start(owner, start), steps);
            && w.row.value.log == w.turns[i].base
            && (w.turns[i].phase.Running? ==> w.turns[i].phase.read == w.row.value.log)
            && var h := History.Replay(w.row.value.log);
               && h != [] && h[0].role.User? && h[|h| - 1].role.User?
               && forall k :: 0 < k < |h| ==> h[k - 1].role != h[k].role
  {
    EveryRunKeepsInv(owner, start, steps);
    var w := Exec(Start(owner, start), steps);
    assert w.holder == Some(i);
    History.ReplayAlternates(w.row.value.log);
  }

  /** A reply that is stored directly extends the log its model call read, and frees the conversation with it. */
  lemma StoredReplyExtendsWhatWasRead(owner: Id, start: Time, steps: seq<Step>, s: Step)
    requires s.Save?
    requires var w := Exec(Start(owner, start), steps);
             s.turn < |w.turns| && !w.turns[s.turn].stored && Next(w, s).turns[s.turn].stored
    ensures var w := Exec(Start(owner, start), steps);
            && w.row.Some?
            && w.turns[s.turn].phase == Running(w.row.value.log)
            && Next(w, s).row == Some(Conv(w.row.value.owner, None,
                                           w.turns[s.turn].phase.read
                                           + [Message(s.id, Assistant, s.content, s.sources)]))
  {
    EveryRunKeepsInv(owner, start, steps);
    var w := Exec(Start(owner, start), steps);
    assert w.holder == Some(s.turn);
  }

  lemma RetryWithdrawsAtMostTheLastReply(row: Conv, user: Id, after: Id, replace: bool, now: Time)
    requires DistinctIds(row.log)
    ensures var claim := ClaimForRetry(Some(row), user, after, replace, now);
            claim.Success? && claim.value.log != row.log ==>
              replace && |row.log| >= 2 && AsksLast(row.log, after, |row.log| - 2)
              && claim.value.log == row.log[..|row.log| - 1]
  {
    if row.log != [] {
      WithoutLast(row.log);
    }
  }

  /** How step `s` may change a log that stays: a send's question, a retry's withdrawal, a stored reply. */
  ghost predicate Explains(s: Step, log: seq<Message>, log': seq<Message>) {
    match s
    case Send(_, prompt, id, _, _, _) => log' == log + [Message(id, User, prompt, [])]
    case Retry(_, after, replace, _, _) =>
      replace && |log| >= 2 && AsksLast(log, after, |log| - 2) && log' == log[..|log| - 1]
    case Save(_, id, content, sources, _, _) =>
      content != "" && log' == log + [Message(id, Assistant, content, sources)]
    case _ => false
  }

  lemma LogChangesOnlyWhere(w: World, s: Step)
    requires Inv(w) && w.row.Some? && Next(w, s).row.Some?
    ensures Next(w, s).row.value.log == w.row.value.log || Explains(s, w.row.value.log, Next(w, s).row.value.log)
  {
    match s
    case Retry(user, after, replace, now, _) =>
      RetryWithdrawsAtMostTheLastReply(w.row.value, user, after, replace, now);
    case _ =>
  }

  /** Whether `user` may claim the row at `now`, and what a claim that stores `log` leaves of the world. */
  predicate MayClaim(w: World, user: Id, now: Time) {
    && w.clock <= now && w.row.Some? && w.row.value.owner == user
    && (w.row.value.streamingSince.Some? ==> now - w.row.value.streamingSince.value > 120_000_000)
  }

  predicate ClaimsWith(w: World, w': World, now: Time, outcome: Outcome, log: seq<Message>)
    requires w.row.Some?
  {
    && w'.row == Some(Conv(w.row.value.owner, Some(now), log))
    && w'.turns == w.turns + if outcome.Committed? then [Turn(now, log, Claimed, false)] else []
  }

  /**
   A send that is not rolled back leaves the log it found with its question
   added, and a turn that starts from exactly that log unless the answer was
   lost; one that may not claim, or whose id is taken, leaves row and turns.
   */
  lemma SendLeavesItsQuestion(w: World, s: Step)
    requires s.Send?
    ensures if MayClaim(w, s.user, s.now) && !s.outcome.RolledBack? && !s.elsewhere
               && forall m :: m in w.row.value.log ==> m.id != s.id
            then ClaimsWith(w, Next(w, s), s.now, s.outcome, w.row.value.log + [Message(s.id, User, s.prompt, [])])
            else Next(w, s).row == w.row && Next(w, s).turns == w.turns
  {
    SendExactly(w.row, s.user, s.prompt, s.id, s.elsewhere, s.now);
  }

  /**
   A retry that is not rolled back leaves the log up to its question, and a
   turn that starts from exactly that log unless the answer was lost; one that
   may not claim, or whose question is not the last or has a reply to be kept,
   leaves row and turns.
   */
  lemma RetryLeavesItsQuestion(owner: Id, start: Time, steps: seq<Step>, s: Step, k: nat)
    requires s.Retry?
    ensures var w := Exec(Start(owner, start), steps);
            MayClaim(w, s.user, s.now) && !s.outcome.RolledBack? && AsksLast(w.row.value.log, s.after, k)
            && (k == |w.row.value.log| - 1 || s.replace) ==>
              ClaimsWith(w, Next(w, s), s.now, s.outcome, w.row.value.log[..k + 1])
    ensures var w := Exec(Start(owner, start), steps);
            || (Next(w, s).row == w.row && Next(w, s).turns == w.turns)
            || (MayClaim(w, s.user, s.now) && !s.outcome.RolledBack?
                && exists j: nat :: AsksLast(w.row.value.log, s.after, j)
                                    && (j == |w.row.value.log| - 1 || s.replace))
  {
    EveryRunKeepsInv(owner, start, steps);
    var w := Exec(Start(owner, start), steps);
    RetryExactly(w.row, s.user, s.after, s.replace, s.now);
  }

  /** A conversation goes exactly by a delete of its owner, and nothing comes back. */
  lemma OnlyItsOwnerDeletes(w: World, s: Step)
    ensures w.row.Some? ==> (Next(w, s).row.None? <==>
                               s.DeleteConversation? && w.clock <= s.now && s.user == w.row.value.owner)
    ensures w.row.None? ==> Next(w, s).row.None?
    ensures w.row.Some? && Next(w, s).row.Some? ==> Next(w, s).row.value.owner == w.row.value.owner
  {
  }

  /** A turn that ends without a reply frees the conversation it still holds, and changes nothing else of it. */
  lemma GivingUpFreesTheConversation(w: World, i: nat, now: Time, outcome: Outcome)
    requires i < |w.turns| && Live(w.turns[i]) && w.clock <= now
    ensures var w' := Next(w, GiveUp(i, now, outcome));
            && w'.turns[i].phase == Over(Failed) && w'.turns[i].stored == w.turns[i].stored
            && w'.row == if !outcome.RolledBack? && w.row.Some? && w.row.value.streamingSince == Some(w.turns[i].token)
                         then Some(Conv(w.row.value.owner, None, w.row.value.log)) else w.row
  {
  }

  ghost predicate Overtaken(w: World, i: nat) {
    i < |w.turns| && w.holder != Some(i) && !w.turns[i].stored
  }

  lemma OvertakenStep(w: World, s: Step, i: nat)
    requires Inv(w) && Overtaken(w, i)
    ensures Overtaken(Next(w, s), i)
  {
  }

  lemma {:induction false} OvertakenStays(owner: Id, start: Time, before: seq<Step>, after: seq<Step>, i: nat)
    requires Overtaken(Exec(Start(owner, start), before), i)
    ensures Overtaken(Exec(Start(owner, start), before + after), i)
  {
    if after == [] {
      assert before + after == before;
    } else {
      var init := before + after[..|after| - 1];
      assert (before + after)[..|before + after| - 1] == init;
      OvertakenStays(owner, start, before, after[..|after| - 1], i);
      EveryRunKeepsInv(owner, start, init);
      OvertakenStep(Exec(Start(owner, start), init), (before + after)[|before + after| - 1], i);
    }
  }

  /** Fencing: once another claim reached the row, no earlier turn ever stores, whatever follows. */
  lemma OvertakenTurnNeverStores(owner: Id, start: Time, before: seq<Step>, claim: Step, after: seq<Step>, i: nat)
    requires claim.Send? || claim.Retry?
    requires var w := Exec(Start(owner, start), before);
             i < |w.turns| && !w.turns[i].stored && Next(w, claim).row != w.row
    ensures var w := Exec(Start(owner, start), before + [claim] + after);
            i < |w.turns| && !w.turns[i].stored && w.turns[i].phase != Over(Done)
  {
    EveryRunKeepsInv(owner, start, before);
    assert (before + [claim])[..|before + [claim]| - 1] == before;
    OvertakenStays(owner, start, before + [claim], after, i);
    EveryRunKeepsInv(owner, start, before + [claim] + after);
  }

  /** A turn whose token the row has left behind, for good. */
  predicate LeftBehind(w: World, i: nat) {
    && i < |w.turns| && !w.turns[i].stored && w.turns[i].token < w.clock
    && (w.row.Some? && w.row.value.streamingSince.Some? ==> w.turns[i].token < w.row.value.streamingSince.value)
  }

  lemma LeftBehindStep(w: World, s: Step, i: nat)
    requires LeftBehind(w, i)
    ensures LeftBehind(Next(w, s), i) && Next(w, s).turns[i].token == w.turns[i].token
  {
  }

  lemma {:induction false} LeftBehindStays(w: World, steps: seq<Step>, i: nat)
    requires LeftBehind(w, i)
    ensures LeftBehind(Exec(w, steps), i)
  {
    if steps != [] {
      LeftBehindStays(w, steps[..|steps| - 1], i);
      LeftBehindStep(Exec(w, steps[..|steps| - 1]), steps[|steps| - 1], i);
    }
  }

  lemma ExecMore(w: World, steps: seq<Step>, s: Step)
    ensures Exec(w, steps + [s]) == Next(Exec(w, steps), s)
  {
    assert (steps + [s])[..|steps|] == steps;
  }

  lemma LostAnswerLeavesBehind(w: World, i: nat, now: Time)
    requires Inv(w) && i < |w.turns| && w.turns[i].phase.Running? && Holds(w.row, w.turns[i].token)
    requires w.clock <= now && w.turns[i].token < now
    ensures LeftBehind(Next(w, Beat(i, now, AnswerLost)), i)
  {
  }

  lemma NeverStoredFails(w: World, i: nat)
    requires Inv(w) && i < |w.turns| && !w.turns[i].stored
    ensures w.turns[i].phase.Over? ==> w.turns[i].phase == Over(Failed)
  {
    if w.turns[i].phase.Over? {
      var marker := w.turns[i].phase.marker;
      assert w.turns[i].phase == Over(marker) && (marker.Done? || marker.Failed?);
    }
  }

  /**
   A refresh that commits later than its turn's token, its answer lost, costs
   the turn its reply: whatever follows, it never stores or says done.
   */
  lemma LostAnswerNeverStores(owner: Id, start: Time, before: seq<Step>, now: Time, after: seq<Step>, i: nat)
    requires var w := Exec(Start(owner, start), before);
             && i < |w.turns| && w.turns[i].phase.Running? && Holds(w.row, w.turns[i].token)
             && w.clock <= now && w.turns[i].token < now
    ensures var w := Exec(Start(owner, start), before + [Beat(i, now, AnswerLost)] + after);
            && i < |w.turns| && !w.turns[i].stored
            && (w.turns[i].phase.Over? ==> w.turns[i].phase == Over(Failed))
  {
    var w, beat := Exec(Start(owner, start), before), Beat(i, now, AnswerLost);
    EveryRunKeepsInv(owner, start, before);
    LostAnswerLeavesBehind(w, i, now);
    ExecMore(Start(owner, start), before, beat);
    ExecAppend(Start(owner, start), before + [beat], after);
    LeftBehindStays(Next(w, beat), after, i);
    EveryRunKeepsInv(owner, start, before + [beat] + after);
    NeverStoredFails(Exec(Start(owner, start), before + [beat] + after), i);
  }

  ghost predicate StoredIsDone(turns: seq<Turn>) {
    forall i :: 0 <= i < |turns| ==> (turns[i].stored <==> turns[i].phase == Over(Done))
  }

  lemma StoredIsDoneStep(w: World, s: Step)
    requires StoredIsDone(w.turns) && (s.Save? ==> !s.outcome.AnswerLost?)
    ensures StoredIsDone(Next(w, s).turns)
  {
    match s
    case Save(_, _, _, _, _, _) =>
    case _ =>
  }

  /** The listener's "done" always means stored; without a lost answer it means exactly that. */
  lemma {:induction false} DoneMeansStored(owner: Id, start: Time, steps: seq<Step>)
    ensures var turns := Exec(Start(owner, start), steps).turns;
            && (forall i :: 0 <= i < |turns| && turns[i].phase == Over(Done) ==> turns[i].stored)
            && ((forall k :: 0 <= k < |steps| && steps[k].Save? ==> !steps[k].outcome.AnswerLost?) ==>
                 StoredIsDone(turns))
  {
    EveryRunKeepsInv(owner, start, steps);
    if steps != [] && forall k :: 0 <= k < |steps| && steps[k].Save? ==> !steps[k].outcome.AnswerLost? {
      DoneMeansStored(owner, start, steps[..|steps| - 1]);
      StoredIsDoneStep(Exec(Start(owner, start), steps[..|steps| - 1]), steps[|steps| - 1]);
    }
  }

  /** Every reachable log is well shaped. */
  lemma EveryLogIsWellShaped(owner: Id, start: Time, steps: seq<Step>)
    ensures var row := Exec(Start(owner, start), steps).row;
            row.Some? ==> History.LogShape(row.value.log) && DistinctIds(row.value.log)
  {
    EveryRunKeepsInv(owner, start, steps);
  }

  ghost predicate TokenCurrent(w: World) {
    w.holder.Some? ==> w.holder.value < |w.turns| && Holds(w.row, w.turns[w.holder.value].token)
  }

  lemma BeatKeepsTokenCurrent(w: World, i: nat, now: Time, outcome: Outcome)
    requires Inv(w) && TokenCurrent(w) && i < |w.turns| && !outcome.AnswerLost?
    ensures TokenCurrent(BeatStep(w, i, now, outcome))
  {
    assert w.turns[i].phase.Running? && Holds(w.row, w.turns[i].token) ==> w.holder == Some(i);
  }

  lemma SaveKeepsTokenCurrent(
    w: World, i: nat, id: Id, content: string, sources: seq<Source>, now: Time, outcome: Outcome)
    requires Inv(w) && TokenCurrent(w) && i < |w.turns|
    ensures TokenCurrent(SaveStep(w, i, id, content, sources, now, outcome))
  {
    assert Live(w.turns[i]) && Holds(w.row, w.turns[i].token) ==> w.holder == Some(i);
  }

  lemma GiveUpKeepsTokenCurrent(w: World, i: nat, now: Time, outcome: Outcome)
    requires Inv(w) && TokenCurrent(w) && i < |w.turns|
    ensures TokenCurrent(GiveUpStep(w, i, now, outcome))
  {
    assert Live(w.turns[i]) && Holds(w.row, w.turns[i].token) ==> w.holder == Some(i);
  }

  lemma TokenCurrentStep(w: World, s: Step)
    requires Inv(w) && TokenCurrent(w) && (s.Beat? ==> !s.outcome.AnswerLost?)
    ensures TokenCurrent(Next(w, s))
  {
    match s
    case Beat(i, now, outcome) =>
      if i < |w.turns| { BeatKeepsTokenCurrent(w, i, now, outcome); }
    case Save(i, id, content, sources, now, outcome) =>
      if i < |w.turns| { SaveKeepsTokenCurrent(w, i, id, content, sources, now, outcome); }
    case GiveUp(i, now, outcome) =>
      if i < |w.turns| { GiveUpKeepsTokenCurrent(w, i, now, outcome); }
    case _ =>
  }

  /** The holder's token is the row's claim unless a refresh's answer was lost. */
  lemma {:induction false} TokenIsCurrent(owner: Id, start: Time, steps: seq<Step>)
    requires forall k :: 0 <= k < |steps| && steps[k].Beat? ==> !steps[k].outcome.AnswerLost?
    ensures TokenCurrent(Exec(Start(owner, start), steps))
  {
    if steps != [] {
      var init := steps[..|steps| - 1];
      EveryRunKeepsInv(owner, start, init);
      TokenIsCurrent(owner, start, init);
      TokenCurrentStep(Exec(Start(owner, start), init), steps[|steps| - 1]);
    }
  }

  /** Then a save that commits stores exactly when its turn has not been overtaken. */
  lemma SaveStoresExactlyTheHolders(owner: Id, start: Time, steps: seq<Step>, s: Step)
    requires forall k :: 0 <= k < |steps| && steps[k].Beat? ==> !steps[k].outcome.AnswerLost?
    requires s.Save? && s.outcome.Committed?
    requires var w := Exec(Start(owner, start), steps);
             && s.turn < |w.turns| && w.turns[s.turn].phase.Running? && w.clock <= s.now && s.content != ""
             && (w.row.Some? ==> !Stored(w.row.value.log, s.id))
    ensures var w := Exec(Start(owner, start), steps);
            Next(w, s).turns[s.turn].stored <==> w.holder == Some(s.turn)
  {
    EveryRunKeepsInv(owner, start, steps);
    TokenIsCurrent(owner, start, steps);
  }

  /** Step `s`, which led from `before` to `after`, is a retry that withdraws the reply `m`. */
  predicate Withdraws(before: Option<Conv>, s: Step, after: Option<Conv>, m: Message) {
    && s.Retry? && s.replace && m.role.Assistant?
    && before.Some? && before.value.log != [] && before.value.log[|before.value.log| - 1] == m
    && after.Some? && m !in after.value.log
  }

  /** A message that goes with an explained change is the reply a retry withdrew. */
  lemma OnlyTheLastGoes(s: Step, log: seq<Message>, log': seq<Message>, m: Message)
    requires Explains(s, log, log') && m in log && m !in log'
    ensures s.Retry? && s.replace && log != [] && m == log[|log| - 1] && m.role.Assistant?
  {
    if s.Retry? {
      assert log == log' + [log[|log| - 1]];
    }
  }

  lemma MessageStaysStep(w: World, s: Step, m: Message)
    requires Inv(w) && w.row.Some? && m in w.row.value.log && Next(w, s).row.Some?
    ensures m in Next(w, s).row.value.log || Withdraws(w.row, s, Next(w, s).row, m)
  {
    LogChangesOnlyWhere(w, s);
    var log, log' := w.row.value.log, Next(w, s).row.value.log;
    if log' != log && m !in log' {
      OnlyTheLastGoes(s, log, log', m);
    }
  }

  /** The world after the first `k` steps of a run. */
  function At(owner: Id, start: Time, steps: seq<Step>, k: nat): World
    requires k <= |steps|
  {
    Exec(Start(owner, start), steps[..k])
  }

  lemma AtMore(owner: Id, start: Time, steps: seq<Step>, k: nat)
    requires k < |steps|
    ensures At(owner, start, steps, k + 1) == Next(At(owner, start, steps, k), steps[k])
  {
    assert steps[..k + 1][..k] == steps[..k];
  }

  /** Step `k` of a run is a retry that withdraws `m`. */
  predicate WithdrawnAt(owner: Id, start: Time, steps: seq<Step>, k: nat, m: Message)
    requires k < |steps|
  {
    Withdraws(At(owner, start, steps, k).row, steps[k], At(owner, start, steps, k + 1).row, m)
  }

  /** Some step from `from` up to `to` is a retry that withdraws `m`. */
  ghost predicate Withdrawn(owner: Id, start: Time, steps: seq<Step>, from: nat, to: nat, m: Message)
    requires to <= |steps|
  {
    exists k :: from <= k < to && WithdrawnAt(owner, start, steps, k, m)
  }

  /** What a withdrawal leaves. */
  lemma WithdrawalIn(owner: Id, start: Time, steps: seq<Step>, from: nat, to: nat, m: Message) returns (at: nat)
    requires to <= |steps| && Withdrawn(owner, start, steps, from, to, m)
    ensures from <= at < to && m.role.Assistant?
    ensures var row := At(owner, start, steps, at + 1).row; row.Some? && m !in row.value.log
  {
    at :| from <= at < to && WithdrawnAt(owner, start, steps, at, m);
    WithdrawalLeaves(At(owner, start, steps, at).row, steps[at], At(owner, start, steps, at + 1).row, m);
  }

  lemma WithdrawalLeaves(before: Option<Conv>, s: Step, after: Option<Conv>, m: Message)
    requires Withdraws(before, s, after, m)
    ensures m.role.Assistant? && after.Some? && m !in after.value.log
  {
  }

  lemma RowWasThere(owner: Id, start: Time, steps: seq<Step>, k: nat)
    requires k < |steps| && At(owner, start, steps, k + 1).row.Some?
    ensures At(owner, start, steps, k).row.Some?
  {
    AtMore(owner, start, steps, k);
    OnlyItsOwnerDeletes(At(owner, start, steps, k), steps[k]);
  }

  /** A message leaves a conversation that stays only as a reply some retry withdrew; a user's message never leaves. */
  lemma {:induction false} MessagesStay(owner: Id, start: Time, steps: seq<Step>, from: nat, to: nat, m: Message)
    requires from <= to <= |steps|
    requires var row := At(owner, start, steps, from).row; row.Some? && m in row.value.log
    requires At(owner, start, steps, to).row.Some?
    ensures m in At(owner, start, steps, to).row.value.log || Withdrawn(owner, start, steps, from, to, m)
    ensures m.role.User? ==> m in At(owner, start, steps, to).row.value.log
  {
    if from < to {
      RowWasThere(owner, start, steps, to - 1);
      MessagesStay(owner, start, steps, from, to - 1, m);
      if m in At(owner, start, steps, to - 1).row.value.log { MessageStaysAt(owner, start, steps, to - 1, m); }
    }
  }

  lemma MessageStaysAt(owner: Id, start: Time, steps: seq<Step>, k: nat, m: Message)
    requires k < |steps|
    requires var row := At(owner, start, steps, k).row; row.Some? && m in row.value.log
    requires At(owner, start, steps, k + 1).row.Some?
    ensures m in At(owner, start, steps, k + 1).row.value.log || WithdrawnAt(owner, start, steps, k, m)
    ensures m.role.User? ==> m in At(owner, start, steps, k + 1).row.value.log
  {
    AtMore(owner, start, steps, k);
    EveryRunKeepsInv(owner, start, steps[..k]);
    MessageStaysStep(At(owner, start, steps, k), steps[k], m);
  }
}
