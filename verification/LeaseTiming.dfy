/**
 When a running turn keeps its claim: `_heartbeat` in apps/api/turns.py against
 TURN_WINDOW in packages/db/repos/conversations.py.

 `Watch` follows one turn through a run of ReplyRuns with its heartbeat's clock.
 A refresh attempt starts HEARTBEAT after the last one ended, its transaction
 commits or not while it is in flight, and its answer arrives within `d`. An
 attempt without an answer fails, and at most `k` in a row do; when `lossy`, its
 transaction may have committed all the same. A refresh that finds the claim
 gone ends the heartbeat. Every other turn, send and retry is free.
 */
module LeaseTiming {
  import opened Wrappers
  import opened Conversations
  import opened ReplyRuns

  const HEARTBEAT: Time := 30_000_000

  /** What became of an attempt's transaction so far. */
  datatype Fate = Uncommitted | Moved | AnswerMissing | Refused

  datatype Attempt = Waiting | InFlight(started: Time, fate: Fate) | Stopped

  datatype Watch = Watch(w: World, lastEnd: Time, fails: nat, attempt: Attempt)

  datatype Tick =
    | Other(step: Step)
    | Begin(now: Time)
    | Commit(now: Time)
    | CommitUnheard(now: Time)
    | End(now: Time)

  /** The steps of turn `x`'s own task, and the delete that ends every claim. */
  predicate Own(x: nat, s: Step) {
    match s
    case Beat(i, _, _) => i == x
    case Save(i, _, _, _, _, _) => i == x
    case GiveUp(i, _, _) => i == x
    case Die(i) => i == x
    case DeleteConversation(_, _) => true
    case _ => false
  }

  function StepTime(w: World, s: Step): Time {
    match s
    case Read(_) => w.clock
    case Die(_) => w.clock
    case _ => s.now
  }

  /** Nothing of the turn's heartbeat is ever later than this: the wait, then one attempt. */
  function Due(v: Watch, d: Time): Time {
    v.lastEnd + HEARTBEAT + d
  }

  predicate Pending(v: Watch, d: Time, now: Time) {
    v.attempt.InFlight? && v.w.clock <= now <= v.attempt.started + d
  }

  predicate MayCommit(v: Watch, x: nat, d: Time, now: Time) {
    Pending(v, d, now) && v.attempt.fate.Uncommitted? && x < |v.w.turns|
  }

  /** The attempt's end: its answer, or the failure for want of one. */
  function Ended(v: Watch, k: nat, now: Time): Watch
    requires v.attempt.InFlight?
  {
    match v.attempt.fate
    case Moved => Watch(v.w.(clock := now), now, 0, Waiting)
    case Refused => Watch(v.w.(clock := now), now, v.fails, Stopped)
    case _ => if v.fails < k then Watch(v.w.(clock := now), now, v.fails + 1, Waiting) else v
  }

  /** One event of the watched run; an event out of its turn or its time changes nothing. */
  function NextTick(v: Watch, x: nat, d: Time, k: nat, lossy: bool, t: Tick): Watch {
    match t
    case Other(s) =>
      if Own(x, s) || (!v.attempt.Stopped? && StepTime(v.w, s) > Due(v, d)) then v else v.(w := Next(v.w, s))
    case Begin(now) =>
      if v.attempt.Waiting? && v.w.clock <= now && v.lastEnd <= now <= v.lastEnd + HEARTBEAT then
        v.(attempt := InFlight(now, Uncommitted), w := v.w.(clock := now))
      else v
    case Commit(now) =>
      if MayCommit(v, x, d, now) then
        v.(attempt := v.attempt.(fate := if Holds(v.w.row, v.w.turns[x].token) then Moved else Refused),
        w := Next(v.w, Beat(x, now, Committed)))
      else v
    case CommitUnheard(now) =>
      if lossy && v.fails < k && MayCommit(v, x, d, now) then
        v.(attempt := v.attempt.(fate := AnswerMissing), w := Next(v.w, Beat(x, now, AnswerLost)))
      else v
    case End(now) => if Pending(v, d, now) then Ended(v, k, now) else v
  }

  function Watching(v: Watch, x: nat, d: Time, k: nat, lossy: bool, ticks: seq<Tick>): Watch {
    if ticks == [] then v
    else NextTick(Watching(v, x, d, k, lossy, ticks[..|ticks| - 1]), x, d, k, lossy, ticks[|ticks| - 1])
  }

  /** Turn `x` runs and holds the row's claim with the row's own token. */
  ghost predicate Holding(w: World, x: nat) {
    && x < |w.turns| && w.turns[x].phase.Running?
    && w.holder == Some(x) && Holds(w.row, w.turns[x].token)
  }

  /** Just started: the turn's task began within `d` of the claim. */
  ghost predicate Fresh(v: Watch, x: nat, d: Time) {
    && Inv(v.w) && Holding(v.w, x)
    && v.fails == 0 && v.attempt.Waiting?
    && v.w.clock <= v.lastEnd <= v.w.row.value.streamingSince.value + d
  }

  ghost predicate WatchInv(v: Watch, x: nat, d: Time, k: nat) {
    && Inv(v.w) && Holding(v.w, x) && v.fails <= k && v.w.clock <= Due(v, d)
    && var since := v.w.row.value.streamingSince.value;
       && v.lastEnd <= since + d + v.fails * (HEARTBEAT + d)
       && !v.attempt.Stopped?
       && (v.attempt.InFlight? ==>
         && v.attempt.started <= v.w.clock && v.attempt.started <= v.lastEnd + HEARTBEAT
         && !v.attempt.fate.AnswerMissing? && !v.attempt.fate.Refused?
         && (v.attempt.fate.Moved? ==> v.attempt.started <= since))
  }

  /** A save of turn `x` that commits now, with anything to store, is stored and ends "done". */
  ghost predicate SaveWouldStore(w: World, x: nat) {
    forall s: Step {:trigger Next(w, s)} ::
      (s.Save? && s.turn == x && s.outcome.Committed? && s.content != "" && w.clock <= s.now
       && (w.row.Some? ==> !Stored(w.row.value.log, s.id))) ==>
        x < |Next(w, s).turns| && Next(w, s).turns[x].stored && Next(w, s).turns[x].phase == Over(Done)
  }

  /** The whole slack the window must cover. */
  function Slack(d: Time, k: nat): Time {
    (k + 1) * (HEARTBEAT + d) + d
  }

  lemma DueIsInsideTheWindow(v: Watch, x: nat, d: Time, k: nat)
    requires 0 <= d && WatchInv(v, x, d, k) && Slack(d, k) <= TURN_WINDOW
    ensures Due(v, d) <= v.w.row.value.streamingSince.value + TURN_WINDOW
  {
    assert v.fails * (HEARTBEAT + d) <= k * (HEARTBEAT + d);
  }

  /** What a step of anyone else leaves alone. */
  ghost predicate Undisturbed(w: World, x: nat, s: Step) {
    && Holding(Next(w, s), x)
    && Next(w, s).row == w.row && Next(w, s).turns[x] == w.turns[x]
    && (Next(w, s).clock == w.clock || Next(w, s).clock == StepTime(w, s))
  }

  lemma OthersTurnsHoldNothing(w: World, x: nat, i: nat)
    requires Inv(w) && Holding(w, x) && i != x && i < |w.turns| && Live(w.turns[i])
    ensures !Holds(w.row, w.turns[i].token)
  {
  }

  lemma OthersTurnsDisturbNothing(w: World, x: nat, s: Step)
    requires Inv(w) && Holding(w, x) && !Own(x, s) && (s.Beat? || s.Save? || s.GiveUp?)
    ensures Undisturbed(w, x, s)
  {
    if s.turn < |w.turns| && Live(w.turns[s.turn]) { OthersTurnsHoldNothing(w, x, s.turn); }
  }

  lemma ClaimsFailInside(w: World, x: nat, s: Step)
    requires Inv(w) && Holding(w, x) && (s.Send? || s.Retry?)
    requires s.now <= w.row.value.streamingSince.value + TURN_WINDOW
    ensures Undisturbed(w, x, s)
  {
  }

  /** Inside the window a step of anyone else leaves the claim, and the turn, alone. */
  lemma OthersCannotClaim(w: World, x: nat, s: Step)
    requires Inv(w) && Holding(w, x) && !Own(x, s)
    requires StepTime(w, s) <= w.row.value.streamingSince.value + TURN_WINDOW
    ensures Inv(Next(w, s)) && Undisturbed(w, x, s)
  {
    InvStep(w, s);
    if s.Beat? || s.Save? || s.GiveUp? {
      OthersTurnsDisturbNothing(w, x, s);
    } else if s.Send? || s.Retry? {
      ClaimsFailInside(w, x, s);
    }
  }

  lemma ClockMayPass(w: World, now: Time)
    requires Inv(w) && w.clock <= now
    ensures Inv(w.(clock := now))
  {
  }

  lemma CommitKeepsWatch(v: Watch, x: nat, d: Time, k: nat, lossy: bool, now: Time)
    requires 0 <= d && WatchInv(v, x, d, k) && MayCommit(v, x, d, now)
    ensures WatchInv(NextTick(v, x, d, k, lossy, Commit(now)), x, d, k)
  {
    BeatKeepsInv(v.w, x, now, Committed);
    assert v.fails * (HEARTBEAT + d) >= 0;
  }

  lemma EndKeepsWatch(v: Watch, x: nat, d: Time, k: nat, now: Time)
    requires 0 <= d && WatchInv(v, x, d, k) && Pending(v, d, now)
    ensures WatchInv(Ended(v, k, now), x, d, k)
  {
    ClockMayPass(v.w, now);
    assert (v.fails + 1) * (HEARTBEAT + d) == v.fails * (HEARTBEAT + d) + HEARTBEAT + d;
  }

  /** No attempt that fails has committed: no answer is ever lost, or no attempt ever fails. */
  predicate FailuresRollBack(k: nat, lossy: bool) {
    !lossy || k == 0
  }

  lemma WatchStep(v: Watch, x: nat, d: Time, k: nat, lossy: bool, t: Tick)
    requires 0 <= d && WatchInv(v, x, d, k) && Slack(d, k) <= TURN_WINDOW && FailuresRollBack(k, lossy)
    ensures WatchInv(NextTick(v, x, d, k, lossy, t), x, d, k)
    ensures NextTick(v, x, d, k, lossy, t).w.row.value.log == v.w.row.value.log
  {
    if NextTick(v, x, d, k, lossy, t) != v {
      match t
      case Other(s) =>
        DueIsInsideTheWindow(v, x, d, k);
        OthersCannotClaim(v.w, x, s);
      case Begin(now) => ClockMayPass(v.w, now);
      case Commit(now) => CommitKeepsWatch(v, x, d, k, lossy, now);
      case CommitUnheard(_) =>
      case End(now) => EndKeepsWatch(v, x, d, k, now);
    }
  }

  lemma HolderWouldStore(w: World, x: nat)
    requires Holding(w, x)
    ensures SaveWouldStore(w, x)
  {
  }

  /** While the turn runs no other claim succeeds, and whenever it saves, it finds its own claim. */
  lemma {:induction false} TurnKeepsItsClaim(v: Watch, x: nat, d: Time, k: nat, lossy: bool, ticks: seq<Tick>)
    requires 0 <= d && Fresh(v, x, d) && Slack(d, k) <= TURN_WINDOW && FailuresRollBack(k, lossy)
    ensures WatchInv(Watching(v, x, d, k, lossy, ticks), x, d, k)
    ensures var u := Watching(v, x, d, k, lossy, ticks);
            Holding(u.w, x) && u.w.row.value.log == v.w.row.value.log && SaveWouldStore(u.w, x)
  {
    if ticks != [] {
      var before := Watching(v, x, d, k, lossy, ticks[..|ticks| - 1]);
      TurnKeepsItsClaim(v, x, d, k, lossy, ticks[..|ticks| - 1]);
      WatchStep(before, x, d, k, lossy, ticks[|ticks| - 1]);
    }
    HolderWouldStore(Watching(v, x, d, k, lossy, ticks).w, x);
  }

  lemma WatchingMore(v: Watch, x: nat, d: Time, k: nat, lossy: bool, ticks: seq<Tick>, t: Tick)
    ensures Watching(v, x, d, k, lossy, ticks + [t]) ==
            NextTick(Watching(v, x, d, k, lossy, ticks), x, d, k, lossy, t)
  {
    assert (ticks + [t])[..|ticks|] == ticks;
  }

  lemma AttemptsTake(n: nat, d: Time)
    requires n > 0
    ensures n * (HEARTBEAT + d) == (n - 1) * (HEARTBEAT + d) + HEARTBEAT + d
  {
  }

  /** `n` attempts in a row that each take `d` and fail. */
  lemma {:induction false} FailingAttempts(v: Watch, x: nat, d: Time, k: nat, lossy: bool, n: nat)
    returns (ticks: seq<Tick>)
    requires 0 <= d && v.fails == 0 && v.attempt.Waiting? && v.w.clock <= v.lastEnd && n <= k
    ensures var u := Watching(v, x, d, k, lossy, ticks);
            && u.fails == n && u.attempt.Waiting? && u.lastEnd == v.lastEnd + n * (HEARTBEAT + d)
            && u.w.clock <= u.lastEnd && u.w == v.w.(clock := u.w.clock)
  {
    if n == 0 {
      return [];
    }
    var before := FailingAttempts(v, x, d, k, lossy, n - 1);
    var u := Watching(v, x, d, k, lossy, before);
    var begin, end := Begin(u.lastEnd + HEARTBEAT), End(u.lastEnd + HEARTBEAT + d);
    ticks := before + [begin] + [end];
    WatchingMore(v, x, d, k, lossy, before, begin);
    WatchingMore(v, x, d, k, lossy, before + [begin], end);
    AttemptsTake(n, d);
  }

  const FIRST := Message(0, User, "first", [])

  /** A conversation whose first turn runs since time 0. */
  lemma FirstTurnRuns() returns (w: World)
    ensures w == World(Some(Conv(7, Some(0), [FIRST])), [Turn(0, [FIRST], Running([FIRST]), false)], Some(0), 0)
    ensures Inv(w) && Holding(w, 0)
  {
    var send := [Send(7, "first", 0, false, 0, Committed)];
    var steps := send + [Read(0)];
    assert !Stored([], 0);
    assert [] + [FIRST] == [FIRST];
    assert Next(Start(7, 0), send[0]) ==
           World(Some(Conv(7, Some(0), [FIRST])), [Turn(0, [FIRST], Claimed, false)], Some(0), 0);
    assert Exec(Start(7, 0), send) == Next(Start(7, 0), send[0]) by { assert send[..0] == []; }
    assert steps[..|steps| - 1] == send;
    EveryRunKeepsInv(7, 0, steps);
    w := Exec(Start(7, 0), steps);
    assert w == Next(Exec(Start(7, 0), send), Read(0));
  }

  /** Another turn holds the row's claim while the first still runs. */
  ghost predicate TakenOver(w: World) {
    w.holder == Some(1) && |w.turns| == 2 && w.turns[0].phase.Running?
  }

  /** The next message's send, once the claim of `since` is older than the window. */
  lemma LateSendTakesOver(w: World, since: Time)
    requires w.row == Some(Conv(7, Some(since), [FIRST])) && |w.turns| == 1 && w.turns[0].phase.Running?
    requires w.clock <= since + TURN_WINDOW + 1
    ensures var u := Next(w, Send(7, "second", 1, false, since + TURN_WINDOW + 1, Committed));
            TakenOver(u) && u.clock == since + TURN_WINDOW + 1
  {
    assert !Stored([FIRST], 1);
  }

  /** The fewest failures that outlast the window. */
  lemma {:induction false} FewestFailures(d: Time, k: nat) returns (n: nat)
    requires TURN_WINDOW < Slack(d, k)
    ensures n <= k && TURN_WINDOW < Slack(d, n) && (n == 0 || Slack(d, n - 1) <= TURN_WINDOW)
  {
    if k == 0 || Slack(d, k - 1) <= TURN_WINDOW {
      return k;
    }
    n := FewestFailures(d, k - 1);
  }

  lemma AttemptsOutlast(d: Time, n: nat, lastEnd: Time)
    requires 0 <= d && TURN_WINDOW < Slack(d, n) && (n == 0 || Slack(d, n - 1) <= TURN_WINDOW)
    requires lastEnd == (if d <= TURN_WINDOW then d else TURN_WINDOW) + n * (HEARTBEAT + d)
    ensures lastEnd <= TURN_WINDOW < lastEnd + HEARTBEAT + d
  {
    AttemptsTake(n + 1, d);
    if n > 0 {
      assert Slack(d, n - 1) == n * (HEARTBEAT + d) + d;
    }
  }

  /** Whenever the slack exceeds the window, a message sent just past it takes the claim of a turn that runs. */
  lemma LateClaimTakesOver(d: Time, k: nat, lossy: bool) returns (v: Watch, ticks: seq<Tick>)
    requires 0 <= d && TURN_WINDOW < Slack(d, k)
    ensures Fresh(v, 0, d) && v.w.row.value.streamingSince == Some(0)
    ensures var u := Watching(v, 0, d, k, lossy, ticks).w; TakenOver(u) && u.clock == TURN_WINDOW + 1
  {
    var w := FirstTurnRuns();
    v := Watch(w, if d <= TURN_WINDOW then d else TURN_WINDOW, 0, Waiting);
    var n := FewestFailures(d, k);
    var failing := FailingAttempts(v, 0, d, k, lossy, n);
    var u := Watching(v, 0, d, k, lossy, failing);
    AttemptsOutlast(d, n, u.lastEnd);
    ticks := LateSendIsSeen(v, u, d, k, lossy, failing);
  }

  lemma LateSendIsSeen(v: Watch, u: Watch, d: Time, k: nat, lossy: bool, failing: seq<Tick>) returns (ticks: seq<Tick>)
    requires u == Watching(v, 0, d, k, lossy, failing) && Due(u, d) > TURN_WINDOW && u.w.clock <= TURN_WINDOW
    requires u.w.row == Some(Conv(7, Some(0), [FIRST])) && |u.w.turns| == 1 && u.w.turns[0].phase.Running?
    ensures var after := Watching(v, 0, d, k, lossy, ticks).w; TakenOver(after) && after.clock == TURN_WINDOW + 1
  {
    var late := Other(Send(7, "second", 1, false, TURN_WINDOW + 1, Committed));
    ticks := failing + [late];
    WatchingMore(v, 0, d, k, lossy, failing, late);
    LateSendTakesOver(u.w, 0);
  }

  /** One refresh that commits unheard, and the next one refused: the heartbeat is over. */
  lemma UnheardThenRefused(v: Watch, d: Time, k: nat) returns (ticks: seq<Tick>)
    requires 0 <= d && 1 <= k
    requires v.w == World(Some(Conv(7, Some(0), [FIRST])), [Turn(0, [FIRST], Running([FIRST]), false)], Some(0), 0)
    requires v == Watch(v.w, 0, 0, Waiting)
    ensures var u := Watching(v, 0, d, k, true, ticks);
            && u.attempt.Stopped? && u.w == v.w.(clock := 2 * HEARTBEAT, row := Some(Conv(7, Some(HEARTBEAT), [FIRST])))
  {
    ticks := [Begin(HEARTBEAT)] + [CommitUnheard(HEARTBEAT)] + [End(HEARTBEAT)];
    assert [] + [Begin(HEARTBEAT)] == [Begin(HEARTBEAT)];
    WatchingMore(v, 0, d, k, true, [], Begin(HEARTBEAT));
    WatchingMore(v, 0, d, k, true, [Begin(HEARTBEAT)], CommitUnheard(HEARTBEAT));
    WatchingMore(v, 0, d, k, true, [Begin(HEARTBEAT)] + [CommitUnheard(HEARTBEAT)], End(HEARTBEAT));
    var u := Watching(v, 0, d, k, true, ticks);
    assert u == Watch(v.w.(clock := HEARTBEAT, row := Some(Conv(7, Some(HEARTBEAT), [FIRST]))), HEARTBEAT, 1, Waiting);
    var now := 2 * HEARTBEAT;
    WatchingMore(v, 0, d, k, true, ticks, Begin(now));
    WatchingMore(v, 0, d, k, true, ticks + [Begin(now)], Commit(now));
    WatchingMore(v, 0, d, k, true, ticks + [Begin(now)] + [Commit(now)], End(now));
    ticks := ticks + [Begin(now)] + [Commit(now)] + [End(now)];
  }

  /**
   One failed refresh that had committed is enough, however small `d` is: the
   turn runs on without its claim, and the next message takes it.
   */
  lemma UnheardCommitLosesTheClaim(d: Time, k: nat) returns (v: Watch, ticks: seq<Tick>)
    requires 0 <= d && 1 <= k
    ensures Fresh(v, 0, d) && v.w.row.value.streamingSince == Some(0)
    ensures var u := Watching(v, 0, d, k, true, ticks).w; TakenOver(u) && u.clock == HEARTBEAT + TURN_WINDOW + 1
  {
    var w := FirstTurnRuns();
    v := Watch(w, 0, 0, Waiting);
    var unheard := UnheardThenRefused(v, d, k);
    var late := Other(Send(7, "second", 1, false, HEARTBEAT + TURN_WINDOW + 1, Committed));
    ticks := unheard + [late];
    WatchingMore(v, 0, d, k, true, unheard, late);
    LateSendTakesOver(Watching(v, 0, d, k, true, unheard).w, HEARTBEAT);
  }

  ghost predicate AlwaysKept(d: Time, k: nat, lossy: bool) {
    forall v, x: nat, ticks :: Fresh(v, x, d) ==> Holding(Watching(v, x, d, k, lossy, ticks).w, x)
  }

  /** No other claim ever succeeds while the turn runs. */
  ghost predicate NeverOvertaken(d: Time, k: nat, lossy: bool) {
    forall v, x: nat, ticks :: Fresh(v, x, d) ==> Watching(v, x, d, k, lossy, ticks).w.holder == Some(x)
  }

  /**
   A running turn always keeps its claim, and is never overtaken, exactly when
   the window covers `k` failures, a success and one answer, and no attempt
   that fails has committed.
   */
  lemma SlackIsExact(d: Time, k: nat, lossy: bool)
    requires 0 <= d
    ensures AlwaysKept(d, k, lossy) <==> Slack(d, k) <= TURN_WINDOW && FailuresRollBack(k, lossy)
    ensures NeverOvertaken(d, k, lossy) <==> Slack(d, k) <= TURN_WINDOW && FailuresRollBack(k, lossy)
  {
    if Slack(d, k) <= TURN_WINDOW && FailuresRollBack(k, lossy) {
      forall v, x: nat, ticks | Fresh(v, x, d)
        ensures Holding(Watching(v, x, d, k, lossy, ticks).w, x)
      {
        TurnKeepsItsClaim(v, x, d, k, lossy, ticks);
      }
    } else if TURN_WINDOW < Slack(d, k) {
      var v, ticks := LateClaimTakesOver(d, k, lossy);
      assert !Holding(Watching(v, 0, d, k, lossy, ticks).w, 0);
    } else {
      var v, ticks := UnheardCommitLosesTheClaim(d, k);
      assert !Holding(Watching(v, 0, d, k, lossy, ticks).w, 0);
    }
  }

  /** Steps by which nobody claims and no refresh moves the claim. */
  ghost predicate Unrefreshed(steps: seq<Step>) {
    forall k :: 0 <= k < |steps| ==> !steps[k].Send? && !steps[k].Retry? && !steps[k].Beat?
  }

  /**
   A claim nobody refreshes or releases blocks the owner's next message up to
   the end of its window, and never after.
   */
  lemma {:induction false} AbandonedClaimLapses(
    owner: Id, start: Time, before: seq<Step>, after: seq<Step>, prompt: string, id: Id, now: Time)
    requires Unrefreshed(after)
    requires var row := Exec(Start(owner, start), before).row; row.Some? && row.value.streamingSince.Some?
    ensures var row := Exec(Start(owner, start), before).row;
            var row' := Exec(Start(owner, start), before + after).row;
            row'.Some? ==>
              && row'.value.owner == row.value.owner
              && (row'.value.streamingSince == row.value.streamingSince || row'.value.streamingSince.None?)
              && (row'.value.streamingSince.Some? && !Stored(row'.value.log, id) ==>
                   (PersistUserTurn(row', row.value.owner, prompt, id, false, now).Success? <==>
                    row.value.streamingSince.value + TURN_WINDOW < now))
  {
    if after == [] {
      assert before + after == before;
    } else {
      var init := before + after[..|after| - 1];
      assert (before + after)[..|before + after| - 1] == init;
      AbandonedClaimLapses(owner, start, before, after[..|after| - 1], prompt, id, now);
      EveryRunKeepsInv(owner, start, init);
    }
  }
}
