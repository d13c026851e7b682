/**
 What a page that lost its stream learns by re-reading the conversation:
 `pollForOutcome` in apps/web/hooks/useChat.ts over `get_owned_detail` in
 packages/db/repos/conversations.py.
 */
module OutcomePoll {
  import opened Wrappers
  import opened Conversations
  import opened ReplyRuns

  /** One re-read: the claim as of one statement, the messages as of a later one. */
  datatype Detail = Detail(replying: bool, messages: seq<Message>)

  datatype Verdict = NotSent | Settled(thread: seq<Message>)

  datatype Ruling = Ruling(read: nat, verdict: Verdict)

  predicate Misses(read: Option<Detail>, id: Id) {
    read.Some? && !read.value.replying && !Stored(read.value.messages, id)
  }

  /** The poll rules at its first free read with the message, or its second free miss in a row. */
  ghost predicate Rules(polled: seq<Option<Detail>>, id: Id, r: Ruling) {
    && r.read < |polled|
    && polled[r.read].Some? && !polled[r.read].value.replying
    && match r.verdict
       case Settled(thread) => Stored(thread, id) && thread == polled[r.read].value.messages
       case NotSent =>
         && Misses(polled[r.read], id)
         && exists m :: 0 <= m < r.read && Misses(polled[m], id) && forall j :: m < j < r.read ==> polled[j].None?
  }

  /** `polled` in order; a failed read is None and is only retried. */
  method PollForOutcome(polled: seq<Option<Detail>>, id: Id) returns (ruling: Option<Ruling>)
    ensures ruling.Some? ==> Rules(polled, id, ruling.value)
    ensures forall r: Ruling :: r.read < (if ruling.Some? then ruling.value.read else |polled|) ==>
              !Rules(polled, id, r)
  {
    var misses, last := 0, 0;
    for k := 0 to |polled|
      invariant misses == 0 || misses == 1
      invariant misses == 1 ==> last < k && Misses(polled[last], id) && forall j :: last < j < k ==> polled[j].None?
      invariant misses == 0 ==>
        forall m :: 0 <= m < k && Misses(polled[m], id) ==> exists j :: m < j < k && polled[j].Some?
      invariant forall r: Ruling :: r.read < k ==> !Rules(polled, id, r)
    {
      if polled[k].Some? {
        var conv := polled[k].value;
        if conv.replying {
          misses := 0;
        } else {
          var arrived := false;
          for j := 0 to |conv.messages|
            invariant arrived <==> exists i :: 0 <= i < j && conv.messages[i].id == id
          {
            arrived := arrived || conv.messages[j].id == id;
          }
          assert arrived <==> Stored(conv.messages, id);
          if arrived {
            return Some(Ruling(k, Settled(conv.messages)));
          }
          misses := misses + 1;
          if misses == 2 {
            return Some(Ruling(k, NotSent));
          }
          last := k;
        }
      }
    }
    return None;
  }

  /** A re-read's place in a run: the claim is read after `claimAt` steps at `now`, the messages after `logAt`. */
  datatype Place = Place(claimAt: nat, now: Time, logAt: nat)

  function ReadAt(owner: Id, start: Time, steps: seq<Step>, p: Place): Option<Detail>
    requires p.claimAt <= p.logAt <= |steps|
  {
    var row, later := At(owner, start, steps, p.claimAt).row, At(owner, start, steps, p.logAt).row;
    if row.None? then None
    else Some(Detail(IsReplying(row.value.streamingSince, p.now), if later.Some? then later.value.log else []))
  }

  lemma UserMessageStillThere(owner: Id, start: Time, steps: seq<Step>, from: nat, to: nat, m: Message)
    requires from <= to <= |steps| && m.role.User?
    requires At(owner, start, steps, from).row.Some? && m in At(owner, start, steps, from).row.value.log
    requires At(owner, start, steps, to).row.Some?
    ensures m in At(owner, start, steps, to).row.value.log
  {
    MessagesStay(owner, start, steps, from, to, m);
  }

  /**
   "Not sent" is never said of a message that was stored before the deciding
   read, made at `p`: at no earlier point of the run was it there, unless the
   conversation itself was deleted meanwhile. Any other read may have failed.
   */
  lemma NotSentIsHonest(
    owner: Id, start: Time, steps: seq<Step>, polled: seq<Option<Detail>>, r: Ruling, p: Place, earlier: nat,
    m: Message)
    requires m.role.User? && Rules(polled, m.id, r) && r.verdict.NotSent?
    requires p.claimAt <= p.logAt <= |steps| && polled[r.read] == ReadAt(owner, start, steps, p)
    requires earlier <= p.logAt && At(owner, start, steps, p.logAt).row.Some?
    ensures var row := At(owner, start, steps, earlier).row; row.Some? ==> m !in row.value.log
  {
    var row := At(owner, start, steps, earlier).row;
    if row.Some? && m in row.value.log {
      UserMessageStillThere(owner, start, steps, earlier, p.logAt, m);
    }
  }

  /** Turn `i` stored `m` by step `k`. */
  ghost predicate StoresAt(owner: Id, start: Time, steps: seq<Step>, i: nat, k: nat, m: Message)
    requires k < |steps|
  {
    && steps[k].Save? && steps[k].turn == i && m == Message(steps[k].id, Assistant, steps[k].content, steps[k].sources)
    && i < |At(owner, start, steps, k).turns| && !At(owner, start, steps, k).turns[i].stored
    && i < |At(owner, start, steps, k + 1).turns| && At(owner, start, steps, k + 1).turns[i].stored
  }

  lemma StoredStaysStep(w: World, s: Step, i: nat)
    requires Inv(w) && i < |w.turns|
    ensures i < |Next(w, s).turns| && (w.turns[i].stored ==> Next(w, s).turns[i].stored)
  {
    match s
    case Save(_, _, _, _, _, _) =>
    case _ =>
  }

  lemma {:induction false} StoredStays(owner: Id, start: Time, steps: seq<Step>, from: nat, to: nat, i: nat)
    requires from <= to <= |steps| && i < |At(owner, start, steps, from).turns|
    ensures i < |At(owner, start, steps, to).turns|
    ensures At(owner, start, steps, from).turns[i].stored ==> At(owner, start, steps, to).turns[i].stored
  {
    if from < to {
      StoredStays(owner, start, steps, from, to - 1, i);
      assert steps[..to][..to - 1] == steps[..to - 1];
      EveryRunKeepsInv(owner, start, steps[..to - 1]);
      StoredStaysStep(At(owner, start, steps, to - 1), steps[to - 1], i);
    }
  }

  /** A free claim read before the turn's lapse can only come after its save. */
  lemma StoredBeforeTheFreeRead(
    owner: Id, start: Time, steps: seq<Step>, i: nat, k: nat, m: Message, claimAt: nat, now: Time)
    requires claimAt <= |steps| && k < |steps| && StoresAt(owner, start, steps, i, k, m)
    requires var w := At(owner, start, steps, claimAt);
             && i < |w.turns| && w.row.Some? && !IsReplying(w.row.value.streamingSince, now)
             && (w.holder == Some(i) && w.row.value.streamingSince.Some? ==>
                  now < w.row.value.streamingSince.value + TURN_WINDOW)
    ensures k < claimAt
  {
    if claimAt <= k {
      EveryRunKeepsInv(owner, start, steps[..claimAt]);
      StoredStays(owner, start, steps, claimAt, k, i);
      assert steps[..claimAt] + steps[claimAt..k + 1] == steps[..k + 1];
      OvertakenStays(owner, start, steps[..claimAt], steps[claimAt..k + 1], i);
    }
  }

  /** No save after step `k` draws the id of `m` again. */
  ghost predicate FreshId(steps: seq<Step>, k: nat, m: Message) {
    forall j :: k < j < |steps| && steps[j].Save? ==> steps[j].id != m.id
  }

  lemma ReplyNotAddedStep(w: World, s: Step, m: Message)
    requires Inv(w) && m.role.Assistant? && (s.Save? ==> s.id != m.id)
    requires w.row.Some? ==> m !in w.row.value.log
    ensures Next(w, s).row.Some? ==> m !in Next(w, s).row.value.log
  {
    if w.row.Some? && Next(w, s).row.Some? { LogChangesOnlyWhere(w, s); }
  }

  lemma ReplyNotAddedAt(owner: Id, start: Time, steps: seq<Step>, k: nat, at: nat, m: Message)
    requires k < at < |steps| && m.role.Assistant? && FreshId(steps, k, m)
    requires At(owner, start, steps, at).row.Some? ==> m !in At(owner, start, steps, at).row.value.log
    ensures At(owner, start, steps, at + 1).row.Some? ==> m !in At(owner, start, steps, at + 1).row.value.log
  {
    AtMore(owner, start, steps, at);
    EveryRunKeepsInv(owner, start, steps[..at]);
    ReplyNotAddedStep(At(owner, start, steps, at), steps[at], m);
  }

  /** A reply that is gone stays gone. */
  lemma {:induction false} ReplyStaysGone(
    owner: Id, start: Time, steps: seq<Step>, k: nat, from: nat, to: nat, m: Message)
    requires k < from <= to <= |steps| && m.role.Assistant? && FreshId(steps, k, m)
    requires At(owner, start, steps, from).row.Some? ==> m !in At(owner, start, steps, from).row.value.log
    ensures At(owner, start, steps, to).row.Some? ==> m !in At(owner, start, steps, to).row.value.log
  {
    if from < to {
      ReplyStaysGone(owner, start, steps, k, from, to - 1, m);
      ReplyNotAddedAt(owner, start, steps, k, to - 1, m);
    }
  }

  /** Once withdrawn, a reply is not there when the messages are read. */
  lemma WithdrawnAtIsAbsent(owner: Id, start: Time, steps: seq<Step>, k: nat, at: nat, to: nat, m: Message)
    requires k < at < to <= |steps| && FreshId(steps, k, m) && m.role.Assistant?
    requires var row := At(owner, start, steps, at + 1).row; row.Some? && m !in row.value.log
    ensures At(owner, start, steps, to).row.Some? ==> m !in At(owner, start, steps, to).row.value.log
  {
    ReplyStaysGone(owner, start, steps, k, at + 1, to, m);
  }

  /**
   What a re-read shows of a turn that stored its reply, when it finds the
   conversation free after the turn's claim and before that claim lapses: the
   reply, exactly unless a retry withdrew it since. An id is never drawn twice.
   */
  lemma FreeShowsTheReply(
    owner: Id, start: Time, steps: seq<Step>, i: nat, k: nat, m: Message, p: Place)
    requires p.claimAt <= p.logAt <= |steps| && k < |steps| && StoresAt(owner, start, steps, i, k, m)
    requires var w := At(owner, start, steps, p.claimAt);
             && i < |w.turns| && w.row.Some?
             && (w.holder == Some(i) && w.row.value.streamingSince.Some? ==>
                  p.now < w.row.value.streamingSince.value + TURN_WINDOW)
    requires !ReadAt(owner, start, steps, p).value.replying && At(owner, start, steps, p.logAt).row.Some?
    ensures k < p.claimAt
    ensures || m in ReadAt(owner, start, steps, p).value.messages
            || Withdrawn(owner, start, steps, k + 1, p.logAt, m)
    ensures FreshId(steps, k, m) ==>
              (m in ReadAt(owner, start, steps, p).value.messages <==>
               !Withdrawn(owner, start, steps, k + 1, p.logAt, m))
  {
    StoredBeforeTheFreeRead(owner, start, steps, i, k, m, p.claimAt, p.now);
    assert steps[..k + 1][..k] == steps[..k];
    StoredReplyExtendsWhatWasRead(owner, start, steps[..k], steps[k]);
    var row := At(owner, start, steps, k + 1).row;
    assert row.value.log[|row.value.log| - 1] == m;
    MessagesStay(owner, start, steps, k + 1, p.logAt, m);
    if FreshId(steps, k, m) && Withdrawn(owner, start, steps, k + 1, p.logAt, m) {
      var at := WithdrawalIn(owner, start, steps, k + 1, p.logAt, m);
      WithdrawnAtIsAbsent(owner, start, steps, k, at, p.logAt, m);
    }
  }

  // A run in which a stored reply is withdrawn by a retry whose turn then gives up.
  const ASKED := Message(0, User, "question", [])
  const REPLY := Message(1, Assistant, "answer", [])
  const WITHDRAWN_RUN :=
    [Send(7, "question", 0, false, 0, Committed), Read(0), Save(0, 1, "answer", [], 0, Committed),
     Retry(7, 0, true, 0, Committed), GiveUp(1, 0, Committed)]
  const ANSWERED :=
    World(Some(Conv(7, None, [ASKED, REPLY])), [Turn(0, [ASKED], Over(Done), true)], None, 0)
  const RETRIED :=
    World(Some(Conv(7, Some(0), [ASKED])),
          [Turn(0, [ASKED], Over(Done), true), Turn(0, [ASKED], Claimed, false)], Some(1), 0)

  const RUNNING :=
    World(Some(Conv(7, Some(0), [ASKED])), [Turn(0, [ASKED], Running([ASKED]), false)], Some(0), 0)

  lemma RunIsRunning()
    ensures At(7, 0, WITHDRAWN_RUN, 2) == RUNNING
  {
    assert At(7, 0, WITHDRAWN_RUN, 0) == Start(7, 0);
    AtMore(7, 0, WITHDRAWN_RUN, 0);
    assert !Stored([], 0) && [] + [ASKED] == [ASKED];
    assert At(7, 0, WITHDRAWN_RUN, 1) ==
           World(Some(Conv(7, Some(0), [ASKED])), [Turn(0, [ASKED], Claimed, false)], Some(0), 0);
    AtMore(7, 0, WITHDRAWN_RUN, 1);
  }

  lemma RunIsAnswered()
    ensures At(7, 0, WITHDRAWN_RUN, 3) == ANSWERED
    ensures StoresAt(7, 0, WITHDRAWN_RUN, 0, 2, REPLY)
  {
    RunIsRunning();
    AtMore(7, 0, WITHDRAWN_RUN, 2);
    assert !Stored([ASKED], 1) && [ASKED] + [REPLY] == [ASKED, REPLY];
  }

  lemma RetryTakesTheReply()
    ensures ClaimForRetry(Some(Conv(7, None, [ASKED, REPLY])), 7, 0, true, 0) == Success(Conv(7, Some(0), [ASKED]))
  {
    WithoutLast([ASKED, REPLY]);
    assert [ASKED, REPLY][..1] == [ASKED];
  }

  lemma RetryStep()
    ensures Next(ANSWERED, Retry(7, 0, true, 0, Committed)) == RETRIED
  {
    RetryTakesTheReply();
  }

  lemma GiveUpFrees()
    ensures Next(RETRIED, GiveUp(1, 0, Committed)).row == Some(Conv(7, None, [ASKED]))
  {
  }

  lemma RunIsWithdrawn()
    ensures At(7, 0, WITHDRAWN_RUN, 4) == RETRIED
    ensures At(7, 0, WITHDRAWN_RUN, 5).row == Some(Conv(7, None, [ASKED]))
  {
    RunIsAnswered();
    AtMore(7, 0, WITHDRAWN_RUN, 3);
    RetryStep();
    AtMore(7, 0, WITHDRAWN_RUN, 4);
    GiveUpFrees();
  }

  /**
   A free re-read without the stored reply: one taken across the withdrawal,
   and one wholly after it.
   */
  lemma FreeWithoutTheReply()
    ensures StoresAt(7, 0, WITHDRAWN_RUN, 0, 2, REPLY)
    ensures ReadAt(7, 0, WITHDRAWN_RUN, Place(3, 0, 4)) == Some(Detail(false, [ASKED]))
    ensures ReadAt(7, 0, WITHDRAWN_RUN, Place(5, 0, 5)) == Some(Detail(false, [ASKED]))
  {
    RunIsAnswered();
    RunIsWithdrawn();
  }
}
