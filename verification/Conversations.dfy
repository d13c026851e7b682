/**
 A conversation's row with its messages, and the transactions over them:
 packages/db/repos/conversations.py and apps/api/chat_service.py.

 The functions say what each transaction does to the row; `ConversationStore`
 is the row itself, changed in place by the repo's statements and rolled back
 where the service raises.
 */
module Conversations {
  import opened Wrappers
  import opened Events

  type Id = nat
  /** Microseconds on the database's clock. */
  type Time = int

  const TURN_WINDOW: Time := 120_000_000

  datatype Role = User | Assistant
  datatype Message = Message(id: Id, role: Role, content: string, sources: seq<Source>)

  /** `streamingSince` is the claim; `log` is the messages in commit order. */
  datatype Conv = Conv(owner: Id, streamingSince: Option<Time>, log: seq<Message>)

  datatype Refusal = NotFound | TurnInProgress | AlreadySent | NothingToRetry | AlreadyAnswered

  predicate Owned(row: Option<Conv>, user: Id) {
    row.Some? && row.value.owner == user
  }

  /** No claim, or one older than the window. */
  predicate Free(streamingSince: Option<Time>, now: Time) {
    streamingSince.None? || streamingSince.value < now - TURN_WINDOW
  }

  /** `replying` of `get_owned_detail`. */
  predicate IsReplying(streamingSince: Option<Time>, now: Time) {
    streamingSince.Some? && streamingSince.value > now - TURN_WINDOW
  }

  predicate Stored(log: seq<Message>, id: Id) {
    exists k :: 0 <= k < |log| && log[k].id == id
  }

  /** The log without the messages that carry `id`. */
  function Without(log: seq<Message>, id: Id): (rest: seq<Message>)
    ensures !Stored(log, id) ==> rest == log
    ensures !Stored(rest, id)
    ensures forall m :: m in rest <==> m in log && m.id != id
  {
    if log == [] then []
    else
      var init := Without(log[..|log| - 1], id);
      if log[|log| - 1].id == id then init else init + [log[|log| - 1]]
  }

  /** `_claim_turn`: the row with the claim taken, or why not. */
  function Claim(row: Option<Conv>, user: Id, now: Time): Result<Conv, Refusal> {
    if !Owned(row, user) then Failure(NotFound)
    else if !Free(row.value.streamingSince, now) then Failure(TurnInProgress)
    else Success(row.value.(streamingSince := Some(now)))
  }

  /** `persist_user_turn` on an existing conversation; `elsewhere` says another conversation holds `id`. */
  function PersistUserTurn(row: Option<Conv>, user: Id, prompt: string, id: Id, elsewhere: bool, now: Time):
    Result<Conv, Refusal>
  {
    var claim := Claim(row, user, now);
    if claim.Failure? then claim
    else if elsewhere || Stored(claim.value.log, id) then Failure(AlreadySent)
    else Success(claim.value.(log := claim.value.log + [Message(id, User, prompt, [])]))
  }

  predicate Answered(log: seq<Message>, after: Id) {
    |log| >= 2 && log[|log| - 1].role.Assistant? && log[|log| - 2].role.User? && log[|log| - 2].id == after
  }

  predicate EndsWithQuestion(log: seq<Message>, after: Id) {
    log != [] && log[|log| - 1].role.User? && log[|log| - 1].id == after
  }

  function ClaimForRetry(row: Option<Conv>, user: Id, after: Id, replace: bool, now: Time): Result<Conv, Refusal> {
    var claim := Claim(row, user, now);
    if claim.Failure? then claim
    else
      var log := claim.value.log;
      if Answered(log, after) then
        if replace then Success(claim.value.(log := Without(log, log[|log| - 1].id)))
        else Failure(AlreadyAnswered)
      else if EndsWithQuestion(log, after) then claim
      else Failure(NothingToRetry)
  }

  predicate Holds(row: Option<Conv>, token: Time) {
    row.Some? && row.value.streamingSince == Some(token)
  }

  function Release(row: Option<Conv>, token: Time): Option<Conv> {
    if Holds(row, token) then Some(row.value.(streamingSince := None)) else row
  }

  function Refresh(row: Option<Conv>, token: Time, now: Time): Option<Conv> {
    if Holds(row, token) then Some(row.value.(streamingSince := Some(now))) else row
  }

  /** `persist_assistant_turn`: the release and the reply, together or not at all. */
  function PersistAssistantTurn(row: Option<Conv>, token: Time, id: Id, content: string, sources: seq<Source>):
    Option<Conv>
  {
    if !Holds(row, token) then row
    else
      var free := row.value.(streamingSince := None);
      Some(if content == "" then free else free.(log := free.log + [Message(id, Assistant, content, sources)]))
  }

  predicate DistinctIds(log: seq<Message>) {
    forall i, j :: 0 <= i < j < |log| ==> log[i].id != log[j].id
  }

  /** Deleting the last message by its id removes that message and no other. */
  lemma {:induction false} WithoutLast(log: seq<Message>)
    requires DistinctIds(log) && log != []
    ensures Without(log, log[|log| - 1].id) == log[..|log| - 1]
  {
    assert !Stored(log[..|log| - 1], log[|log| - 1].id);
  }

  // ------------------------------------------------------------------ what the transactions promise of every row

  /**
   A send goes through exactly for the owner of a row that carries no claim
   younger than two minutes, under an id nobody has used; it takes the claim
   and adds its question to the log. Every other send has one refusal.
   */
  lemma SendExactly(row: Option<Conv>, user: Id, prompt: string, id: Id, elsewhere: bool, now: Time)
    ensures var sent := PersistUserTurn(row, user, prompt, id, elsewhere, now);
            if row.None? || row.value.owner != user then sent == Failure(NotFound)
            else if row.value.streamingSince.Some? && now - row.value.streamingSince.value <= 120_000_000 then
              sent == Failure(TurnInProgress)
            else if elsewhere || exists m :: m in row.value.log && m.id == id then sent == Failure(AlreadySent)
            else sent == Success(Conv(user, Some(now), row.value.log + [Message(id, User, prompt, [])]))
  {
    if row.Some? && exists m :: m in row.value.log && m.id == id {
      var m :| m in row.value.log && m.id == id;
      var k :| 0 <= k < |row.value.log| && row.value.log[k] == m;
      assert Stored(row.value.log, id);
    }
  }

  /** Message `k` is the question `after`, and nothing follows it but, maybe, its reply. */
  predicate AsksLast(log: seq<Message>, after: Id, k: nat) {
    && k < |log| && log[k].role.User? && log[k].id == after
    && (k == |log| - 1 || (k == |log| - 2 && log[k + 1].role.Assistant?))
  }

  /**
   A retry goes through exactly for the owner of a row that carries no claim
   younger than two minutes, whose last question is `after`, with a reply to
   it, if any, that may be replaced. It takes the claim and leaves the log up
   to its question. Every other retry has one refusal.
   */
  lemma RetryExactly(row: Option<Conv>, user: Id, after: Id, replace: bool, now: Time)
    requires row.Some? ==> DistinctIds(row.value.log)
    ensures var claim := ClaimForRetry(row, user, after, replace, now);
            if row.None? || row.value.owner != user then claim == Failure(NotFound)
            else if row.value.streamingSince.Some? && now - row.value.streamingSince.value <= 120_000_000 then
              claim == Failure(TurnInProgress)
            else if !exists k: nat :: AsksLast(row.value.log, after, k) then claim == Failure(NothingToRetry)
            else forall k: nat :: AsksLast(row.value.log, after, k) ==>
                   claim == if k < |row.value.log| - 1 && !replace then Failure(AlreadyAnswered)
                            else Success(Conv(user, Some(now), row.value.log[..k + 1]))
  {
    if row.Some? && row.value.log != [] {
      var log := row.value.log;
      WithoutLast(log);
      assert log[..|log|] == log;
      if Answered(log, after) { assert AsksLast(log, after, |log| - 2); }
      if EndsWithQuestion(log, after) { assert AsksLast(log, after, |log| - 1); }
    }
  }

  class ConversationStore {
    var deleted: bool
    var owner: Id
    var streamingSince: Option<Time>
    var messages: seq<Message>

    function Row(): Option<Conv>
      reads this
    {
      if deleted then None else Some(Conv(owner, streamingSince, messages))
    }

    constructor (user: Id)
      ensures Row() == Some(Conv(user, None, []))
    {
      deleted, owner, streamingSince, messages := false, user, None, [];
    }

    /** One conditional UPDATE: the new claim, or None when nothing was changed. */
    method ClaimTurn(user: Id, now: Time) returns (claimedAt: Option<Time>)
      modifies this`streamingSince
      ensures claimedAt == if old(Claim(Row(), user, now)).Success? then Some(now) else None
      ensures Row() == if claimedAt.Some? then Some(old(Claim(Row(), user, now)).value) else old(Row())
    {
      if !deleted && owner == user && (streamingSince.None? || streamingSince.value < now - TURN_WINDOW) {
        streamingSince := Some(now);
        return Some(now);
      }
      return None;
    }

    method ReleaseTurn(claimedAt: Time) returns (released: bool)
      modifies this`streamingSince
      ensures released == old(Holds(Row(), claimedAt))
      ensures Row() == old(Release(Row(), claimedAt))
    {
      released := !deleted && streamingSince == Some(claimedAt);
      if released {
        streamingSince := None;
      }
    }

    method RefreshTurn(claimedAt: Time, now: Time) returns (token: Option<Time>)
      modifies this`streamingSince
      ensures token == if old(Holds(Row(), claimedAt)) then Some(now) else None
      ensures Row() == old(Refresh(Row(), claimedAt, now))
    {
      if !deleted && streamingSince == Some(claimedAt) {
        streamingSince := Some(now);
        return Some(now);
      }
      return None;
    }

    /** The last `n` messages, newest first. */
    method LastMessages(n: nat) returns (last: seq<Message>)
      ensures |last| == if |messages| < n then |messages| else n
      ensures forall k :: 0 <= k < |last| ==> last[k] == messages[|messages| - 1 - k]
    {
      last := [];
      while |last| < n && |last| < |messages|
        invariant |last| <= n && |last| <= |messages|
        invariant forall k :: 0 <= k < |last| ==> last[k] == messages[|messages| - 1 - k]
        decreases n - |last|
      {
        last := last + [messages[|messages| - 1 - |last|]];
      }
    }

    method DeleteMessage(id: Id)
      modifies this`messages
      ensures messages == old(Without(messages, id))
    {
      var kept := [];
      for k := 0 to |messages|
        invariant messages == old(messages)
        invariant kept == Without(messages[..k], id)
      {
        assert messages[..k + 1][..k] == messages[..k];
        if messages[k].id != id {
          kept := kept + [messages[k]];
        }
      }
      assert messages[..|messages|] == messages;
      messages := kept;
    }

    /** A refusal raises, and the session's rollback restores the row. */
    method Rollback(owner: Id, streamingSince: Option<Time>, messages: seq<Message>)
      modifies this
      ensures deleted == old(deleted)
      ensures this.owner == owner && this.streamingSince == streamingSince && this.messages == messages
    {
      this.owner, this.streamingSince, this.messages := owner, streamingSince, messages;
    }

    method PersistUserTurnNow(user: Id, prompt: string, id: Id, elsewhere: bool, now: Time)
      returns (result: Result<Time, Refusal>)
      modifies this
      ensures var spec := old(PersistUserTurn(Row(), user, prompt, id, elsewhere, now));
              && Row() == (if spec.Success? then Some(spec.value) else old(Row()))
              && result == (if spec.Success? then Success(now) else Failure(spec.error))
    {
      var owner0, since0, messages0 := owner, streamingSince, messages;
      var claimedAt := ClaimTurn(user, now);
      if claimedAt.None? {
        return Failure(if deleted || owner != user then NotFound else TurnInProgress);
      }
      var k, collides := 0, elsewhere;
      while k < |messages| && !collides
        invariant 0 <= k <= |messages|
        invariant Row() == Some(old(Claim(Row(), user, now)).value)
        invariant collides ==> elsewhere || Stored(messages, id)
        invariant !collides ==> !elsewhere && forall j :: 0 <= j < k ==> messages[j].id != id
      {
        collides := messages[k].id == id;
        k := k + 1;
      }
      messages := messages + [Message(id, User, prompt, [])];
      if collides {
        Rollback(owner0, since0, messages0);
        return Failure(AlreadySent);
      }
      return Success(now);
    }

    method ClaimForRetryNow(user: Id, after: Id, replace: bool, now: Time) returns (result: Result<Time, Refusal>)
      modifies this
      ensures var spec := old(ClaimForRetry(Row(), user, after, replace, now));
              && Row() == (if spec.Success? then Some(spec.value) else old(Row()))
              && result == (if spec.Success? then Success(now) else Failure(spec.error))
    {
      var owner0, since0, messages0 := owner, streamingSince, messages;
      var claimedAt := ClaimTurn(user, now);
      if claimedAt.None? {
        return Failure(if deleted || owner != user then NotFound else TurnInProgress);
      }
      var last := LastMessages(2);
      var answered := |last| == 2 && last[0].role.Assistant? && last[1].role.User? && last[1].id == after;
      if answered {
        if !replace {
          Rollback(owner0, since0, messages0);
          return Failure(AlreadyAnswered);
        }
        DeleteMessage(last[0].id);
      } else if !(last != [] && last[0].role.User? && last[0].id == after) {
        Rollback(owner0, since0, messages0);
        return Failure(NothingToRetry);
      }
      return Success(now);
    }

    method PersistAssistantTurnNow(claimedAt: Time, id: Id, content: string, sources: seq<Source>)
      returns (released: bool)
      modifies this
      ensures released == old(Holds(Row(), claimedAt))
      ensures Row() == old(PersistAssistantTurn(Row(), claimedAt, id, content, sources))
    {
      released := ReleaseTurn(claimedAt);
      if released && content != "" {
        messages := messages + [Message(id, Assistant, content, sources)];
      }
    }

    /** `get_owned_detail`'s first statement. */
    method Replying(now: Time) returns (replying: bool)
      ensures replying == IsReplying(streamingSince, now)
    {
      match streamingSince
      case None => replying := false;
      case Some(since) => replying := since > now - TURN_WINDOW;
    }

    method DeleteOwned(user: Id) returns (gone: bool)
      modifies this`deleted
      ensures gone == old(Owned(Row(), user))
      ensures Row() == if gone then None else old(Row())
    {
      gone := !deleted && owner == user;
      if gone {
        deleted := true;
      }
    }
  }
}
