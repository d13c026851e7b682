/**
 Document ingestion as a machine over statements (packages/core/rag/ingest.py,
 apps/worker/tasks.py, packages/db/repos/documents.py): any number of attempts,
 redeliveries, crashes, lost commit answers, deadlines, failure writes and
 deletes, each attempt holding the row lock from its UPDATE to its commit.
 */
module IngestRuns {
  import opened Wrappers
  import opened Documents

  const MAX_RETRIES: nat := 3
  const RETRY_BACKOFF_BASE: nat := 5
  const GENERIC_INGEST_ERROR := "ingestion failed after retries (temporary service error); re-upload to retry"
  const TIME_LIMIT_INGEST_ERROR := "processing took too long; split the document and upload the parts"

  /** What the task does with it. */
  datatype Decision = RetryIn(countdown: nat) | RecordFailed(message: string)

  function Power2(k: nat): nat {
    if k == 0 then 1 else 2 * Power2(k - 1)
  }

  function Decide(raise: Raise, retries: nat): Decision {
    match raise
    case Permanent(message) => RecordFailed(message)
    case SoftTimeLimit => RecordFailed(TIME_LIMIT_INGEST_ERROR)
    case Transient =>
      if retries >= MAX_RETRIES then RecordFailed(GENERIC_INGEST_ERROR)
      else RetryIn(RETRY_BACKOFF_BASE * Power2(retries))
  }

  /**
   How an attempt ended: its call returned; its failure was written; what it
   decided, a write or a retry's message, was lost; attempt `next` retries it;
   it died.
   */
  datatype End = CallReturned | Recorded | Unrecorded | Retried(next: nat) | Died

  datatype Phase =
    | Arrived
    | Looked
    | Claiming
    | Missed
    | Working
    | Embedded(texts: seq<string>, vectors: seq<seq<real>>)
    | Cleared(texts: seq<string>, vectors: seq<seq<real>>, gone: set<Chunk>)
    | Readying(texts: seq<string>, vectors: seq<seq<real>>, gone: set<Chunk>)
    | Unready
    | Raised(raise: Raise)
    | Over(end: End)

  /**
   `task` is the attempt its task began with, a redelivered message being a
   task of its own; `waited` is the task's backoff so far, in seconds.
   */
  datatype Attempt = Attempt(task: nat, previous: Option<nat>, retries: nat, waited: nat, phase: Phase)

  /** One committed write of the row's status. */
  datatype Write = Write(status: Status, error: Option<string>)

  /** `winner` is the attempt whose chunks committed, with its texts and embeddings. */
  datatype Winner = Winner(attempt: nat, texts: seq<string>, vectors: seq<seq<real>>)

  datatype World = World(row: Option<Row>, chunks: set<Chunk>, lock: Option<nat>, attempts: seq<Attempt>,
                         history: seq<Write>, winner: Option<Winner>)

  datatype Step =
    | Deliver(retries: nat)
    | Look(k: nat)
    | Claim(k: nat)
    | CommitClaim(k: nat, answered: bool)
    | AskStatus(k: nat)
    | Read(k: nat, texts: seq<string>, vectors: seq<seq<real>>)
    | ClearChunks(k: nat)
    | MarkReady(k: nat)
    | CommitReady(k: nat, answered: bool)
    | AskWhy(k: nat)
    | Fail(k: nat, raise: Raise)
    | Die(k: nat)
    | Settle(k: nat, written: bool)
    | FailStaleNow(error: string)
    | DeleteNow
    | PublishRaised(error: string)

  function Start(hasFile: bool): World {
    World(Some(Row(Pending, None, hasFile)), {}, None, [], [Write(Pending, None)], None)
  }

  function To(w: World, k: nat, phase: Phase): World
    requires k < |w.attempts|
  {
    w.(attempts := w.attempts[k := w.attempts[k].(phase := phase)])
  }

  predicate At(w: World, k: nat) {
    k < |w.attempts| && !w.attempts[k].phase.Over?
  }

  predicate Holds(phase: Phase) {
    phase.Claiming? || phase.Readying?
  }

  /** The end of an attempt's open transaction, without a commit. */
  function Unlock(w: World, k: nat): World {
    if w.lock == Some(k) then w.(lock := None) else w
  }

  /** A committed write of the row. */
  function Rewrite(w: World, row: Option<Row>): World {
    if row.None? then w else w.(row := row, history := w.history + [Write(row.value.status, row.value.error)])
  }

  /** 'failed', if the row is still in flight. */
  function FailRow(w: World, error: string): World {
    if InFlight(w.row) then Rewrite(w, FailedInFlight(w.row, error)) else w
  }

  function CommitTheClaim(w: World, k: nat, answered: bool): World
    requires k < |w.attempts|
  {
    To(Unlock(Rewrite(w, Claimed(w.row)), k), k, if answered then Working else Raised(Transient))
  }

  function CommitTheChunks(w: World, k: nat, answered: bool): World
    requires k < |w.attempts| && w.attempts[k].phase.Readying?
    requires |w.attempts[k].phase.texts| == |w.attempts[k].phase.vectors|
  {
    var p := w.attempts[k].phase;
    var w' := Unlock(Rewrite(w, Readied(w.row)), k);
    To(w'.(chunks := (w.chunks - p.gone) + FullSet(k, p.texts, p.vectors),
    winner := Some(Winner(k, p.texts, p.vectors))),
       k, if answered then Over(CallReturned) else Raised(Transient))
  }

  function Delivered(w: World, retries: nat): Attempt {
    Attempt(|w.attempts|, None, retries, 0, Arrived)
  }

  /** The attempt that retries attempt `k` after a countdown. */
  function RetryOf(w: World, k: nat, countdown: nat): Attempt
    requires k < |w.attempts|
  {
    var a := w.attempts[k];
    Attempt(a.task, Some(k), a.retries + 1, a.waited + countdown, Arrived)
  }

  /** The statements of an attempt up to its work. */
  function EarlyStep(w: World, s: Step): World {
    match s
    case Deliver(retries) =>
      if retries <= MAX_RETRIES then w.(attempts := w.attempts + [Delivered(w, retries)]) else w
    case Look(k) =>
      if At(w, k) && w.attempts[k].phase.Arrived?
      then To(w, k, if w.row.None? then Raised(Permanent(NOT_FOUND))
                    else if !w.row.value.hasFile then Raised(Permanent(NO_STORED_FILE)) else Looked)
      else w
    case Claim(k) =>
      if At(w, k) && w.attempts[k].phase.Looked? && w.lock.None?
      then if InFlight(w.row) then To(w.(lock := Some(k)), k, Claiming) else To(w, k, Missed)
      else w
    case CommitClaim(k, answered) =>
      if At(w, k) && w.attempts[k].phase.Claiming? then CommitTheClaim(w, k, answered) else w
    case AskStatus(k) =>
      if At(w, k) && w.attempts[k].phase.Missed?
      then To(w, k, if w.row.Some? && w.row.value.status.Ready? then Over(CallReturned)
                    else Raised(Permanent(NOT_IN_FLIGHT)))
      else w
    case Read(k, texts, vectors) =>
      if At(w, k) && w.attempts[k].phase.Working?
      then To(w, k, if texts == [] then Raised(Permanent(NO_CHUNKS))
                    else if |vectors| != |texts| then Raised(Permanent(BAD_EMBEDDINGS))
                    else Embedded(texts, vectors))
      else w
    case _ => w
  }

  /** The last transaction of an attempt. */
  function LateStep(w: World, s: Step): World {
    match s
    case ClearChunks(k) =>
      if At(w, k) && w.attempts[k].phase.Embedded?
      then To(w, k, Cleared(w.attempts[k].phase.texts, w.attempts[k].phase.vectors, w.chunks))
      else w
    case MarkReady(k) =>
      if At(w, k) && w.attempts[k].phase.Cleared? && w.lock.None?
      then
        var p := w.attempts[k].phase;
        if w.row.Some? && w.row.value.status.Processing?
        then To(w.(lock := Some(k)), k, Readying(p.texts, p.vectors, p.gone))
        else To(w, k, Unready)
      else w
    case CommitReady(k, answered) =>
      if At(w, k) && w.attempts[k].phase.Readying? && |w.attempts[k].phase.texts| == |w.attempts[k].phase.vectors|
      then CommitTheChunks(w, k, answered)
      else w
    case AskWhy(k) =>
      if At(w, k) && w.attempts[k].phase.Unready?
      then To(w, k, if w.row.None? then Raised(Permanent(DELETED_MEANWHILE))
                    else if w.row.value.status.Ready? then Over(CallReturned)
                    else Raised(Permanent(LEFT_PROCESSING)))
      else w
    case _ => w
  }

  /** Failures, and the task's decision about one. */
  function EndStep(w: World, s: Step): World {
    match s
    case Fail(k, raise) =>
      if At(w, k) && !w.attempts[k].phase.Raised? then To(Unlock(w, k), k, Raised(raise)) else w
    case Die(k) =>
      if At(w, k) then To(Unlock(w, k), k, Over(Died)) else w
    case Settle(k, written) =>
      if At(w, k) && w.attempts[k].phase.Raised?
      then
        match Decide(w.attempts[k].phase.raise, w.attempts[k].retries)
        case RetryIn(countdown) =>
          if !written then To(w, k, Over(Unrecorded))
          else
            var w' := To(w, k, Over(Retried(|w.attempts|)));
            w'.(attempts := w'.attempts + [RetryOf(w, k, countdown)])
        case RecordFailed(message) =>
          if !written then To(w, k, Over(Unrecorded))
          else if w.lock.None? then To(FailRow(w, Shortened(message)), k, Over(Recorded))
          else w
      else w
    case _ => w
  }

  /** The API's writes; the write after a raised publish meets a row nobody was handed yet. */
  function ApiStep(w: World, s: Step): World {
    match s
    case FailStaleNow(error) => if w.lock.None? then FailRow(w, error) else w
    case DeleteNow => if w.lock.None? && w.row.Some? then w.(row := None, chunks := {}) else w
    case PublishRaised(error) =>
      if w.attempts == [] && (w.row.None? || InFlight(w.row)) then Rewrite(w, FailedAnyway(w.row, error)) else w
    case _ => w
  }

  function Next(w: World, s: Step): World {
    match s
    case Deliver(_) => EarlyStep(w, s)
    case Look(_) => EarlyStep(w, s)
    case Claim(_) => EarlyStep(w, s)
    case CommitClaim(_, _) => EarlyStep(w, s)
    case AskStatus(_) => EarlyStep(w, s)
    case Read(_, _, _) => EarlyStep(w, s)
    case ClearChunks(_) => LateStep(w, s)
    case MarkReady(_) => LateStep(w, s)
    case CommitReady(_, _) => LateStep(w, s)
    case AskWhy(_) => LateStep(w, s)
    case Fail(_, _) => EndStep(w, s)
    case Die(_) => EndStep(w, s)
    case Settle(_, _) => EndStep(w, s)
    case _ => ApiStep(w, s)
  }

  function Exec(w: World, steps: seq<Step>): World {
    if steps == [] then w else Next(Exec(w, steps[..|steps| - 1]), steps[|steps| - 1])
  }

  // ------------------------------------------------------------------ the invariant

  predicate Final(write: Write) {
    write.status.Ready? || write.status.Failed?
  }

  /** 'pending', then 'processing' any number of times, then at most one terminal write. */
  ghost predicate GoodHistory(history: seq<Write>) {
    && history != [] && history[0] == Write(Pending, None)
    && (forall i :: 0 < i < |history| ==> !history[i].status.Pending?)
    && (forall i :: 0 <= i < |history| - 1 ==> !Final(history[i]))
  }

  predicate LastIs(history: seq<Write>, row: Row) {
    history != [] && history[|history| - 1] == Write(row.status, row.error)
  }

  /** The chunks are one attempt's whole set exactly while the row is 'ready'. */
  predicate Whole(w: World) {
    if w.row.Some? && w.row.value.status.Ready? then
      && w.winner.Some?
      && w.winner.value.attempt < |w.attempts|
      && w.winner.value.texts != [] && |w.winner.value.texts| == |w.winner.value.vectors|
      && w.chunks == FullSet(w.winner.value.attempt, w.winner.value.texts, w.winner.value.vectors)
    else w.chunks == {}
  }

  predicate Carries(phase: Phase) {
    phase.Embedded? || phase.Cleared? || phase.Readying? ==>
      phase.texts != [] && |phase.texts| == |phase.vectors|
  }

  predicate AttemptOk(w: World, k: nat)
    requires k < |w.attempts|
  {
    var a := w.attempts[k];
    && a.retries <= MAX_RETRIES
    && Carries(a.phase)
    && (Holds(a.phase) <==> w.lock == Some(k))
    && (a.phase.Claiming? ==> InFlight(w.row))
    && (a.phase.Readying? ==> w.row.Some? && w.row.value.status.Processing?)
    && (a.phase.Missed? ==> !InFlight(w.row))
    && (a.phase == Over(CallReturned) || a.phase == Over(Recorded) ==> !InFlight(w.row))
    && (a.phase.Over? && a.phase.end.Retried? ==> a.retries < MAX_RETRIES)
  }

  ghost predicate Inv(w: World) {
    && GoodHistory(w.history)
    && (w.row.Some? ==> LastIs(w.history, w.row.value))
    && Whole(w)
    && (w.lock.Some? ==> w.lock.value < |w.attempts|)
    && (forall k :: 0 <= k < |w.attempts| ==> AttemptOk(w, k))
  }

  /** Rewriting a row that was in flight keeps the history well formed. */
  lemma RewriteKeepsHistory(w: World, row: Option<Row>)
    requires GoodHistory(w.history) && w.row.Some? && LastIs(w.history, w.row.value)
    requires InFlight(w.row) && row.Some? && !row.value.status.Pending?
    ensures GoodHistory(Rewrite(w, row).history) && LastIs(Rewrite(w, row).history, row.value)
  {
  }

  lemma ReadKeepsInv(w: World, s: Step)
    requires Inv(w) && (s.AskStatus? || s.Read?)
    ensures Inv(EarlyStep(w, s))
  {
    var w' := EarlyStep(w, s);
    forall k | 0 <= k < |w'.attempts|
      ensures AttemptOk(w', k)
    {
      assert AttemptOk(w, k);
    }
  }

  lemma EarlyKeepsInv(w: World, s: Step)
    requires Inv(w) && (s.Deliver? || s.Look? || s.Claim?)
    ensures Inv(EarlyStep(w, s))
  {
    var w' := EarlyStep(w, s);
    forall k | 0 <= k < |w'.attempts|
      ensures AttemptOk(w', k)
    {
      if k < |w.attempts| { assert AttemptOk(w, k); }
    }
  }

  lemma ClaimKeepsInv(w: World, k: nat, answered: bool)
    requires Inv(w) && At(w, k) && w.attempts[k].phase.Claiming?
    ensures Inv(CommitTheClaim(w, k, answered))
  {
    assert AttemptOk(w, k);
    RewriteKeepsHistory(w, Claimed(w.row));
    var w' := CommitTheClaim(w, k, answered);
    forall j | 0 <= j < |w'.attempts|
      ensures AttemptOk(w', j)
    {
      assert AttemptOk(w, j);
    }
  }

  lemma LateKeepsInv(w: World, s: Step)
    requires Inv(w) && !s.CommitReady?
    ensures Inv(LateStep(w, s))
  {
    var w' := LateStep(w, s);
    forall k | 0 <= k < |w'.attempts|
      ensures AttemptOk(w', k)
    {
      assert AttemptOk(w, k);
    }
  }

  lemma ReadyKeepsInv(w: World, k: nat, answered: bool)
    requires Inv(w) && At(w, k) && w.attempts[k].phase.Readying?
    requires |w.attempts[k].phase.texts| == |w.attempts[k].phase.vectors|
    ensures Inv(CommitTheChunks(w, k, answered))
  {
    assert AttemptOk(w, k);
    RewriteKeepsHistory(w, Readied(w.row));
    var w' := CommitTheChunks(w, k, answered);
    forall j | 0 <= j < |w'.attempts|
      ensures AttemptOk(w', j)
    {
      assert AttemptOk(w, j);
    }
  }

  lemma EndKeepsInv(w: World, s: Step)
    requires Inv(w) && !s.Settle?
    ensures Inv(EndStep(w, s))
  {
    var w' := EndStep(w, s);
    forall k | 0 <= k < |w'.attempts|
      ensures AttemptOk(w', k)
    {
      assert AttemptOk(w, k);
    }
  }

  lemma FailKeepsInv(w: World, error: string)
    requires Inv(w) && w.lock.None?
    ensures Inv(FailRow(w, error))
    ensures !InFlight(FailRow(w, error).row)
  {
    if InFlight(w.row) {
      RewriteKeepsHistory(w, FailedInFlight(w.row, error));
    }
    var w' := FailRow(w, error);
    forall j | 0 <= j < |w'.attempts|
      ensures AttemptOk(w', j)
    {
      assert AttemptOk(w, j);
    }
  }

  /** Ending an attempt that holds nothing. */
  lemma OverKeepsInv(w: World, k: nat, end: End)
    requires Inv(w) && At(w, k) && w.attempts[k].phase.Raised?
    requires end.CallReturned? || end.Recorded? ==> !InFlight(w.row)
    requires end.Retried? ==> w.attempts[k].retries < MAX_RETRIES
    ensures Inv(To(w, k, Over(end)))
  {
    assert AttemptOk(w, k);
    var w' := To(w, k, Over(end));
    forall j | 0 <= j < |w'.attempts|
      ensures AttemptOk(w', j)
    {
      assert AttemptOk(w, j);
    }
  }

  lemma NewAttemptKeepsInv(w: World, a: Attempt)
    requires Inv(w) && a.retries <= MAX_RETRIES && a.phase.Arrived?
    ensures Inv(w.(attempts := w.attempts + [a]))
  {
    var w' := w.(attempts := w.attempts + [a]);
    forall j | 0 <= j < |w'.attempts|
      ensures AttemptOk(w', j)
    {
      if j < |w.attempts| { assert AttemptOk(w, j); }
    }
  }

  lemma SettleKeepsInv(w: World, k: nat, written: bool)
    requires Inv(w)
    ensures Inv(EndStep(w, Settle(k, written)))
  {
    if At(w, k) && w.attempts[k].phase.Raised? {
      match Decide(w.attempts[k].phase.raise, w.attempts[k].retries)
      case RetryIn(countdown) =>
        if !written {
          OverKeepsInv(w, k, Unrecorded);
        } else {
          OverKeepsInv(w, k, Retried(|w.attempts|));
          NewAttemptKeepsInv(To(w, k, Over(Retried(|w.attempts|))), RetryOf(w, k, countdown));
        }
      case RecordFailed(message) =>
        if !written {
          OverKeepsInv(w, k, Unrecorded);
        } else if w.lock.None? {
          FailKeepsInv(w, Shortened(message));
          OverKeepsInv(FailRow(w, Shortened(message)), k, Recorded);
        }
    }
  }

  lemma ApiKeepsInv(w: World, s: Step)
    requires Inv(w)
    ensures Inv(ApiStep(w, s))
  {
    var w' := ApiStep(w, s);
    if s.FailStaleNow? && w.lock.None? {
      FailKeepsInv(w, s.error);
    } else if s.PublishRaised? && w.attempts == [] && InFlight(w.row) {
      FailKeepsInv(w, s.error);
      assert w' == FailRow(w, s.error);
    } else {
      forall j | 0 <= j < |w'.attempts|
        ensures AttemptOk(w', j)
      {
        assert AttemptOk(w, j);
      }
    }
  }

  lemma InvStep(w: World, s: Step)
    requires Inv(w)
    ensures Inv(Next(w, s))
  {
    match s
    case CommitClaim(k, answered) =>
      if At(w, k) && w.attempts[k].phase.Claiming? { ClaimKeepsInv(w, k, answered); }
    case CommitReady(k, answered) =>
      if At(w, k) && w.attempts[k].phase.Readying? && |w.attempts[k].phase.texts| == |w.attempts[k].phase.vectors| {
        ReadyKeepsInv(w, k, answered);
      }
    case Settle(k, written) => SettleKeepsInv(w, k, written);
    case Deliver(_) => EarlyKeepsInv(w, s);
    case Look(_) => EarlyKeepsInv(w, s);
    case Claim(_) => EarlyKeepsInv(w, s);
    case AskStatus(_) => ReadKeepsInv(w, s);
    case Read(_, _, _) => ReadKeepsInv(w, s);
    case ClearChunks(_) => LateKeepsInv(w, s);
    case MarkReady(_) => LateKeepsInv(w, s);
    case AskWhy(_) => LateKeepsInv(w, s);
    case Fail(_, _) => EndKeepsInv(w, s);
    case Die(_) => EndKeepsInv(w, s);
    case FailStaleNow(_) => ApiKeepsInv(w, s);
    case DeleteNow => ApiKeepsInv(w, s);
    case PublishRaised(_) => ApiKeepsInv(w, s);
  }

  lemma {:induction false} RunKeepsInv(w: World, steps: seq<Step>)
    requires Inv(w)
    ensures Inv(Exec(w, steps))
  {
    if steps != [] {
      RunKeepsInv(w, steps[..|steps| - 1]);
      InvStep(Exec(w, steps[..|steps| - 1]), steps[|steps| - 1]);
    }
  }

  lemma EveryRunKeepsInv(hasFile: bool, steps: seq<Step>)
    ensures Inv(Exec(Start(hasFile), steps))
  {
    RunKeepsInv(Start(hasFile), steps);
  }

  // ------------------------------------------------------------------ what every run keeps

  predicate Carrying(phase: Phase) {
    phase.Embedded? || phase.Cleared? || phase.Readying?
  }

  /** Step `s` is attempt `k`, at work, getting these texts and embeddings from its document. */
  predicate Reads(w: World, s: Step, k: nat, texts: seq<string>, vectors: seq<seq<real>>) {
    s == Read(k, texts, vectors) && At(w, k) && w.attempts[k].phase.Working?
  }

  ghost predicate ReadIn(hasFile: bool, steps: seq<Step>, k: nat, texts: seq<string>, vectors: seq<seq<real>>) {
    exists j :: 0 <= j < |steps| && Reads(Exec(Start(hasFile), steps[..j]), steps[j], k, texts, vectors)
  }

  lemma ReadLater(hasFile: bool, steps: seq<Step>, k: nat, texts: seq<string>, vectors: seq<seq<real>>)
    requires steps != []
    requires || ReadIn(hasFile, steps[..|steps| - 1], k, texts, vectors)
             || Reads(Exec(Start(hasFile), steps[..|steps| - 1]), steps[|steps| - 1], k, texts, vectors)
    ensures ReadIn(hasFile, steps, k, texts, vectors)
  {
    var front := steps[..|steps| - 1];
    if ReadIn(hasFile, front, k, texts, vectors) {
      var j :| 0 <= j < |front| && Reads(Exec(Start(hasFile), front[..j]), front[j], k, texts, vectors);
      assert front[..j] == steps[..j] && front[j] == steps[j];
    }
  }

  predicate SameLoad(p: Phase, q: Phase) {
    Carrying(p) && Carrying(q) && p.texts == q.texts && p.vectors == q.vectors
  }

  lemma EarlyCarries(w: World, s: Step, k: nat)
    requires k < |EarlyStep(w, s).attempts| && Carrying(EarlyStep(w, s).attempts[k].phase)
    ensures var p := EarlyStep(w, s).attempts[k].phase;
            (k < |w.attempts| && SameLoad(w.attempts[k].phase, p)) || Reads(w, s, k, p.texts, p.vectors)
  {
  }

  lemma LateCarries(w: World, s: Step, k: nat)
    requires k < |LateStep(w, s).attempts| && Carrying(LateStep(w, s).attempts[k].phase)
    ensures k < |w.attempts| && SameLoad(w.attempts[k].phase, LateStep(w, s).attempts[k].phase)
  {
  }

  lemma EndCarries(w: World, s: Step, k: nat)
    requires k < |EndStep(w, s).attempts| && Carrying(EndStep(w, s).attempts[k].phase)
    ensures k < |w.attempts| && SameLoad(w.attempts[k].phase, EndStep(w, s).attempts[k].phase)
  {
  }

  lemma ApiLeavesAttempts(w: World, s: Step)
    ensures ApiStep(w, s).attempts == w.attempts
  {
  }

  predicate IsEarly(s: Step) {
    s.Deliver? || s.Look? || s.Claim? || s.CommitClaim? || s.AskStatus? || s.Read?
  }

  predicate IsLate(s: Step) {
    s.ClearChunks? || s.MarkReady? || s.CommitReady? || s.AskWhy?
  }

  predicate IsEnd(s: Step) {
    s.Fail? || s.Die? || s.Settle?
  }

  lemma NextIs(w: World, s: Step)
    ensures Next(w, s) == if IsEarly(s) then EarlyStep(w, s) else if IsLate(s) then LateStep(w, s)
                          else if IsEnd(s) then EndStep(w, s) else ApiStep(w, s)
  {
  }

  /** What an attempt carries after a step it carried before, or this step read it. */
  lemma CarriedFrom(w: World, w': World, s: Step, k: nat)
    requires w' == Next(w, s) && k < |w'.attempts| && Carrying(w'.attempts[k].phase)
    ensures var p := w'.attempts[k].phase;
            (k < |w.attempts| && SameLoad(w.attempts[k].phase, p)) || Reads(w, s, k, p.texts, p.vectors)
  {
    NextIs(w, s);
    if IsEarly(s) {
      EarlyCarries(w, s, k);
    } else if IsLate(s) {
      LateCarries(w, s, k);
    } else if IsEnd(s) {
      EndCarries(w, s, k);
    } else {
      ApiLeavesAttempts(w, s);
    }
  }

  lemma WinnerFrom(w: World, s: Step)
    requires Next(w, s).winner.Some? && Next(w, s).winner != w.winner
    ensures var it := Next(w, s).winner.value;
            it.attempt < |w.attempts| && w.attempts[it.attempt].phase.Readying?
            && w.attempts[it.attempt].phase.texts == it.texts && w.attempts[it.attempt].phase.vectors == it.vectors
  {
  }

  lemma {:induction false} CarriedWasRead(hasFile: bool, steps: seq<Step>, k: nat)
    requires var w := Exec(Start(hasFile), steps); k < |w.attempts| && Carrying(w.attempts[k].phase)
    ensures var p := Exec(Start(hasFile), steps).attempts[k].phase; ReadIn(hasFile, steps, k, p.texts, p.vectors)
  {
    var front, w := steps[..|steps| - 1], Exec(Start(hasFile), steps[..|steps| - 1]);
    var p := Exec(Start(hasFile), steps).attempts[k].phase;
    CarriedFrom(w, Exec(Start(hasFile), steps), steps[|steps| - 1], k);
    if !Reads(w, steps[|steps| - 1], k, p.texts, p.vectors) {
      CarriedWasRead(hasFile, front, k);
    }
    ReadLater(hasFile, steps, k, p.texts, p.vectors);
  }

  lemma {:induction false} WinnerWasRead(hasFile: bool, steps: seq<Step>)
    requires Exec(Start(hasFile), steps).winner.Some?
    ensures var it := Exec(Start(hasFile), steps).winner.value;
            ReadIn(hasFile, steps, it.attempt, it.texts, it.vectors)
  {
    var front, s := steps[..|steps| - 1], steps[|steps| - 1];
    var w, it := Exec(Start(hasFile), front), Exec(Start(hasFile), steps).winner.value;
    if Next(w, s).winner == w.winner {
      WinnerWasRead(hasFile, front);
    } else {
      WinnerFrom(w, s);
      CarriedWasRead(hasFile, front, it.attempt);
    }
    ReadLater(hasFile, steps, it.attempt, it.texts, it.vectors);
  }

  /**
   Chunks are there exactly while the row is 'ready', and are then everything
   one attempt read of the document: each text once, numbered from zero, with
   its own embedding.
   */
  lemma ReadyMeansWhole(hasFile: bool, steps: seq<Step>)
    ensures var w := Exec(Start(hasFile), steps);
            && (w.chunks != {} <==> w.row.Some? && w.row.value.status.Ready?)
            && (w.chunks != {} ==>
                  exists k: nat, texts: seq<string>, vectors: seq<seq<real>> ::
                    && ReadIn(hasFile, steps, k, texts, vectors)
                    && |vectors| == |texts| == |w.chunks| && w.chunks == FullSet(k, texts, vectors))
  {
    EveryRunKeepsInv(hasFile, steps);
    var w := Exec(Start(hasFile), steps);
    if w.row.Some? && w.row.value.status.Ready? {
      var it := w.winner.value;
      WinnerWasRead(hasFile, steps);
      FullSetIsWhole(it.attempt, it.texts, it.vectors);
    }
  }

  lemma {:induction false} HistoryGrows(w: World, steps: seq<Step>)
    ensures w.history <= Exec(w, steps).history
    ensures w.row.None? ==> Exec(w, steps).row.None?
  {
    if steps != [] {
      HistoryGrows(w, steps[..|steps| - 1]);
      HistoryStep(Exec(w, steps[..|steps| - 1]), steps[|steps| - 1]);
    }
  }

  lemma HistoryStep(w: World, s: Step)
    ensures w.history <= Next(w, s).history
    ensures w.row.None? ==> Next(w, s).row.None?
  {
  }

  lemma ExecMore(w: World, steps: seq<Step>, s: Step)
    ensures Exec(w, steps + [s]) == Next(Exec(w, steps), s)
  {
    assert (steps + [s])[..|steps|] == steps;
  }

  lemma {:induction false} ExecAppend(w: World, first: seq<Step>, second: seq<Step>)
    ensures Exec(w, first + second) == Exec(Exec(w, first), second)
  {
    if second == [] {
      assert first + second == first;
    } else {
      var front, s := second[..|second| - 1], second[|second| - 1];
      ExecAppend(w, first, front);
      ExecMore(w, first + front, s);
      ExecMore(Exec(w, first), front, s);
      assert front + [s] == second;
      assert first + front + [s] == first + second;
    }
  }

  /** The first terminal write stands: its status and its error, until the row is deleted. */
  lemma FirstTerminalWriteWins(hasFile: bool, first: seq<Step>, second: seq<Step>)
    requires Terminal(Exec(Start(hasFile), first).row)
    ensures var before, after := Exec(Start(hasFile), first), Exec(Start(hasFile), first + second);
            && after.history == before.history
            && (after.row.Some? ==> after.row.value.status == before.row.value.status
                                    && after.row.value.error == before.row.value.error)
  {
    ExecAppend(Start(hasFile), first, second);
    EveryRunKeepsInv(hasFile, first);
    EveryRunKeepsInv(hasFile, first + second);
    var before, after := Exec(Start(hasFile), first), Exec(Start(hasFile), first + second);
    HistoryGrows(before, second);
    if |before.history| < |after.history| {
      assert Final(after.history[|before.history| - 1]);
      assert false;
    }
  }

  /** What the row says is always the last write, and no write follows a terminal one. */
  lemma RowIsTheLastWrite(hasFile: bool, steps: seq<Step>)
    ensures var w := Exec(Start(hasFile), steps);
            GoodHistory(w.history) && (w.row.Some? ==> LastIs(w.history, w.row.value))
  {
    EveryRunKeepsInv(hasFile, steps);
  }

  /** An attempt whose call returned, or whose failure was written, leaves a terminal or deleted row. */
  lemma FinishedMeansTerminal(hasFile: bool, steps: seq<Step>, k: nat)
    requires var w := Exec(Start(hasFile), steps);
             k < |w.attempts| && (w.attempts[k].phase == Over(CallReturned) || w.attempts[k].phase == Over(Recorded))
    ensures var w := Exec(Start(hasFile), steps); w.row.None? || Terminal(w.row)
  {
    EveryRunKeepsInv(hasFile, steps);
    assert AttemptOk(Exec(Start(hasFile), steps), k);
  }

  /** The write after a raised publish, made whatever the row says. */
  function PublishWrite(w: World, error: string): World {
    Rewrite(w, FailedAnyway(w.row, error))
  }

  /** It keeps the invariant exactly when the row is gone, or in flight with nobody holding it. */
  lemma PublishWriteIsSafeExactlyInFlight(w: World, error: string)
    requires Inv(w) && w.lock.None?
    ensures Inv(PublishWrite(w, error)) <==> w.row.None? || InFlight(w.row)
  {
    if InFlight(w.row) {
      FailKeepsInv(w, error);
      assert PublishWrite(w, error) == FailRow(w, error);
    } else if w.row.Some? {
      var after := PublishWrite(w, error).history;
      assert Final(after[|w.history| - 1]);
      assert !GoodHistory(after);
    }
  }

  // ------------------------------------------------------------------ what that write can do

  /** A run to 'ready', everything read and committed. */
  const TO_READY := [Deliver(0), Look(0), Claim(0), CommitClaim(0, true), Read(0, ["text"], [[]]),
                     ClearChunks(0), MarkReady(0), CommitReady(0, true)]

  lemma ExecIs(w: World, steps: seq<Step>, k: nat, before: World, after: World)
    requires k < |steps| && Exec(w, steps[..k]) == before && Next(before, steps[k]) == after
    ensures Exec(w, steps[..k + 1]) == after
  {
    assert steps[..k + 1][..k] == steps[..k];
  }

  function Trying(row: Row, lock: Option<nat>, history: seq<Write>, phase: Phase): World {
    World(Some(row), {}, lock, [Attempt(0, None, 0, 0, phase)], history, None)
  }

  const WAITING := Row(Pending, None, true)
  const AT_WORK := Row(Processing, None, true)
  const TWO_WRITES := [Write(Pending, None), Write(Processing, None)]

  lemma RunIsLooked()
    ensures Exec(Start(true), TO_READY[..2]) == Trying(WAITING, None, [Write(Pending, None)], Looked)
  {
    var s0 := Start(true);
    var one := [Write(Pending, None)];
    assert TO_READY[..0] == [];
    assert Next(s0, Deliver(0)) == Trying(WAITING, None, one, Arrived);
    ExecIs(s0, TO_READY, 0, s0, Trying(WAITING, None, one, Arrived));
    ExecIs(s0, TO_READY, 1, Trying(WAITING, None, one, Arrived), Trying(WAITING, None, one, Looked));
  }

  lemma RunIsClaimed()
    ensures Exec(Start(true), TO_READY[..4]) == Trying(AT_WORK, None, TWO_WRITES, Working)
  {
    RunIsLooked();
    var s0 := Start(true);
    var one := [Write(Pending, None)];
    ExecIs(s0, TO_READY, 2, Trying(WAITING, None, one, Looked), Trying(WAITING, Some(0), one, Claiming));
    ExecIs(s0, TO_READY, 3, Trying(WAITING, Some(0), one, Claiming), Trying(AT_WORK, None, TWO_WRITES, Working));
  }

  const READ := Trying(AT_WORK, None, TWO_WRITES, Embedded(["text"], [[]]))
  const CLEARED := Trying(AT_WORK, None, TWO_WRITES, Cleared(["text"], [[]], {}))
  const READYING := Trying(AT_WORK, Some(0), TWO_WRITES, Readying(["text"], [[]], {}))

  lemma WorkSteps()
    ensures Next(Trying(AT_WORK, None, TWO_WRITES, Working), Read(0, ["text"], [[]])) == READ
    ensures Next(READ, ClearChunks(0)) == CLEARED
    ensures Next(CLEARED, MarkReady(0)) == READYING
  {
  }

  lemma RunIsReadying()
    ensures Exec(Start(true), TO_READY[..7]) == READYING
  {
    RunIsClaimed();
    WorkSteps();
    ExecIs(Start(true), TO_READY, 4, Trying(AT_WORK, None, TWO_WRITES, Working), READ);
    ExecIs(Start(true), TO_READY, 5, READ, CLEARED);
    ExecIs(Start(true), TO_READY, 6, CLEARED, READYING);
  }

  lemma RunIsReady()
    ensures var w := Exec(Start(true), TO_READY);
            w.row == Some(Row(Ready, None, true)) && w.chunks != {}
  {
    RunIsReadying();
    ExecIs(Start(true), TO_READY, 7, READYING, Next(READYING, CommitReady(0, true)));
    assert TO_READY[..8] == TO_READY;
    FullSetIsWhole(0, ["text"], [[]]);
  }

  /** After a delivery that got through, it leaves a failed document with chunks. */
  lemma PublishWriteAfterReady(error: string)
    ensures var w := PublishWrite(Exec(Start(true), TO_READY), error);
            w.row == Some(Row(Failed, Some(error), true)) && w.chunks != {}
  {
    RunIsReady();
  }

  /** After a deadline, it replaces the first error. */
  lemma PublishWriteAfterDeadline(hasFile: bool, first: string, error: string)
    ensures var w := Exec(Start(hasFile), [FailStaleNow(first)]);
            && w.row == Some(Row(Failed, Some(first), hasFile))
            && PublishWrite(w, error).row == Some(Row(Failed, Some(error), hasFile))
  {
    assert [FailStaleNow(first)][..0] == [];
  }
}
