/**
 What one attempt of IngestRuns comes to: alone, from its delivery to its
 return or failure (packages/core/rag/ingest.py), and what its task does with a
 failure in any world (apps/worker/tasks.py).
 */
module IngestOutcomes {
  import opened Wrappers
  import opened Documents
  import opened IngestRuns

  /** The statements of attempt `k` up to its work; one that cannot happen leaves the world alone. */
  function OpeningSteps(k: nat): seq<Step> {
    [Look(k)] + [Claim(k)] + [CommitClaim(k, true)] + [AskStatus(k)]
  }

  /** And its work, with the last transaction if it comes to that. */
  function WorkingSteps(k: nat, work: Work): seq<Step> {
    match work
    case FileGone => [Fail(k, Permanent("the document's stored file is missing"))]
    case Failing(raise) => [Fail(k, raise)]
    case Embedding(texts, vectors) =>
      [Read(k, texts, vectors)] + [ClearChunks(k)] + [MarkReady(k)] + [CommitReady(k, true)]
  }

  /** The world but for attempt `k`, which has come to `phase`, and the row. */
  predicate ComesTo(w: World, later: World, k: nat, row: Option<Row>, phase: Phase)
    requires k < |w.attempts|
  {
    && later.attempts == w.attempts[k := w.attempts[k].(phase := phase)]
    && later.row == row && later.lock.None?
  }

  /** An attempt with nothing to do, or whose document is at work. */
  ghost predicate Opened(w: World, later: World, k: nat)
    requires k < |w.attempts|
  {
    && later.chunks == w.chunks
    && if w.row.None? then ComesTo(w, later, k, w.row, Raised(Permanent("the document no longer exists")))
       else if !w.row.value.hasFile then
         ComesTo(w, later, k, w.row, Raised(Permanent("the document has no stored file")))
       else match w.row.value.status
            case Ready => ComesTo(w, later, k, w.row, Over(CallReturned))
            case Failed =>
              ComesTo(w, later, k, w.row, Raised(Permanent("the document is not in flight (failed or deleted)")))
            case _ => ComesTo(w, later, k, Some(Row(Processing, w.row.value.error, true)), Working)
  }

  lemma ExecFour(w: World, a: Step, b: Step, c: Step, d: Step)
    ensures Exec(w, [a] + [b] + [c] + [d]) == Next(Next(Next(Next(w, a), b), c), d)
  {
    assert [a][..0] == [] && Exec(w, [a]) == Next(w, a);
    ExecMore(w, [a], b);
    ExecMore(w, [a] + [b], c);
    ExecMore(w, [a] + [b] + [c], d);
  }

  lemma OpensAlone(w: World, k: nat)
    requires k < |w.attempts| && w.attempts[k].phase.Arrived? && w.lock.None?
    ensures Opened(w, Exec(w, OpeningSteps(k)), k)
  {
    ExecFour(w, Look(k), Claim(k), CommitClaim(k, true), AskStatus(k));
    var looked := Next(w, Look(k));
    if looked.attempts[k].phase.Looked? {
      ClaimsAlone(looked, k);
    }
  }

  lemma ClaimsAlone(w: World, k: nat)
    requires k < |w.attempts| && w.attempts[k].phase.Looked? && w.lock.None?
    ensures var later := Next(Next(Next(w, Claim(k)), CommitClaim(k, true)), AskStatus(k));
            && later.chunks == w.chunks
            && if InFlight(w.row) then ComesTo(w, later, k, Claimed(w.row), Working)
               else ComesTo(w, later, k, w.row, if w.row.Some? && w.row.value.status.Ready? then Over(CallReturned)
                                                else Raised(Permanent(NOT_IN_FLIGHT)))
  {
    var claimed := Next(w, Claim(k));
    if InFlight(w.row) {
      assert Next(claimed, CommitClaim(k, true)).attempts[k].phase.Working?;
    } else {
      assert claimed.attempts[k].phase.Missed? && Next(claimed, CommitClaim(k, true)) == claimed;
    }
  }

  /** The end of an attempt whose document is at work. */
  ghost predicate Worked(w: World, later: World, k: nat, work: Work)
    requires k < |w.attempts| && w.row.Some?
  {
    match work
    case FileGone =>
      && later.chunks == w.chunks
      && ComesTo(w, later, k, w.row, Raised(Permanent("the document's stored file is missing")))
    case Failing(raise) => later.chunks == w.chunks && ComesTo(w, later, k, w.row, Raised(raise))
    case Embedding(texts, vectors) =>
      if texts == [] || |vectors| != |texts| then
        && later.chunks == w.chunks
        && ComesTo(w, later, k, w.row,
                   Raised(Permanent(if texts == [] then "document produced no chunks after splitting"
                                    else "the embedding service returned an unusable response")))
      else
        && later.chunks == FullSet(k, texts, vectors)
        && ComesTo(w, later, k, Some(Row(Ready, None, w.row.value.hasFile)), Over(CallReturned))
  }

  lemma ClearsAlone(w: World, k: nat, texts: seq<string>, vectors: seq<seq<real>>)
    requires k < |w.attempts| && w.attempts[k].phase == Embedded(texts, vectors) && w.lock.None?
    requires w.row.Some? && w.row.value.status.Processing?
    ensures Next(Next(w, ClearChunks(k)), MarkReady(k)) ==
            To(w.(lock := Some(k)), k, Readying(texts, vectors, w.chunks))
  {
    assert Next(w, ClearChunks(k)) == To(w, k, Cleared(texts, vectors, w.chunks));
    var moved := w.attempts[k].(phase := Cleared(texts, vectors, w.chunks));
    assert w.attempts[k := moved][k := moved.(phase := Readying(texts, vectors, w.chunks))]
        == w.attempts[k := w.attempts[k].(phase := Readying(texts, vectors, w.chunks))];
  }

  lemma CommitsAlone(w: World, k: nat, texts: seq<string>, vectors: seq<seq<real>>)
    requires k < |w.attempts| && |texts| == |vectors|
    requires w.row.Some? && w.row.value.status.Processing?
    ensures var later := Next(To(w.(lock := Some(k)), k, Readying(texts, vectors, w.chunks)), CommitReady(k, true));
            && later.chunks == FullSet(k, texts, vectors)
            && ComesTo(w, later, k, Some(Row(Ready, None, w.row.value.hasFile)), Over(CallReturned))
  {
    var readying := Readying(texts, vectors, w.chunks);
    var w' := To(w.(lock := Some(k)), k, readying);
    assert w'.attempts[k := w'.attempts[k].(phase := Over(CallReturned))]
        == w.attempts[k := w.attempts[k].(phase := Over(CallReturned))];
    assert (w.chunks - w.chunks) + FullSet(k, texts, vectors) == FullSet(k, texts, vectors);
  }

  lemma EmbeddedAlone(w: World, k: nat, texts: seq<string>, vectors: seq<seq<real>>)
    requires k < |w.attempts| && w.attempts[k].phase.Working? && w.lock.None?
    requires w.row.Some? && w.row.value.status.Processing? && texts != [] && |texts| == |vectors|
    ensures var later := Next(Next(Next(Next(w, Read(k, texts, vectors)), ClearChunks(k)), MarkReady(k)),
                              CommitReady(k, true));
            && later.chunks == FullSet(k, texts, vectors)
            && ComesTo(w, later, k, Some(Row(Ready, None, w.row.value.hasFile)), Over(CallReturned))
  {
    var read := Next(w, Read(k, texts, vectors));
    assert read == To(w, k, Embedded(texts, vectors));
    ClearsAlone(read, k, texts, vectors);
    CommitsAlone(read, k, texts, vectors);
    assert read.attempts[k := read.attempts[k].(phase := Over(CallReturned))]
        == w.attempts[k := w.attempts[k].(phase := Over(CallReturned))];
  }

  lemma UnusableAlone(w: World, k: nat, texts: seq<string>, vectors: seq<seq<real>>)
    requires k < |w.attempts| && w.attempts[k].phase.Working? && (texts == [] || |vectors| != |texts|)
    ensures Next(Next(Next(Next(w, Read(k, texts, vectors)), ClearChunks(k)), MarkReady(k)), CommitReady(k, true)) ==
            To(w, k, Raised(Permanent(if texts == [] then NO_CHUNKS else BAD_EMBEDDINGS)))
  {
  }

  lemma WorksAlone(w: World, k: nat, work: Work)
    requires k < |w.attempts| && w.attempts[k].phase.Working? && w.lock.None?
    requires w.row.Some? && w.row.value.status.Processing?
    ensures Worked(w, Exec(w, WorkingSteps(k, work)), k, work)
  {
    match work
    case FileGone => assert [Fail(k, Permanent(FILE_MISSING))][..0] == [];
    case Failing(raise) => assert [Fail(k, raise)][..0] == [];
    case Embedding(texts, vectors) =>
      ExecFour(w, Read(k, texts, vectors), ClearChunks(k), MarkReady(k), CommitReady(k, true));
      if texts == [] || |vectors| != |texts| {
        UnusableAlone(w, k, texts, vectors);
      } else {
        EmbeddedAlone(w, k, texts, vectors);
      }
  }

  lemma NoStatementLeft(w: World, s: Step, k: nat)
    requires k < |w.attempts| && (w.attempts[k].phase.Over? || w.attempts[k].phase.Raised?)
    requires s.Read? || s.ClearChunks? || s.MarkReady? || s.CommitReady?
    requires s.k == k
    ensures Next(w, s) == w
  {
  }

  lemma OverStays(w: World, k: nat, work: Work)
    requires k < |w.attempts| && (w.attempts[k].phase.Over? || w.attempts[k].phase.Raised?)
    ensures Exec(w, WorkingSteps(k, work)) == w
  {
    match work
    case FileGone => assert [Fail(k, Permanent(FILE_MISSING))][..0] == [];
    case Failing(raise) => assert [Fail(k, raise)][..0] == [];
    case Embedding(texts, vectors) =>
      ExecFour(w, Read(k, texts, vectors), ClearChunks(k), MarkReady(k), CommitReady(k, true));
      NoStatementLeft(w, Read(k, texts, vectors), k);
      NoStatementLeft(w, ClearChunks(k), k);
      NoStatementLeft(w, MarkReady(k), k);
      NoStatementLeft(w, CommitReady(k, true), k);
  }

  /**
   One attempt from its delivery on, with nobody beside it: each way it
   returns or raises, with which message, and the row and chunks it leaves.
   */
  lemma AttemptAlone(w: World, k: nat, work: Work)
    requires k < |w.attempts| && w.attempts[k].phase.Arrived? && w.lock.None?
    ensures var later := Exec(w, OpeningSteps(k) + WorkingSteps(k, work));
            if w.row.Some? && w.row.value.hasFile && (w.row.value.status.Pending? || w.row.value.status.Processing?)
            then Worked(w.(row := Some(Row(Processing, w.row.value.error, true))), later, k, work)
            else Opened(w, later, k)
  {
    var begun := Exec(w, OpeningSteps(k));
    OpensAlone(w, k);
    ExecAppend(w, OpeningSteps(k), WorkingSteps(k, work));
    if begun.attempts[k].phase.Working? { WorksAlone(begun, k, work); } else { OverStays(begun, k, work); }
  }

  // ------------------------------------------------------------------ which failures are retried, and what is recorded

  /** `later` is `w` but for attempt `k`, now at `phase`, and the attempts added since. */
  predicate OnlyMoves(w: World, later: World, k: nat, phase: Phase, added: seq<Attempt>)
    requires k < |w.attempts|
  {
    && later.attempts == w.attempts[k := w.attempts[k].(phase := phase)] + added
    && later.chunks == w.chunks && later.lock == w.lock && later.winner == w.winner
  }

  /**
   A failure of a service is retried until three retries are spent, after 5,
   10 and 20 seconds; the document is left as it was.
   */
  lemma TransientIsRetried(w: World, k: nat)
    requires k < |w.attempts| && w.attempts[k].phase == Raised(Transient) && w.attempts[k].retries < 3
    ensures var w', a := Next(w, Settle(k, true)), w.attempts[k];
            var seconds := if a.retries == 0 then 5 else if a.retries == 1 then 10 else 20;
            && w'.row == w.row && w'.history == w.history
            && OnlyMoves(w, w', k, Over(Retried(|w.attempts|)),
                         [Attempt(a.task, Some(k), a.retries + 1, a.waited + seconds, Arrived)])
  {
    assert Power2(0) == 1 && Power2(1) == 2 * Power2(0) && Power2(2) == 2 * Power2(1);
  }

  /** What a document that cannot be ingested is told, or None while a retry may still help. */
  function Told(a: Attempt): Option<string>
    requires a.phase.Raised?
  {
    match a.phase.raise
    case Permanent(message) => Some(message)
    case SoftTimeLimit => Some("processing took too long; split the document and upload the parts")
    case Transient =>
      if a.retries < 3 then None
      else Some("ingestion failed after retries (temporary service error); re-upload to retry")
  }

  /**
   A failure that no retry can help ends its task: the row, if still in flight,
   is 'failed' with the first thousand characters of what there is to tell, and
   a row that is ready, failed or gone stays.
   */
  lemma LastFailureIsRecorded(w: World, k: nat)
    requires k < |w.attempts| && w.attempts[k].phase.Raised? && Told(w.attempts[k]).Some? && w.lock.None?
    ensures var w', message := Next(w, Settle(k, true)), Told(w.attempts[k]).value;
            var short := if |message| > 1000 then message[..1000] else message;
            && OnlyMoves(w, w', k, Over(Recorded), [])
            && if w.row.Some? && (w.row.value.status.Pending? || w.row.value.status.Processing?)
               then && w'.row == Some(Row(Failed, Some(short), w.row.value.hasFile))
                    && w'.history == w.history + [Write(Failed, Some(short))]
               else w'.row == w.row && w'.history == w.history
  {
  }

  /** An attempt whose failure no retry can help is still to be settled, or over without one. */
  predicate NotRetried(w: World, k: nat, raise: Raise) {
    && k < |w.attempts|
    && match w.attempts[k].phase
       case Raised(r) => r == raise
       case Over(end) => !end.CallReturned? && !end.Retried?
       case _ => false
  }

  lemma NotRetriedAtFirst(w: World, s: Step, k: nat, raise: Raise)
    requires NotRetried(w, k, raise)
    ensures NotRetried(EarlyStep(w, s), k, raise)
  {
  }

  lemma NotRetriedAtWork(w: World, s: Step, k: nat, raise: Raise)
    requires NotRetried(w, k, raise)
    ensures NotRetried(LateStep(w, s), k, raise)
  {
  }

  lemma NotRetriedAtTheEnd(w: World, s: Step, k: nat, raise: Raise)
    requires !raise.Transient? && NotRetried(w, k, raise)
    ensures NotRetried(EndStep(w, s), k, raise)
  {
  }

  lemma NotRetriedStep(w: World, s: Step, k: nat, raise: Raise)
    requires !raise.Transient? && NotRetried(w, k, raise)
    ensures NotRetried(Next(w, s), k, raise)
  {
    NextIs(w, s);
    NotRetriedAtFirst(w, s, k, raise);
    NotRetriedAtWork(w, s, k, raise);
    NotRetriedAtTheEnd(w, s, k, raise);
    ApiLeavesAttempts(w, s);
  }

  /** Whatever follows, an authored failure or the time limit is never retried. */
  lemma {:induction false} OnlyTransientIsRetried(w: World, steps: seq<Step>, k: nat)
    requires k < |w.attempts| && w.attempts[k].phase.Raised? && !w.attempts[k].phase.raise.Transient?
    ensures NotRetried(Exec(w, steps), k, w.attempts[k].phase.raise)
  {
    if steps != [] {
      OnlyTransientIsRetried(w, steps[..|steps| - 1], k);
      NotRetriedStep(Exec(w, steps[..|steps| - 1]), steps[|steps| - 1], k, w.attempts[k].phase.raise);
    }
  }

  // ------------------------------------------------------------------ what an attempt meets beside others

  /**
   The last transaction marks exactly a row at work, and locks it. Else the
   attempt rolls back, and says why: the row went, or was failed meanwhile; a
   row that another delivery made ready is no failure.
   */
  lemma LastTransactionExactly(w: World, k: nat)
    requires k < |w.attempts| && w.attempts[k].phase.Cleared? && w.lock.None?
    ensures var p := w.attempts[k].phase;
            var marked := Next(w, MarkReady(k));
            && marked.row == w.row && marked.chunks == w.chunks
            && if w.row.Some? && w.row.value.status.Processing?
               then marked.lock == Some(k) && marked.attempts[k].phase == Readying(p.texts, p.vectors, p.gone)
               else
                 && marked.lock.None?
                 && Next(marked, AskWhy(k)).row == w.row && Next(marked, AskWhy(k)).chunks == w.chunks
                 && Next(marked, AskWhy(k)).attempts[k].phase ==
                    if w.row.None? then Raised(Permanent("document deleted during ingestion"))
                    else if w.row.value.status.Ready? then Over(CallReturned)
                    else Raised(Permanent("document left processing during ingestion"))
  {
  }

  /** A commit whose answer is lost has happened, and is a failure of the service to its attempt. */
  lemma LostAnswersAreTransient(w: World, k: nat)
    requires k < |w.attempts| && w.row.Some? && w.lock == Some(k)
    ensures w.attempts[k].phase.Claiming? && (w.row.value.status.Pending? || w.row.value.status.Processing?) ==>
              var w' := Next(w, CommitClaim(k, false));
              && w'.attempts[k].phase == Raised(Transient) && w'.lock.None? && w'.chunks == w.chunks
              && w'.row == Some(Row(Processing, w.row.value.error, w.row.value.hasFile))
    ensures w.attempts[k].phase.Readying? && |w.attempts[k].phase.texts| == |w.attempts[k].phase.vectors|
            && w.row.value.status.Processing? ==>
              var w', p := Next(w, CommitReady(k, false)), w.attempts[k].phase;
              && w'.attempts[k].phase == Raised(Transient) && w'.lock.None?
              && w'.row == Some(Row(Ready, None, w.row.value.hasFile))
              && w'.chunks == (w.chunks - p.gone) + FullSet(k, p.texts, p.vectors)
  {
  }

  /** The deadline fails exactly a row in flight, and a delete takes the row with its chunks; no attempt is touched. */
  lemma ApiWritesExactly(w: World, error: string)
    requires w.lock.None?
    ensures var failed := Next(w, FailStaleNow(error));
            && failed.attempts == w.attempts && failed.chunks == w.chunks
            && failed.row == if w.row.Some? && (w.row.value.status.Pending? || w.row.value.status.Processing?)
                             then Some(Row(Failed, Some(error), w.row.value.hasFile)) else w.row
    ensures var gone := Next(w, DeleteNow);
            gone.attempts == w.attempts && (w.row.Some? ==> gone.row.None? && gone.chunks == {})
  {
  }
}
