/**
 One document row, its chunks, and the writes that change them: the worker's
 two conditional updates and its failure write (packages/core/rag/ingest.py),
 the deadline and the delete (packages/db/repos/documents.py) and the
 unconditional write after a publish that raised
 (apps/api/routers/documents.py).
 */
module Documents {
  import opened Wrappers

  datatype Status = Pending | Processing | Ready | Failed

  datatype Row = Row(status: Status, error: Option<string>, hasFile: bool)

  /** One stored chunk; `attempt` tells apart rows that two attempts wrote alike. */
  datatype Chunk = Chunk(attempt: nat, idx: nat, content: string, embedding: seq<real>)

  const ERROR_LIMIT: nat := 1000
  const NOT_FOUND := "the document no longer exists"
  const NO_STORED_FILE := "the document has no stored file"
  const NOT_IN_FLIGHT := "the document is not in flight (failed or deleted)"
  const NO_CHUNKS := "document produced no chunks after splitting"
  const BAD_EMBEDDINGS := "the embedding service returned an unusable response"
  const DELETED_MEANWHILE := "document deleted during ingestion"
  const LEFT_PROCESSING := "document left processing during ingestion"
  const FILE_MISSING := "the document's stored file is missing"

  /** How an attempt raises: an authored message, the task's time limit, or anything else. */
  datatype Raise = Permanent(message: string) | SoftTimeLimit | Transient

  datatype Outcome = Returned | Raises(raise: Raise)

  /** What reading, splitting and embedding the stored file came to. */
  datatype Work = FileGone | Failing(raise: Raise) | Embedding(texts: seq<string>, vectors: seq<seq<real>>)

  predicate InFlight(row: Option<Row>) {
    row.Some? && (row.value.status.Pending? || row.value.status.Processing?)
  }

  predicate Terminal(row: Option<Row>) {
    row.Some? && (row.value.status.Ready? || row.value.status.Failed?)
  }

  function Claimed(row: Option<Row>): Option<Row> {
    if InFlight(row) then Some(row.value.(status := Processing)) else row
  }

  function Readied(row: Option<Row>): Option<Row> {
    if row.Some? && row.value.status.Processing? then Some(row.value.(status := Ready, error := None)) else row
  }

  function Shortened(error: string): string {
    if |error| > ERROR_LIMIT then error[..ERROR_LIMIT] else error
  }

  function FailedInFlight(row: Option<Row>, error: string): Option<Row> {
    if InFlight(row) then Some(row.value.(status := Failed, error := Some(error))) else row
  }

  function FailedAnyway(row: Option<Row>, error: string): Option<Row> {
    if row.Some? then Some(row.value.(status := Failed, error := Some(error))) else None
  }

  /** The complete chunk set of one attempt. */
  function FullSet(attempt: nat, texts: seq<string>, vectors: seq<seq<real>>): set<Chunk>
    requires |texts| == |vectors|
  {
    set i | 0 <= i < |texts| :: Chunk(attempt, i, texts[i], vectors[i])
  }

  /** A full set has one chunk for each text, numbered from zero, each with its own embedding. */
  lemma {:induction false} FullSetIsWhole(attempt: nat, texts: seq<string>, vectors: seq<seq<real>>)
    requires |texts| == |vectors|
    ensures |FullSet(attempt, texts, vectors)| == |texts|
    ensures forall c :: c in FullSet(attempt, texts, vectors) <==>
              c.attempt == attempt && c.idx < |texts| && c.content == texts[c.idx] && c.embedding == vectors[c.idx]
  {
    if texts != [] {
      var n := |texts| - 1;
      FullSetIsWhole(attempt, texts[..n], vectors[..n]);
      assert FullSet(attempt, texts, vectors) ==
             FullSet(attempt, texts[..n], vectors[..n]) + {Chunk(attempt, n, texts[n], vectors[n])};
    }
  }

  /** The rows `add_all` inserts: texts and embeddings zipped and numbered. */
  method NumberChunks(attempt: nat, texts: seq<string>, vectors: seq<seq<real>>) returns (chunks: seq<Chunk>)
    requires |texts| == |vectors|
    ensures |chunks| == |texts|
    ensures forall i :: 0 <= i < |chunks| ==> chunks[i] == Chunk(attempt, i, texts[i], vectors[i])
    ensures (set c | c in chunks) == FullSet(attempt, texts, vectors)
  {
    chunks := [];
    for i := 0 to |texts|
      invariant |chunks| == i
      invariant forall j :: 0 <= j < i ==> chunks[j] == Chunk(attempt, j, texts[j], vectors[j])
    {
      chunks := chunks + [Chunk(attempt, i, texts[i], vectors[i])];
    }
    forall c | c in FullSet(attempt, texts, vectors)
      ensures c in chunks
    {
      assert c == chunks[c.idx];
    }
  }

  /** The row and its chunks, as committed, changed by one statement at a time. */
  class DocumentStore {
    var row: Option<Row>
    var chunks: set<Chunk>

    constructor (hasFile: bool)
      ensures row == Some(Row(Pending, None, hasFile)) && chunks == {}
    {
      row, chunks := Some(Row(Pending, None, hasFile)), {};
    }

    method Claim() returns (claimed: bool)
      modifies this`row
      ensures claimed == InFlight(old(row))
      ensures row == Claimed(old(row))
    {
      claimed := InFlight(row);
      if claimed { row := Some(Row(Processing, row.value.error, row.value.hasFile)); }
    }

    method MarkDocumentFailed(error: string)
      modifies this`row
      ensures row == FailedInFlight(old(row), Shortened(error))
    {
      if InFlight(row) {
        var short := if |error| > ERROR_LIMIT then error[..ERROR_LIMIT] else error;
        row := Some(Row(Failed, Some(short), row.value.hasFile));
      }
    }

    method FailStale(processingOld: bool, pendingOld: bool, error: string) returns (failed: nat)
      modifies this`row
      ensures failed == 1 <==> old(row).Some? && (if old(row).value.status.Processing? then processingOld
                                                  else old(row).value.status.Pending? && pendingOld)
      ensures failed == 1 ==> row == FailedInFlight(old(row), error) != old(row)
      ensures failed != 1 ==> failed == 0 && row == old(row)
    {
      failed := 0;
      if row.Some? && ((row.value.status.Processing? && processingOld) || (row.value.status.Pending? && pendingOld)) {
        row := Some(Row(Failed, Some(error), row.value.hasFile));
        failed := 1;
      }
    }

    method DeleteOwned() returns (deleted: bool)
      modifies this
      ensures deleted == old(row).Some? && row == None
      ensures chunks == if deleted then {} else old(chunks)
    {
      deleted := row.Some?;
      if deleted { row, chunks := None, {}; }
    }

    /** The last transaction with nobody beside it: replaced chunks and 'ready' together, or nothing. */
    method StoreChunks(attempt: nat, texts: seq<string>, vectors: seq<seq<real>>) returns (stored: bool)
      requires |texts| == |vectors|
      modifies this
      ensures stored <==> old(row).Some? && old(row).value.status.Processing?
      ensures row == Readied(old(row))
      ensures chunks == if stored then FullSet(attempt, texts, vectors) else old(chunks)
    {
      var before := chunks;
      chunks := {};
      stored := row.Some? && row.value.status.Processing?;
      if !stored {
        chunks := before;
        return;
      }
      row := Some(Row(Ready, None, row.value.hasFile));
      var added := NumberChunks(attempt, texts, vectors);
      chunks := chunks + set c | c in added;
    }

    /** One whole attempt with nobody beside it. */
    method Ingest(attempt: nat, work: Work) returns (result: Outcome)
      modifies this
      ensures !InFlight(old(row)) || !old(row).value.hasFile ==> row == old(row) && chunks == old(chunks)
      ensures old(row).None? ==> result == Raises(Permanent(NOT_FOUND))
      ensures old(row).Some? && !old(row).value.hasFile ==> result == Raises(Permanent(NO_STORED_FILE))
      ensures old(row).Some? && old(row).value.hasFile ==>
                result == match old(row).value.status
                          case Ready => Returned
                          case Failed => Raises(Permanent(NOT_IN_FLIGHT))
                          case _ =>
                            match work
                            case FileGone => Raises(Permanent(FILE_MISSING))
                            case Failing(raise) => Raises(raise)
                            case Embedding(texts, vectors) =>
                              if texts == [] then Raises(Permanent(NO_CHUNKS))
                              else if |vectors| != |texts| then Raises(Permanent(BAD_EMBEDDINGS))
                              else Returned
      ensures InFlight(old(row)) && old(row).value.hasFile && result.Raises? ==>
                row == Claimed(old(row)) && chunks == old(chunks)
      ensures InFlight(old(row)) && old(row).value.hasFile && result.Returned? ==>
                row == Some(Row(Ready, None, true)) && chunks == FullSet(attempt, work.texts, work.vectors)
    {
      if row.None? {
        return Raises(Permanent(NOT_FOUND));
      }
      if !row.value.hasFile {
        return Raises(Permanent(NO_STORED_FILE));
      }
      var claimed := Claim();
      if !claimed {
        return if row.value.status.Ready? then Returned else Raises(Permanent(NOT_IN_FLIGHT));
      }
      match work
      case FileGone => return Raises(Permanent(FILE_MISSING));
      case Failing(raise) => return Raises(raise);
      case Embedding(texts, vectors) =>
        if texts == [] {
          return Raises(Permanent(NO_CHUNKS));
        }
        if |vectors| != |texts| {
          return Raises(Permanent(BAD_EMBEDDINGS));
        }
        var stored := StoreChunks(attempt, texts, vectors);
        return Returned;
    }
  }
}
