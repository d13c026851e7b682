/**
 The order in which messages are read back: by `created_at`, which is the start
 of the transaction that stored them, with ties in any order
 (packages/db/models/conversation.py, packages/db/repos/conversations.py). The
 runs of ReplyRuns keep a log in the order of commits.
 */
module Listing {
  import opened Conversations
  import opened History

  datatype Stamped = Stamped(message: Message, createdAt: Time)

  function Messages(rows: seq<Stamped>): (messages: seq<Message>)
    ensures |messages| == |rows| && forall i :: 0 <= i < |rows| ==> messages[i] == rows[i].message
  {
    seq(|rows|, i requires 0 <= i < |rows| => rows[i].message)
  }

  predicate SortedByTime(rows: seq<Stamped>) {
    forall i, j :: 0 <= i < j < |rows| ==> rows[i].createdAt <= rows[j].createdAt
  }

  /** `rows` is what the database may give for the messages of `log`. */
  predicate Lists(rows: seq<Stamped>, log: seq<Stamped>) {
    multiset(rows) == multiset(log) && SortedByTime(rows)
  }

  /** Each message's transaction began after that of the message committed before it. */
  predicate InStartOrder(log: seq<Stamped>) {
    forall i, j :: 0 <= i < j < |log| ==> log[i].createdAt < log[j].createdAt
  }

  predicate Distinct(log: seq<Stamped>) {
    forall i, j :: 0 <= i < j < |log| ==> log[i] != log[j]
  }

  lemma LastApart(rows: seq<Stamped>)
    requires rows != []
    ensures multiset(rows) == multiset(rows[..|rows| - 1]) + multiset{rows[|rows| - 1]}
  {
    assert rows == rows[..|rows| - 1] + [rows[|rows| - 1]];
  }

  /** Without a last message that both share, a listing lists the messages before it. */
  lemma RestLists(rows: seq<Stamped>, log: seq<Stamped>)
    requires Lists(rows, log) && |rows| == |log| > 0 && rows[|log| - 1] == log[|log| - 1]
    ensures Lists(rows[..|log| - 1], log[..|log| - 1])
  {
    var n := |log| - 1;
    LastApart(rows);
    LastApart(log);
    assert multiset(rows[..n]) == multiset(rows) - multiset{log[n]};
    assert multiset(log[..n]) == multiset(log) - multiset{log[n]};
  }

  /** The last row of a listing is the last message, when that is the latest. */
  lemma LatestIsLast(rows: seq<Stamped>, log: seq<Stamped>)
    requires Lists(rows, log) && InStartOrder(log) && log != []
    ensures |rows| == |log| && rows[|log| - 1] == log[|log| - 1]
  {
    var n := |log| - 1;
    assert |rows| == |multiset(rows)| == |multiset(log)| == |log|;
    assert log[n] in multiset(rows) && rows[n] in multiset(log);
    var i :| 0 <= i <= n && rows[i] == log[n];
    var j :| 0 <= j <= n && log[j] == rows[n];
  }

  lemma {:induction false} OneListing(rows: seq<Stamped>, log: seq<Stamped>)
    requires Lists(rows, log) && InStartOrder(log)
    ensures rows == log
  {
    if log == [] {
      assert |rows| == |multiset(rows)| == 0;
    } else {
      var n := |log| - 1;
      LatestIsLast(rows, log);
      RestLists(rows, log);
      OneListing(rows[..n], log[..n]);
      assert rows == rows[..n] + [rows[n]] && log == log[..n] + [log[n]];
    }
  }

  function Insert(rows: seq<Stamped>, s: Stamped): seq<Stamped> {
    if rows == [] then [s]
    else if rows[|rows| - 1].createdAt <= s.createdAt then rows + [s]
    else Insert(rows[..|rows| - 1], s) + [rows[|rows| - 1]]
  }

  function Sorted(log: seq<Stamped>): seq<Stamped> {
    if log == [] then [] else Insert(Sorted(log[..|log| - 1]), log[|log| - 1])
  }

  lemma {:induction false} InsertAdds(rows: seq<Stamped>, s: Stamped)
    ensures multiset(Insert(rows, s)) == multiset(rows) + multiset{s}
  {
    if rows != [] {
      InsertAdds(rows[..|rows| - 1], s);
      LastApart(rows);
    }
  }

  lemma {:induction false} InsertSorts(rows: seq<Stamped>, s: Stamped)
    requires SortedByTime(rows)
    ensures SortedByTime(Insert(rows, s))
  {
    if rows != [] && s.createdAt < rows[|rows| - 1].createdAt {
      var front, last := rows[..|rows| - 1], rows[|rows| - 1];
      InsertSorts(front, s);
      InsertAdds(front, s);
      forall r | r in Insert(front, s)
        ensures r.createdAt <= last.createdAt
      {
        assert r in multiset(Insert(front, s));
      }
    }
  }

  lemma {:induction false} SortedLists(log: seq<Stamped>)
    ensures Lists(Sorted(log), log)
  {
    if log != [] {
      var front, last := log[..|log| - 1], log[|log| - 1];
      SortedLists(front);
      InsertAdds(Sorted(front), last);
      InsertSorts(Sorted(front), last);
      LastApart(log);
    }
  }

  function Swapped(log: seq<Stamped>, i: nat, j: nat): seq<Stamped>
    requires i < j < |log|
  {
    log[i := log[j]][j := log[i]]
  }

  lemma TiesMaySwap(log: seq<Stamped>, i: nat, j: nat)
    requires SortedByTime(log) && Distinct(log) && i < j < |log| && log[i].createdAt == log[j].createdAt
    ensures Lists(Swapped(log, i, j), log) && Swapped(log, i, j) != log
  {
    assert Swapped(log, i, j)[i] == log[j] != log[i];
  }

  ghost predicate ReadsInCommitOrder(log: seq<Stamped>) {
    forall rows :: Lists(rows, log) ==> rows == log
  }

  /** Messages are sure to be read in the order of their commits exactly when their transactions began in it. */
  lemma ReadInCommitOrderExactlyWhen(log: seq<Stamped>)
    requires Distinct(log)
    ensures ReadsInCommitOrder(log) <==> InStartOrder(log)
  {
    if InStartOrder(log) {
      forall rows | Lists(rows, log)
        ensures rows == log
      {
        OneListing(rows, log);
      }
    } else if Sorted(log) == log {
      SortedLists(log);
      var i, j :| 0 <= i < j < |log| && !(log[i].createdAt < log[j].createdAt);
      TiesMaySwap(log, i, j);
    } else {
      SortedLists(log);
    }
  }

  /** Then a well-shaped log that waits for an answer is read, and replayed, as one. */
  lemma ReadHistoryAlternates(rows: seq<Stamped>, log: seq<Stamped>)
    requires InStartOrder(log) && Lists(rows, log)
    requires LogShape(Messages(log)) && log != [] && log[|log| - 1].message.role.User?
    ensures var h := Replay(Messages(rows));
            && h != [] && h[0].role.User? && h[|h| - 1].role.User?
            && forall k :: 0 < k < |h| ==> h[k - 1].role != h[k].role
  {
    OneListing(rows, log);
    ReplayAlternates(Messages(log));
  }

  /**
   A send that began before the save of a reply and claimed after its commit:
   the log waits for its answer, but it is read, always, before that reply, and
   the history handed to the model ends in the reply.
   */
  lemma EarlySendIsReadFirst(before: seq<Stamped>, reply: Stamped, next: Stamped, rows: seq<Stamped>)
    requires InStartOrder(before + [next, reply])
    requires reply.message.role.Assistant?
    requires Lists(rows, before + [reply, next])
    ensures rows == before + [next, reply]
    ensures var h := Replay(Messages(rows)); h != [] && h[|h| - 1].role.Assistant?
  {
    assert multiset(before + [next, reply]) == multiset(before + [reply, next]);
    OneListing(rows, before + [next, reply]);
    assert Messages(rows)[|rows| - 1] == reply.message;
  }
}
