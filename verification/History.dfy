/**
 The history a turn sends to the model: `load_history` in
 apps/api/chat_service.py, which merges neighbouring messages of one role.
 */
module History {
  import opened Conversations

  datatype MessageParam = MessageParam(role: Role, content: string)

  const BLANK_LINE := "\n\n"

  /** What the loop has built after reading `log`. */
  function Replay(log: seq<Message>): seq<MessageParam> {
    if log == [] then []
    else
      var before, m := Replay(log[..|log| - 1]), log[|log| - 1];
      if before != [] && before[|before| - 1].role == m.role then
        before[|before| - 1 := MessageParam(m.role, before[|before| - 1].content + BLANK_LINE + m.content)]
      else before + [MessageParam(m.role, m.content)]
  }

  method LoadHistory(rows: seq<Message>) returns (history: seq<MessageParam>)
    ensures history == Replay(rows)
  {
    history := [];
    for k := 0 to |rows|
      invariant history == Replay(rows[..k])
    {
      assert rows[..k + 1][..k] == rows[..k];
      var m, last := rows[k], |history| - 1;
      if history != [] && history[last].role == m.role {
        history := history[last := MessageParam(m.role, history[last].content + BLANK_LINE + m.content)];
      } else {
        history := history + [MessageParam(m.role, m.content)];
      }
    }
    assert rows[..|rows|] == rows;
  }

  function Concat(runs: seq<seq<Message>>): seq<Message> {
    if runs == [] then [] else Concat(runs[..|runs| - 1]) + runs[|runs| - 1]
  }

  /** The contents of `run`, a blank line between neighbours. */
  function Joined(run: seq<Message>): string
    requires run != []
  {
    if |run| == 1 then run[0].content
    else Joined(run[..|run| - 1]) + BLANK_LINE + run[|run| - 1].content
  }

  predicate Uniform(run: seq<Message>) {
    run != [] && forall j :: 0 <= j < |run| ==> run[j].role == run[0].role
  }

  /** `runs` cuts `log` into its maximal stretches of one role. */
  ghost predicate MaximalRuns(runs: seq<seq<Message>>, log: seq<Message>) {
    && Concat(runs) == log
    && (forall k :: 0 <= k < |runs| ==> Uniform(runs[k]))
    && (forall k :: 0 < k < |runs| ==> runs[k - 1][0].role != runs[k][0].role)
  }

  /** `history` is one entry per run, holding every stored text of that run. */
  ghost predicate Merges(history: seq<MessageParam>, runs: seq<seq<Message>>) {
    && |history| == |runs|
    && forall k :: 0 <= k < |runs| ==>
      runs[k] != [] && history[k] == MessageParam(runs[k][0].role, Joined(runs[k]))
  }

  lemma LastRunGrows(before: seq<seq<Message>>, init: seq<Message>, m: Message) returns (runs: seq<seq<Message>>)
    requires MaximalRuns(before, init) && before != [] && before[|before| - 1][0].role == m.role
    ensures runs == before[..|before| - 1] + [before[|before| - 1] + [m]]
    ensures MaximalRuns(runs, init + [m])
  {
    var n := |before| - 1;
    var grown := before[n] + [m];
    runs := before[..n] + [grown];
    assert Uniform(before[n]) && Uniform(grown);
    assert runs[..n] == before[..n];
    assert Concat(runs) == Concat(before[..n]) + grown;
  }

  lemma RunStarts(before: seq<seq<Message>>, init: seq<Message>, m: Message) returns (runs: seq<seq<Message>>)
    requires MaximalRuns(before, init)
    requires before == [] || before[|before| - 1][0].role != m.role
    ensures runs == before + [[m]] && MaximalRuns(runs, init + [m])
  {
    runs := before + [[m]];
    assert runs[..|runs| - 1] == before;
    assert Uniform([m]);
  }

  lemma {:induction false} ReplayIsTheMaximalRuns(log: seq<Message>) returns (runs: seq<seq<Message>>)
    ensures MaximalRuns(runs, log) && Merges(Replay(log), runs)
  {
    if log == [] {
      return [];
    }
    var init, m := log[..|log| - 1], log[|log| - 1];
    assert log == init + [m];
    var before: seq<seq<Message>> := ReplayIsTheMaximalRuns(init);
    if before != [] && before[|before| - 1][0].role == m.role {
      var grown := before[|before| - 1] + [m];
      assert grown[..|grown| - 1] == before[|before| - 1];
      runs := LastRunGrows(before, init, m);
    } else {
      runs := RunStarts(before, init, m);
    }
  }

  /** A log starts with its user, and an assistant never answers itself. */
  ghost predicate LogShape(log: seq<Message>) {
    && (log != [] ==> log[0].role.User?)
    && forall k :: 0 < k < |log| ==> !(log[k - 1].role.Assistant? && log[k].role.Assistant?)
  }

  lemma {:induction false} ConcatEnds(runs: seq<seq<Message>>)
    requires runs != [] && forall k :: 0 <= k < |runs| ==> runs[k] != []
    ensures Concat(runs) != []
    ensures Concat(runs)[0] == runs[0][0]
    ensures var last := runs[|runs| - 1]; Concat(runs)[|Concat(runs)| - 1] == last[|last| - 1]
  {
    if |runs| > 1 {
      ConcatEnds(runs[..|runs| - 1]);
    } else {
      assert Concat(runs[..0]) == [];
    }
  }

  /** Replaying a well-shaped log that waits for an answer: strictly alternating, the user first and last. */
  lemma ReplayAlternates(log: seq<Message>)
    requires LogShape(log) && log != [] && log[|log| - 1].role.User?
    ensures var h := Replay(log);
            && h != [] && h[0].role.User? && h[|h| - 1].role.User?
            && forall k :: 0 < k < |h| ==> h[k - 1].role != h[k].role
  {
    var runs: seq<seq<Message>> := ReplayIsTheMaximalRuns(log);
    assert Concat([]) == [];
    ConcatEnds(runs);
    var last := runs[|runs| - 1];
    assert Uniform(last);
  }
}
