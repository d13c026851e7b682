/**
 A task's attempts in any run of IngestRuns: how many there are, how long they
 wait, and what they leave (apps/worker/tasks.py).
 */
module IngestTasks {
  import opened Wrappers
  import opened Documents
  import opened IngestRuns

  predicate IsRetried(a: Attempt) {
    a.phase.Over? && a.phase.end.Retried?
  }

  /** Attempt `n` is the retry of attempt `p`. */
  predicate Follows(w: World, p: nat, n: nat) {
    && p < n < |w.attempts|
    && w.attempts[n].task == w.attempts[p].task && w.attempts[n].previous == Some(p)
    && w.attempts[p].phase == Over(Retried(n))
    && w.attempts[n].retries == w.attempts[p].retries + 1
    && w.attempts[n].waited == w.attempts[p].waited + RETRY_BACKOFF_BASE * Power2(w.attempts[p].retries)
  }

  predicate LinkOk(w: World, i: nat)
    requires i < |w.attempts|
  {
    var a := w.attempts[i];
    && a.task <= i && w.attempts[a.task].task == a.task
    && w.attempts[a.task].retries <= a.retries
    && a.waited == RETRY_BACKOFF_BASE * (Power2(a.retries) - Power2(w.attempts[a.task].retries))
    && (if i == a.task then a.previous.None? else a.previous.Some? && Follows(w, a.previous.value, i))
    && (IsRetried(a) ==> Follows(w, i, a.phase.end.next))
  }

  /** Of one task every attempt but the last was retried, each with one retry more. */
  predicate OneAtATime(w: World, i: nat, j: nat)
    requires i < j < |w.attempts|
  {
    w.attempts[i].task == w.attempts[j].task ==>
      IsRetried(w.attempts[i]) && w.attempts[i].retries < w.attempts[j].retries
  }

  ghost predicate Linked(w: World) {
    && (forall i :: 0 <= i < |w.attempts| ==> LinkOk(w, i))
    && (forall i, j :: 0 <= i < j < |w.attempts| ==> OneAtATime(w, i, j))
  }

  /** A step that neither delivers nor retries leaves every attempt's place in its task. */
  predicate SamePlace(a: Attempt, b: Attempt) {
    && b.task == a.task && b.previous == a.previous && b.retries == a.retries && b.waited == a.waited
    && (IsRetried(a) || IsRetried(b) ==> b.phase == a.phase)
  }

  ghost predicate SamePlaces(w: World, w': World) {
    |w'.attempts| == |w.attempts| && forall i :: 0 <= i < |w.attempts| ==> SamePlace(w.attempts[i], w'.attempts[i])
  }

  lemma PlacesKeepLinks(w: World, w': World)
    requires Linked(w) && SamePlaces(w, w')
    ensures Linked(w')
  {
    forall i | 0 <= i < |w'.attempts|
      ensures LinkOk(w', i)
    {
      assert LinkOk(w, i) && SamePlace(w.attempts[i], w'.attempts[i]);
      assert SamePlace(w.attempts[w.attempts[i].task], w'.attempts[w.attempts[i].task]);
      if w.attempts[i].previous.Some? {
        assert SamePlace(w.attempts[w.attempts[i].previous.value], w'.attempts[w.attempts[i].previous.value]);
      }
      if IsRetried(w.attempts[i]) {
        assert SamePlace(w.attempts[w.attempts[i].phase.end.next], w'.attempts[w.attempts[i].phase.end.next]);
      }
    }
    forall i, j | 0 <= i < j < |w'.attempts|
      ensures OneAtATime(w', i, j)
    {
      assert OneAtATime(w, i, j);
      assert SamePlace(w.attempts[i], w'.attempts[i]) && SamePlace(w.attempts[j], w'.attempts[j]);
    }
  }

  lemma EarlyKeepsPlaces(w: World, s: Step)
    requires !s.Deliver?
    ensures SamePlaces(w, EarlyStep(w, s))
  {
  }

  lemma LateKeepsPlaces(w: World, s: Step)
    ensures SamePlaces(w, LateStep(w, s))
  {
  }

  predicate Retries(w: World, s: Step) {
    && s.Settle? && s.written && At(w, s.k) && w.attempts[s.k].phase.Raised?
    && Decide(w.attempts[s.k].phase.raise, w.attempts[s.k].retries).RetryIn?
  }

  lemma EndKeepsPlaces(w: World, s: Step)
    requires !Retries(w, s)
    ensures SamePlaces(w, EndStep(w, s))
  {
  }

  lemma DeliveryLinks(w: World, retries: nat)
    requires Linked(w)
    ensures Linked(w.(attempts := w.attempts + [Delivered(w, retries)]))
  {
    var w' := w.(attempts := w.attempts + [Delivered(w, retries)]);
    forall i | 0 <= i < |w'.attempts|
      ensures LinkOk(w', i)
    {
      if i < |w.attempts| { assert LinkOk(w, i); }
    }
    forall i, j | 0 <= i < j < |w'.attempts|
      ensures OneAtATime(w', i, j)
    {
      assert LinkOk(w, i);
      if j < |w.attempts| { assert OneAtATime(w, i, j); }
    }
  }

  lemma RetryLinksItself(w: World, w': World, k: nat)
    requires Linked(w) && k < |w.attempts| && !w.attempts[k].phase.Over?
    requires w'.attempts == w.attempts[k := w.attempts[k].(phase := Over(Retried(|w.attempts|)))]
                            + [RetryOf(w, k, RETRY_BACKOFF_BASE * Power2(w.attempts[k].retries))]
    ensures LinkOk(w', |w.attempts|) && LinkOk(w', k)
  {
    assert LinkOk(w, k);
    assert Power2(w.attempts[k].retries + 1) == 2 * Power2(w.attempts[k].retries);
  }

  lemma RetryLinks(w: World, w': World, k: nat)
    requires Linked(w) && k < |w.attempts| && !w.attempts[k].phase.Over?
    requires w'.attempts == w.attempts[k := w.attempts[k].(phase := Over(Retried(|w.attempts|)))]
                            + [RetryOf(w, k, RETRY_BACKOFF_BASE * Power2(w.attempts[k].retries))]
    ensures Linked(w')
  {
    var n := |w.attempts|;
    RetryLinksItself(w, w', k);
    forall i | 0 <= i < |w'.attempts|
      ensures LinkOk(w', i)
    {
      if i < n && i != k { assert LinkOk(w, i); }
    }
    forall i, j | 0 <= i < j < |w'.attempts|
      ensures OneAtATime(w', i, j)
    {
      if j < n {
        assert OneAtATime(w, i, j);
      } else if i < k {
        assert OneAtATime(w, i, k);
      } else if k < i {
        assert OneAtATime(w, k, i);
      }
    }
  }

  lemma LinkStep(w: World, s: Step)
    requires Linked(w)
    ensures Linked(Next(w, s))
  {
    NextIs(w, s);
    if s.Deliver? {
      if s.retries <= MAX_RETRIES { DeliveryLinks(w, s.retries); }
    } else if Retries(w, s) {
      RetryLinks(w, Next(w, s), s.k);
    } else if IsEarly(s) {
      EarlyKeepsPlaces(w, s);
      PlacesKeepLinks(w, Next(w, s));
    } else if IsLate(s) {
      LateKeepsPlaces(w, s);
      PlacesKeepLinks(w, Next(w, s));
    } else if IsEnd(s) {
      EndKeepsPlaces(w, s);
      PlacesKeepLinks(w, Next(w, s));
    } else {
      ApiLeavesAttempts(w, s);
      PlacesKeepLinks(w, Next(w, s));
    }
  }

  lemma {:induction false} EveryRunIsLinked(hasFile: bool, steps: seq<Step>)
    ensures Linked(Exec(Start(hasFile), steps))
  {
    if steps != [] {
      EveryRunIsLinked(hasFile, steps[..|steps| - 1]);
      LinkStep(Exec(Start(hasFile), steps[..|steps| - 1]), steps[|steps| - 1]);
    }
  }

  /** The attempts of the task that began with attempt `t`. */
  function AttemptsOf(w: World, t: nat): set<nat> {
    set i: nat | i < |w.attempts| && w.attempts[i].task == t
  }

  /** Attempts whose retry counts all differ and lie between two bounds. */
  lemma {:induction false} DistinctRetries(w: World, some: set<nat>, low: nat, high: nat)
    requires low <= high
    requires forall i :: i in some ==> i < |w.attempts| && low <= w.attempts[i].retries < high
    requires forall i, j :: i in some && j in some && i != j ==> w.attempts[i].retries != w.attempts[j].retries
    ensures |some| <= high - low
    decreases high - low
  {
    if low == high {
      assert forall i :: i !in some;
      assert some == {};
    } else if i :| i in some && w.attempts[i].retries == low {
      DistinctRetries(w, some - {i}, low + 1, high);
    } else {
      DistinctRetries(w, some, low + 1, high);
    }
  }

  lemma PowersAreSmall(k: nat)
    requires k <= 3
    ensures 1 <= Power2(k) <= 8
  {
    assert Power2(3) == 2 * Power2(2) == 4 * Power2(1) == 8 * Power2(0);
  }

  /**
   In every run: a task has a first attempt and at most MAX_RETRIES retries; each
   follows the one before it with one retry more, five seconds and then twice
   as long after it each time; and all its waits come to 35 seconds at most.
   */
  lemma RetriesAreBounded(hasFile: bool, steps: seq<Step>, i: nat)
    requires i < |Exec(Start(hasFile), steps).attempts|
    ensures var w := Exec(Start(hasFile), steps);
            var a := w.attempts[i];
            && a.task <= i && w.attempts[a.task].retries <= a.retries <= MAX_RETRIES
            && |AttemptsOf(w, a.task)| <= MAX_RETRIES + 1 - w.attempts[a.task].retries
            && a.waited == RETRY_BACKOFF_BASE * (Power2(a.retries) - Power2(w.attempts[a.task].retries)) <= 35
            && (i != a.task ==> a.previous.Some? && Follows(w, a.previous.value, i))
  {
    EveryRunKeepsInv(hasFile, steps);
    EveryRunIsLinked(hasFile, steps);
    var w := Exec(Start(hasFile), steps);
    var t := w.attempts[i].task;
    assert AttemptOk(w, i) && LinkOk(w, i);
    PowersAreSmall(w.attempts[i].retries);
    PowersAreSmall(w.attempts[t].retries);
    forall j | j in AttemptsOf(w, t)
      ensures w.attempts[t].retries <= w.attempts[j].retries < MAX_RETRIES + 1
    {
      assert AttemptOk(w, j) && LinkOk(w, j);
    }
    forall j, k | j in AttemptsOf(w, t) && k in AttemptsOf(w, t) && j != k
      ensures w.attempts[j].retries != w.attempts[k].retries
    {
      assert if j < k then OneAtATime(w, j, k) else OneAtATime(w, k, j);
    }
    DistinctRetries(w, AttemptsOf(w, t), w.attempts[t].retries, MAX_RETRIES + 1);
  }

  /** An attempt that is over, whose decision was carried out. */
  predicate CarriedOut(a: Attempt) {
    a.phase.Over? && !a.phase.end.Died? && !a.phase.end.Unrecorded?
  }

  lemma {:induction false} LastOf(some: set<nat>) returns (last: nat)
    requires some != {}
    ensures last in some && forall i :: i in some ==> i <= last
  {
    last :| last in some;
    var rest := some - {last};
    assert some == rest + {last};
    if rest != {} {
      var other := LastOf(rest);
      if last < other { last := other; }
    }
  }

  /**
   In every run: once all of a task's attempts are over, none having died and
   no write or retry of theirs lost, the row is terminal or deleted.
   */
  lemma TasksEndTerminal(hasFile: bool, steps: seq<Step>, t: nat)
    requires var w := Exec(Start(hasFile), steps);
             AttemptsOf(w, t) != {} && forall i :: i in AttemptsOf(w, t) ==> CarriedOut(w.attempts[i])
    ensures var w := Exec(Start(hasFile), steps); w.row.None? || Terminal(w.row)
  {
    var w := Exec(Start(hasFile), steps);
    EveryRunIsLinked(hasFile, steps);
    var last := LastOf(AttemptsOf(w, t));
    assert LinkOk(w, last);
    FinishedMeansTerminal(hasFile, steps, last);
  }
}
