/**
 Session revocation (packages/core/auth/revocation.py) for one user: the cutoff
 column, the cached copy with its time to live, and any number of checks and
 publications whose separate Redis and database operations interleave freely.
 Every Redis operation may also fail.
 */
module Revocation {
  import opened Wrappers

  /** Seconds; the cutoff column counts microseconds. */
  type Time = int

  const SVA_CACHE_TTL_S: nat := 300

  function Encode(cutoff: nat): nat {
    cutoff / 1_000_000
  }

  datatype Entry = Entry(cut: nat, expireAt: Time)

  predicate Alive(cache: Option<Entry>, now: Time) {
    cache.Some? && now < cache.value.expireAt
  }

  datatype PubPhase = MustSet | MustDel | Returned

  /** One bump of the cutoff, committed at `at`, and how far its publication has come. */
  datatype Pub = Pub(cutoff: nat, at: Time, phase: PubPhase)

  datatype CheckPhase = Begun | Missed | NoCache | Fetched(cut: nat, readAt: Time) | Decided(revoked: bool)

  /**
   `login`, in microseconds, is when its session was opened; `floor` is the
   largest cutoff whose publication had returned when the check began.
   */
  datatype Check = Check(login: nat, begunAt: Time, floor: nat, phase: CheckPhase) {
    /** `auth_time`: the whole second in which the session was opened. */
    function Auth(): nat {
      Encode(login)
    }
  }

  datatype World = World(db: Option<nat>, cache: Option<Entry>, clock: Time, published: nat,
                         pubs: seq<Pub>, checks: seq<Check>)

  datatype Step =
    | Bump(now: Time, cutoff: nat)
    | DeleteUser(now: Time)
    | SetStored(now: Time, pub: nat)
    | SetRefused(now: Time, pub: nat)
    | SetAnswerLost(now: Time, pub: nat)
    | DelDone(now: Time, pub: nat)
    | DelRefused(now: Time, pub: nat)
    | Begin(now: Time, login: nat)
    | Get(now: Time, check: nat)
    | GetRefused(now: Time, check: nat)
    | Fetch(now: Time, check: nat)
    | Fill(now: Time, check: nat)
    | FillRefused(now: Time, check: nat)

  function Start(db: nat, now: Time): World {
    World(Some(db), None, now, 0, [], [])
  }

  function PubTo(w: World, j: nat, phase: PubPhase): (w': World)
    requires j < |w.pubs|
  {
    w.(pubs := w.pubs[j := w.pubs[j].(phase := phase)])
  }

  function CheckTo(w: World, i: nat, phase: CheckPhase): World
    requires i < |w.checks|
  {
    w.(checks := w.checks[i := w.checks[i].(phase := phase)])
  }

  predicate PubAt(w: World, j: nat, phase: PubPhase) {
    j < |w.pubs| && w.pubs[j].phase == phase
  }

  predicate CheckAt(w: World, i: nat) {
    i < |w.checks| && !w.checks[i].phase.Decided?
  }

  function Max(a: nat, b: nat): nat {
    if a < b then b else a
  }

  function Stored(w: World, now: Time, j: nat): World
    requires j < |w.pubs|
  {
    w.(clock := now, cache := Some(Entry(Encode(w.pubs[j].cutoff), now + SVA_CACHE_TTL_S)))
  }

  /** The cutoff only moves forward; every step takes place no earlier than the one before it. */
  function PubStep(w: World, s: Step): World
    requires w.clock <= s.now
  {
    match s
    case Bump(now, cutoff) =>
      if w.db.Some? && w.db.value <= cutoff
      then w.(db := Some(cutoff), clock := now, pubs := w.pubs + [Pub(cutoff, now, MustSet)])
      else w
    case DeleteUser(now) => w.(db := None, clock := now)
    case SetStored(now, j) =>
      if PubAt(w, j, MustSet)
      then PubTo(Stored(w, now, j).(published := Max(w.published, Encode(w.pubs[j].cutoff))), j, Returned)
      else w
    case SetRefused(now, j) => if PubAt(w, j, MustSet) then PubTo(w.(clock := now), j, MustDel) else w
    case SetAnswerLost(now, j) => if PubAt(w, j, MustSet) then PubTo(Stored(w, now, j), j, MustDel) else w
    case DelDone(now, j) => if PubAt(w, j, MustDel) then PubTo(w.(clock := now, cache := None), j, Returned) else w
    case DelRefused(now, j) => if PubAt(w, j, MustDel) then PubTo(w.(clock := now), j, Returned) else w
    case _ => w
  }

  function CheckStep(w: World, s: Step): World
    requires w.clock <= s.now
  {
    match s
    case Begin(now, login) => w.(clock := now, checks := w.checks + [Check(login, now, w.published, Begun)])
    case Get(now, i) =>
      if CheckAt(w, i) && w.checks[i].phase.Begun?
      then CheckTo(w.(clock := now), i,
                   if Alive(w.cache, now) then Decided(w.checks[i].Auth() < w.cache.value.cut) else Missed)
      else w
    case GetRefused(now, i) =>
      if CheckAt(w, i) && w.checks[i].phase.Begun? then CheckTo(w.(clock := now), i, NoCache) else w
    case Fetch(now, i) =>
      if CheckAt(w, i) && (w.checks[i].phase.Missed? || w.checks[i].phase.NoCache?)
      then CheckTo(w.(clock := now), i,
                   if w.db.None? then Decided(true)
                   else if w.checks[i].phase.NoCache? then Decided(w.checks[i].Auth() < Encode(w.db.value))
                   else Fetched(Encode(w.db.value), now))
      else w
    case Fill(now, i) =>
      if CheckAt(w, i) && w.checks[i].phase.Fetched?
      then CheckTo(w.(clock := now, cache := if Alive(w.cache, now) then w.cache
                                             else Some(Entry(w.checks[i].phase.cut, now + SVA_CACHE_TTL_S))),
                   i, Decided(w.checks[i].Auth() < w.checks[i].phase.cut))
      else w
    case FillRefused(now, i) =>
      if CheckAt(w, i) && w.checks[i].phase.Fetched?
      then CheckTo(w.(clock := now), i, Decided(w.checks[i].Auth() < w.checks[i].phase.cut))
      else w
    case _ => w
  }

  predicate OnPub(s: Step) {
    s.Bump? || s.DeleteUser? || s.SetStored? || s.SetRefused? || s.SetAnswerLost? || s.DelDone? || s.DelRefused?
  }

  function Next(w: World, s: Step): World {
    if s.now < w.clock then w else if OnPub(s) then PubStep(w, s) else CheckStep(w, s)
  }

  function Exec(w: World, steps: seq<Step>): World {
    if steps == [] then w else Next(Exec(w, steps[..|steps| - 1]), steps[|steps| - 1])
  }

  // ------------------------------------------------------------------ every run

  /** What holds of one check while the user exists. */
  predicate Fair(c: Check, cutoff: nat) {
    && (c.phase.Fetched? ==> c.phase.cut <= Encode(cutoff))
    && (c.phase.Decided? && c.phase.revoked ==> c.Auth() < Encode(cutoff))
  }

  ghost predicate NeverAhead(w: World) {
    w.db.Some? ==>
      && (w.cache.Some? ==> w.cache.value.cut <= Encode(w.db.value))
      && w.published <= Encode(w.db.value)
      && (forall j :: 0 <= j < |w.pubs| ==> w.pubs[j].cutoff <= w.db.value)
      && (forall i :: 0 <= i < |w.checks| ==> Fair(w.checks[i], w.db.value))
  }

  lemma NeverAheadStep(w: World, s: Step)
    requires NeverAhead(w)
    ensures NeverAhead(Next(w, s))
  {
    if w.clock <= s.now {
      if OnPub(s) {
        if s.Bump? && w.db.Some? && w.db.value <= s.cutoff {
          forall i | 0 <= i < |w.checks|
            ensures Fair(w.checks[i], s.cutoff)
          {
            assert Fair(w.checks[i], w.db.value);
          }
        }
      } else if w.db.Some? {
        var w' := CheckStep(w, s);
        forall i | 0 <= i < |w'.checks|
          ensures Fair(w'.checks[i], w.db.value)
        {
          if i < |w.checks| { assert Fair(w.checks[i], w.db.value); }
        }
      }
    }
  }

  /** In every run the cached cutoff of an existing user is at most the encoded column. */
  lemma {:induction false} CacheNeverAhead(db: nat, now: Time, steps: seq<Step>)
    ensures NeverAhead(Exec(Start(db, now), steps))
  {
    if steps != [] {
      CacheNeverAhead(db, now, steps[..|steps| - 1]);
      NeverAheadStep(Exec(Start(db, now), steps[..|steps| - 1]), steps[|steps| - 1]);
    }
  }

  /** No check ever turns away a session of an existing user that is not older than the cutoff. */
  lemma OnlyOldSessionsAreRevoked(db: nat, now: Time, steps: seq<Step>, i: nat)
    requires var w := Exec(Start(db, now), steps);
             i < |w.checks| && w.checks[i].phase == Decided(true) && w.db.Some?
    ensures var w := Exec(Start(db, now), steps);
            w.checks[i].Auth() < Encode(w.db.value)
  {
    CacheNeverAhead(db, now, steps);
    assert Fair(Exec(Start(db, now), steps).checks[i], Exec(Start(db, now), steps).db.value);
  }

  // ------------------------------------------------------------------ instant revocation

  /**
   What makes revocation instant: bumps are published one at a time, each SET
   is stored and answered, and a fill lands within the time to live of its read.
   */
  ghost predicate Orderly(w: World, s: Step) {
    match s
    case Bump(_, _) => forall j :: 0 <= j < |w.pubs| ==> w.pubs[j].phase == Returned
    case SetRefused(_, _) => false
    case SetAnswerLost(_, _) => false
    case Fill(now, i) =>
      CheckAt(w, i) && w.checks[i].phase.Fetched? ==> now < w.checks[i].phase.readAt + SVA_CACHE_TTL_S
    case _ => true
  }

  ghost predicate OrderlyRun(w: World, steps: seq<Step>) {
    steps != [] ==>
      && OrderlyRun(w, steps[..|steps| - 1])
      && Orderly(Exec(w, steps[..|steps| - 1]), steps[|steps| - 1])
  }

  /** A fill still on its way either carries a published cutoff or can no longer land. */
  predicate Harmless(phase: CheckPhase, cache: Option<Entry>, clock: Time, published: nat) {
    phase.Fetched? ==>
      || published <= phase.cut
      || phase.readAt + SVA_CACHE_TTL_S <= clock
      || (cache.Some? && phase.readAt + SVA_CACHE_TTL_S <= cache.value.expireAt)
  }

  predicate Obeys(c: Check, w: World) {
    && c.floor <= w.published
    && (c.phase.Fetched? ==> c.floor <= c.phase.cut && c.phase.readAt <= w.clock)
    && (c.phase.Decided? && c.Auth() < c.floor ==> c.phase.revoked)
    && Harmless(c.phase, w.cache, w.clock, w.published)
  }

  ghost predicate OneAtATime(w: World) {
    && (forall j :: 0 <= j < |w.pubs| ==> w.pubs[j].phase != MustDel)
    && (forall j :: 0 <= j < |w.pubs| && w.pubs[j].phase == MustSet ==> w.published <= Encode(w.pubs[j].cutoff))
    && (forall j, k :: (0 <= j < |w.pubs| && 0 <= k < |w.pubs|
                        && w.pubs[j].phase == MustSet && w.pubs[k].phase == MustSet) ==> j == k)
  }

  ghost predicate Instant(w: World) {
    && OneAtATime(w)
    && (Alive(w.cache, w.clock) ==> w.published <= w.cache.value.cut)
    && (forall i :: 0 <= i < |w.checks| ==> Obeys(w.checks[i], w))
  }

  lemma PubKeepsInstant(w: World, s: Step)
    requires NeverAhead(w) && Instant(w) && w.clock <= s.now && OnPub(s) && Orderly(w, s)
    ensures Instant(PubStep(w, s))
  {
    var w' := PubStep(w, s);
    forall i | 0 <= i < |w'.checks|
      ensures Obeys(w'.checks[i], w')
    {
      assert Obeys(w.checks[i], w);
    }
  }

  lemma CheckKeepsInstant(w: World, s: Step)
    requires NeverAhead(w) && Instant(w) && w.clock <= s.now && !OnPub(s) && Orderly(w, s)
    ensures Instant(CheckStep(w, s))
  {
    var w' := CheckStep(w, s);
    assert OneAtATime(w') by { assert w'.pubs == w.pubs; }
    forall i | 0 <= i < |w.checks|
      ensures Obeys(w'.checks[i], w')
    {
      assert Obeys(w.checks[i], w);
    }
  }

  lemma {:induction false} OrderlyRunsAreInstant(db: nat, now: Time, steps: seq<Step>)
    requires OrderlyRun(Start(db, now), steps)
    ensures Instant(Exec(Start(db, now), steps))
  {
    if steps != [] {
      var front, s := steps[..|steps| - 1], steps[|steps| - 1];
      var w := Exec(Start(db, now), front);
      OrderlyRunsAreInstant(db, now, front);
      CacheNeverAhead(db, now, front);
      if w.clock <= s.now {
        if OnPub(s) { PubKeepsInstant(w, s); } else { CheckKeepsInstant(w, s); }
      }
    }
  }

  /**
   A check begun once a cutoff is published turns away every session opened in
   an earlier whole second; and no other, while that cutoff is the column's.
   */
  lemma PublishedCutoffsHold(db: nat, now: Time, steps: seq<Step>, i: nat)
    requires OrderlyRun(Start(db, now), steps)
    requires var w := Exec(Start(db, now), steps); i < |w.checks| && w.checks[i].phase.Decided?
    ensures var w := Exec(Start(db, now), steps);
            var c := w.checks[i];
            && (Encode(c.login) < c.floor ==> c.phase.revoked)
            && (w.db.Some? && c.floor == Encode(w.db.value) ==> (c.phase.revoked <==> Encode(c.login) < c.floor))
  {
    var w := Exec(Start(db, now), steps);
    OrderlyRunsAreInstant(db, now, steps);
    assert Obeys(w.checks[i], w);
    if w.db.Some? && w.checks[i].phase.revoked { OnlyOldSessionsAreRevoked(db, now, steps, i); }
  }

  lemma ExecMore(w: World, steps: seq<Step>, s: Step)
    ensures Exec(w, steps + [s]) == Next(Exec(w, steps), s)
  {
    assert (steps + [s])[..|steps|] == steps;
  }

  lemma ExecThree(w: World, steps: seq<Step>, a: Step, b: Step, c: Step)
    ensures Exec(w, steps + [a, b, c]) == Next(Next(Next(Exec(w, steps), a), b), c)
  {
    ThreeMore(steps, a, b, c);
    ExecMore(w, steps, a);
    ExecMore(w, steps + [a], b);
    ExecMore(w, steps + [a] + [b], c);
  }

  lemma ThreeMore(steps: seq<Step>, a: Step, b: Step, c: Step)
    ensures steps + [a] + [b] + [c] == steps + [a, b, c]
  {
  }

  lemma PublishedStates(login: nat, cutoff: nat)
    ensures var published := World(Some(cutoff), Some(Entry(Encode(cutoff), 300)), 0, Encode(cutoff),
                                   [Pub(cutoff, 0, Returned)], []);
            && Next(Next(Start(0, 0), Bump(0, cutoff)), SetStored(0, 0)) == published
            && Next(Next(published, Begin(0, login)), Get(0, 0)).checks ==
               [Check(login, 0, Encode(cutoff), Decided(Encode(login) < Encode(cutoff)))]
  {
    var published := World(Some(cutoff), Some(Entry(Encode(cutoff), 300)), 0, Encode(cutoff),
                           [Pub(cutoff, 0, Returned)], []);
    assert Next(Start(0, 0), Bump(0, cutoff)) == World(Some(cutoff), None, 0, 0, [Pub(cutoff, 0, MustSet)], []);
    assert Next(published, Begin(0, login)) == published.(checks := [Check(login, 0, Encode(cutoff), Begun)]);
  }

  /** A session opened earlier in the cutoff's own second outlives it, published and checked at once. */
  lemma SameSecondSurvives(login: nat, cutoff: nat)
    requires login < cutoff && Encode(login) == Encode(cutoff)
    ensures Exec(Start(0, 0), [Bump(0, cutoff), SetStored(0, 0), Begin(0, login)] + [Get(0, 0)]).checks ==
            [Check(login, 0, Encode(cutoff), Decided(false))]
  {
    var first := [Bump(0, cutoff), SetStored(0, 0), Begin(0, login)];
    assert [] + first == first;
    ExecThree(Start(0, 0), [], Bump(0, cutoff), SetStored(0, 0), Begin(0, login));
    ExecMore(Start(0, 0), first, Get(0, 0));
    PublishedStates(login, cutoff);
  }

  const TWO_BUMPS := World(Some(2_000_000), None, 0, 0, [Pub(1_000_000, 0, MustSet), Pub(2_000_000, 0, MustSet)], [])
  const OLDER_CACHED := World(Some(2_000_000), Some(Entry(1, 300)), 0, 2,
                              [Pub(1_000_000, 0, Returned), Pub(2_000_000, 0, Returned)], [])

  lemma TwoBumps()
    ensures Next(Next(Start(0, 0), Bump(0, 1_000_000)), Bump(0, 2_000_000)) == TWO_BUMPS
  {
  }

  lemma OlderLast()
    ensures Next(Next(TWO_BUMPS, SetStored(0, 1)), SetStored(0, 0)) == OLDER_CACHED
  {
    assert Next(TWO_BUMPS, SetStored(0, 1)) ==
           World(Some(2_000_000), Some(Entry(2, 300)), 0, 2,
                 [Pub(1_000_000, 0, MustSet), Pub(2_000_000, 0, Returned)], []);
  }

  lemma OlderDecides()
    ensures Next(Next(OLDER_CACHED, Begin(0, 1_000_000)), Get(0, 0)).checks == [Check(1_000_000, 0, 2, Decided(false))]
  {
    assert Next(OLDER_CACHED, Begin(0, 1_000_000)) == OLDER_CACHED.(checks := [Check(1_000_000, 0, 2, Begun)]);
  }

  /** Publications overtaking each other leave the older cutoff cached. */
  lemma OvertakenPublication()
    ensures var steps := [Bump(0, 1_000_000), Bump(0, 2_000_000), SetStored(0, 1)]
                         + [SetStored(0, 0), Begin(0, 1_000_000), Get(0, 0)];
            Exec(Start(0, 0), steps).checks == [Check(1_000_000, 0, 2, Decided(false))]
  {
    var first := [Bump(0, 1_000_000), Bump(0, 2_000_000), SetStored(0, 1)];
    assert [] + first == first;
    ExecThree(Start(0, 0), [], Bump(0, 1_000_000), Bump(0, 2_000_000), SetStored(0, 1));
    ExecThree(Start(0, 0), first, SetStored(0, 0), Begin(0, 1_000_000), Get(0, 0));
    TwoBumps();
    OlderLast();
    OlderDecides();
  }

  const OLD_READ := World(Some(1_000_000), None, 0, 0, [], [Check(1_000_000, 0, 0, Fetched(1, 0))])
  const OLD_FILLED := World(Some(2_000_000), Some(Entry(1, 600)), 300, 2, [Pub(2_000_000, 0, Returned)],
                            [Check(1_000_000, 0, 0, Decided(false))])

  lemma OldCutoffRead()
    ensures Next(Next(Next(Start(1_000_000, 0), Begin(0, 1_000_000)), Get(0, 0)), Fetch(0, 0)) == OLD_READ
  {
    var w := Start(1_000_000, 0);
    assert Next(w, Begin(0, 1_000_000)) == w.(checks := [Check(1_000_000, 0, 0, Begun)]);
    assert Next(w.(checks := [Check(1_000_000, 0, 0, Begun)]), Get(0, 0)) ==
           w.(checks := [Check(1_000_000, 0, 0, Missed)]);
  }

  lemma OldCutoffFilled()
    ensures Next(Next(Next(OLD_READ, Bump(0, 2_000_000)), SetStored(0, 0)), Fill(300, 0)) == OLD_FILLED
  {
    var bumped := OLD_READ.(db := Some(2_000_000), pubs := [Pub(2_000_000, 0, MustSet)]);
    assert Next(OLD_READ, Bump(0, 2_000_000)) == bumped;
    assert Next(bumped, SetStored(0, 0)) ==
           bumped.(cache := Some(Entry(2, 300)), published := 2, pubs := [Pub(2_000_000, 0, Returned)]);
  }

  lemma OldFillDecides()
    ensures Next(Next(OLD_FILLED, Begin(300, 1_000_000)), Get(300, 1)).checks ==
            [Check(1_000_000, 0, 0, Decided(false)), Check(1_000_000, 300, 2, Decided(false))]
  {
    assert Next(OLD_FILLED, Begin(300, 1_000_000)) ==
           OLD_FILLED.(checks := OLD_FILLED.checks + [Check(1_000_000, 300, 2, Begun)]);
  }

  /** A fill that lands a whole time to live after its read can bring the older cutoff back. */
  lemma LateFill()
    ensures var steps := [Begin(0, 1_000_000), Get(0, 0), Fetch(0, 0)]
                         + [Bump(0, 2_000_000), SetStored(0, 0), Fill(300, 0)]
                         + [Begin(300, 1_000_000)] + [Get(300, 1)];
            Exec(Start(1_000_000, 0), steps).checks ==
            [Check(1_000_000, 0, 0, Decided(false)), Check(1_000_000, 300, 2, Decided(false))]
  {
    var w, first := Start(1_000_000, 0), [Begin(0, 1_000_000), Get(0, 0), Fetch(0, 0)];
    assert [] + first == first;
    ExecThree(w, [], Begin(0, 1_000_000), Get(0, 0), Fetch(0, 0));
    OldCutoffRead();
    ExecThree(w, first, Bump(0, 2_000_000), SetStored(0, 0), Fill(300, 0));
    OldCutoffFilled();
    var six := first + [Bump(0, 2_000_000), SetStored(0, 0), Fill(300, 0)];
    ExecMore(w, six, Begin(300, 1_000_000));
    ExecMore(w, six + [Begin(300, 1_000_000)], Get(300, 1));
    OldFillDecides();
  }

  // ------------------------------------------------------------------ whatever Redis does

  /** Every write of the cache lands within `d` of the read or the commit it carries. */
  predicate Prompt(w: World, s: Step, d: nat) {
    match s
    case SetStored(now, j) => PubAt(w, j, MustSet) ==> now <= w.pubs[j].at + d
    case SetAnswerLost(now, j) => PubAt(w, j, MustSet) ==> now <= w.pubs[j].at + d
    case Fill(now, i) => CheckAt(w, i) && w.checks[i].phase.Fetched? ==> now <= w.checks[i].phase.readAt + d
    case _ => true
  }

  predicate PromptRun(w: World, steps: seq<Step>, d: nat) {
    steps != [] ==>
      && PromptRun(w, steps[..|steps| - 1], d)
      && Prompt(Exec(w, steps[..|steps| - 1]), steps[|steps| - 1], d)
  }

  ghost predicate Timed(w: World) {
    && (w.cache.Some? ==> w.cache.value.expireAt <= w.clock + SVA_CACHE_TTL_S)
    && (forall j :: 0 <= j < |w.pubs| ==> w.pubs[j].at <= w.clock)
    && (forall i :: 0 <= i < |w.checks| ==>
          w.checks[i].begunAt <= w.clock && (w.checks[i].phase.Fetched? ==> w.checks[i].phase.readAt <= w.clock))
  }

  lemma TimedStep(w: World, s: Step)
    requires Timed(w)
    ensures Timed(Next(w, s))
  {
  }

  lemma {:induction false} RunsAreTimed(db: nat, now: Time, steps: seq<Step>)
    ensures Timed(Exec(Start(db, now), steps))
  {
    if steps != [] {
      RunsAreTimed(db, now, steps[..|steps| - 1]);
      TimedStep(Exec(Start(db, now), steps[..|steps| - 1]), steps[|steps| - 1]);
    }
  }

  predicate Overdue(c: Check, cut: nat, at: Time, d: nat) {
    && (c.phase.Fetched? && c.phase.cut < cut ==> c.phase.readAt <= at)
    && (at + d + SVA_CACHE_TTL_S <= c.begunAt ==>
          && (c.phase.Fetched? ==> cut <= c.phase.cut)
          && (c.phase.Decided? && c.Auth() < cut ==> c.phase.revoked))
  }

  /** What the commit of cutoff `cut` at time `at` means for everything older. */
  ghost predicate Fades(w: World, cut: nat, at: Time, d: nat) {
    && (w.db.Some? ==> cut <= Encode(w.db.value))
    && (w.cache.Some? && w.cache.value.cut < cut ==> w.cache.value.expireAt <= at + d + SVA_CACHE_TTL_S)
    && (forall k :: 0 <= k < |w.pubs| && Encode(w.pubs[k].cutoff) < cut ==> w.pubs[k].at <= at)
    && (forall i :: 0 <= i < |w.checks| ==> Overdue(w.checks[i], cut, at, d))
  }

  lemma BumpStartsFading(w: World, now: Time, cutoff: nat, d: nat)
    requires Timed(w) && w.clock <= now && w.db.Some? && w.db.value <= cutoff
    ensures Fades(PubStep(w, Bump(now, cutoff)), Encode(cutoff), now, d)
  {
  }

  lemma PubKeepsFading(w: World, s: Step, cut: nat, at: Time, d: nat)
    requires Fades(w, cut, at, d) && w.clock <= s.now && OnPub(s) && Prompt(w, s, d)
    ensures Fades(PubStep(w, s), cut, at, d)
  {
  }

  lemma CheckKeepsFading(w: World, s: Step, cut: nat, at: Time, d: nat)
    requires Timed(w) && Fades(w, cut, at, d) && w.clock <= s.now && !OnPub(s) && Prompt(w, s, d)
    ensures Fades(CheckStep(w, s), cut, at, d)
  {
    var w' := CheckStep(w, s);
    forall i | 0 <= i < |w'.checks|
      ensures Overdue(w'.checks[i], cut, at, d)
    {
      if i < |w.checks| { assert Overdue(w.checks[i], cut, at, d); }
    }
  }

  lemma {:induction false} EveryBumpFades(db: nat, now: Time, steps: seq<Step>, d: nat, j: nat)
    requires PromptRun(Start(db, now), steps, d)
    requires j < |Exec(Start(db, now), steps).pubs|
    ensures var w := Exec(Start(db, now), steps); Fades(w, Encode(w.pubs[j].cutoff), w.pubs[j].at, d)
  {
    if steps != [] {
      var front, s := steps[..|steps| - 1], steps[|steps| - 1];
      var w := Exec(Start(db, now), front);
      RunsAreTimed(db, now, front);
      if j < |w.pubs| {
        EveryBumpFades(db, now, front, d, j);
        if w.clock <= s.now {
          var cut, at := Encode(w.pubs[j].cutoff), w.pubs[j].at;
          if OnPub(s) { PubKeepsFading(w, s, cut, at, d); } else { CheckKeepsFading(w, s, cut, at, d); }
        }
      } else {
        BumpStartsFading(w, s.now, s.cutoff, d);
      }
    }
  }

  /** With any failures of Redis, a committed cutoff is obeyed by every check begun a time to live later. */
  lemma RevokedWithinTheTtl(db: nat, now: Time, steps: seq<Step>, d: nat, j: nat, i: nat)
    requires PromptRun(Start(db, now), steps, d)
    requires var w := Exec(Start(db, now), steps);
             && j < |w.pubs| && i < |w.checks| && w.checks[i].phase.Decided?
             && w.pubs[j].at + d + SVA_CACHE_TTL_S <= w.checks[i].begunAt
             && w.checks[i].Auth() < Encode(w.pubs[j].cutoff)
    ensures Exec(Start(db, now), steps).checks[i].phase.revoked
  {
    EveryBumpFades(db, now, steps, d, j);
    var w := Exec(Start(db, now), steps);
    assert Overdue(w.checks[i], Encode(w.pubs[j].cutoff), w.pubs[j].at, d);
  }

  // ------------------------------------------------------------------ the client, alone

  /** How a Redis command went; an unheard one took effect but raised. */
  datatype Command = Heard | Unheard | Failed

  /** The steps of publication `j` with nobody in between. */
  function PublishSteps(j: nat, now: Time, stored: Command, del: Command): seq<Step> {
    if stored.Heard? then [SetStored(now, j)]
    else [if stored.Unheard? then SetAnswerLost(now, j) else SetRefused(now, j)]
         + [if del.Failed? then DelRefused(now, j) else DelDone(now, j)]
  }

  /** The steps of check `i` with nobody in between. */
  function CheckSteps(w: World, i: nat, now: Time, get: Command, fill: Command): seq<Step> {
    if !get.Heard? then [GetRefused(now, i)] + [Fetch(now, i)]
    else if Alive(w.cache, now) then [Get(now, i)]
    else if w.db.None? then [Get(now, i)] + [Fetch(now, i)]
    else [Get(now, i)] + [Fetch(now, i)] + [if fill.Failed? then FillRefused(now, i) else Fill(now, i)]
  }

  lemma ExecOne(w: World, s: Step)
    ensures Exec(w, [s]) == Next(w, s)
  {
    assert [s][..0] == [];
  }

  lemma ExecTwo(w: World, s: Step, t: Step)
    ensures Exec(w, [s] + [t]) == Next(Next(w, s), t)
  {
    ExecOne(w, s);
    ExecMore(w, [s], t);
  }

  /** A check's decision, and the key it leaves. */
  predicate Ends(w: World, w': World, i: nat, cut: Option<nat>, cache: Option<Entry>) {
    && i < |w.checks| && i < |w'.checks| && w'.cache == cache
    && w'.checks[i].phase == Decided(cut.None? || w.checks[i].Auth() < cut.value)
  }

  function Column(db: Option<nat>): Option<nat> {
    if db.None? then None else Some(Encode(db.value))
  }

  predicate Ready(w: World, i: nat, now: Time) {
    w.clock <= now && CheckAt(w, i) && w.checks[i].phase.Begun?
  }

  lemma RefusedGetAlone(w: World, i: nat, now: Time)
    requires Ready(w, i, now)
    ensures Ends(w, Exec(w, [GetRefused(now, i)] + [Fetch(now, i)]), i, Column(w.db), w.cache)
  {
    ExecTwo(w, GetRefused(now, i), Fetch(now, i));
  }

  lemma HitAlone(w: World, i: nat, now: Time)
    requires Ready(w, i, now) && Alive(w.cache, now)
    ensures Ends(w, Exec(w, [Get(now, i)]), i, Some(w.cache.value.cut), w.cache)
  {
    ExecOne(w, Get(now, i));
  }

  lemma MissingUserAlone(w: World, i: nat, now: Time)
    requires Ready(w, i, now) && !Alive(w.cache, now) && w.db.None?
    ensures Ends(w, Exec(w, [Get(now, i)] + [Fetch(now, i)]), i, None, w.cache)
  {
    ExecTwo(w, Get(now, i), Fetch(now, i));
  }

  lemma MissThenFetch(w: World, i: nat, now: Time)
    requires Ready(w, i, now) && !Alive(w.cache, now) && w.db.Some?
    ensures Exec(w, [Get(now, i)] + [Fetch(now, i)]) == CheckTo(w.(clock := now), i, Fetched(Encode(w.db.value), now))
  {
    ExecTwo(w, Get(now, i), Fetch(now, i));
    assert w.checks[i := w.checks[i].(phase := Missed)][i := w.checks[i].(phase := Fetched(Encode(w.db.value), now))]
        == w.checks[i := w.checks[i].(phase := Fetched(Encode(w.db.value), now))];
  }

  lemma MissAlone(w: World, i: nat, now: Time, fill: Command)
    requires Ready(w, i, now) && !Alive(w.cache, now) && w.db.Some?
    ensures Ends(w, Exec(w, [Get(now, i)] + [Fetch(now, i)]
                            + [if fill.Failed? then FillRefused(now, i) else Fill(now, i)]),
                 i, Column(w.db),
                 if fill.Failed? then w.cache else Some(Entry(Encode(w.db.value), now + SVA_CACHE_TTL_S)))
  {
    MissThenFetch(w, i, now);
    ExecMore(w, [Get(now, i)] + [Fetch(now, i)], if fill.Failed? then FillRefused(now, i) else Fill(now, i));
  }

  /** What a check alone comes to. */
  lemma CheckAlone(w: World, i: nat, now: Time, get: Command, fill: Command)
    requires Ready(w, i, now)
    ensures var hit := get.Heard? && Alive(w.cache, now);
            Ends(w, Exec(w, CheckSteps(w, i, now, get, fill)), i,
                 if hit then Some(w.cache.value.cut) else Column(w.db),
                 if hit || !get.Heard? || fill.Failed? || w.db.None? then w.cache
                 else Some(Entry(Encode(w.db.value), now + SVA_CACHE_TTL_S)))
  {
    if !get.Heard? {
      RefusedGetAlone(w, i, now);
    } else if Alive(w.cache, now) {
      HitAlone(w, i, now);
    } else if w.db.None? {
      MissingUserAlone(w, i, now);
    } else {
      MissAlone(w, i, now, fill);
    }
  }

  lemma SetAlone(w: World, j: nat, now: Time)
    requires w.clock <= now && PubAt(w, j, MustSet)
    ensures var w' := Exec(w, [SetStored(now, j)]);
            w'.cache == Some(Entry(Encode(w.pubs[j].cutoff), now + SVA_CACHE_TTL_S)) && PubAt(w', j, Returned)
  {
    ExecOne(w, SetStored(now, j));
  }

  lemma FailedSetAlone(w: World, j: nat, now: Time, stored: Command, del: Command)
    requires w.clock <= now && PubAt(w, j, MustSet) && !stored.Heard?
    ensures var w' := Exec(w, PublishSteps(j, now, stored, del));
            && PubAt(w', j, Returned)
            && w'.cache == if !del.Failed? then None
                           else if stored.Failed? then w.cache
                           else Some(Entry(Encode(w.pubs[j].cutoff), now + SVA_CACHE_TTL_S))
  {
    var first := if stored.Unheard? then SetAnswerLost(now, j) else SetRefused(now, j);
    FailedSet(w, j, now, stored);
    ExecTwo(w, first, if del.Failed? then DelRefused(now, j) else DelDone(now, j));
  }

  lemma FailedSet(w: World, j: nat, now: Time, stored: Command)
    requires w.clock <= now && PubAt(w, j, MustSet) && !stored.Heard?
    ensures var w' := Next(w, if stored.Unheard? then SetAnswerLost(now, j) else SetRefused(now, j));
            && PubAt(w', j, MustDel) && w'.clock == now
            && w'.cache == if stored.Failed? then w.cache
                           else Some(Entry(Encode(w.pubs[j].cutoff), now + SVA_CACHE_TTL_S))
  {
  }

  /** The cached key as one client changes it, with each command going as told. */
  class Cache {
    var entry: Option<Entry>

    constructor ()
      ensures entry == None
    {
      entry := None;
    }

    /** In any world whose key this is, the call is its publication's steps, and it always returns. */
    method PublishSva(cutoff: nat, now: Time, stored: Command, del: Command, ghost w: World, ghost j: nat)
      requires w.cache == entry && w.clock <= now && PubAt(w, j, MustSet) && w.pubs[j].cutoff == cutoff
      modifies this
      ensures entry == Exec(w, PublishSteps(j, now, stored, del)).cache
      ensures PubAt(Exec(w, PublishSteps(j, now, stored, del)), j, Returned)
      ensures stored.Heard? ==> entry == Some(Entry(Encode(cutoff), now + SVA_CACHE_TTL_S))
      ensures !stored.Heard? && !del.Failed? ==> entry == None
    {
      if stored.Heard? { SetAlone(w, j, now); } else { FailedSetAlone(w, j, now, stored, del); }
      if !stored.Failed? {
        entry := Some(Entry(Encode(cutoff), now + SVA_CACHE_TTL_S));
      }
      if !stored.Heard? && !del.Failed? {
        entry := None;
      }
    }

    /** In any world whose key this is, the call is its check's steps, and its answer their decision. */
    method SessionRevoked(auth: nat, column: Option<nat>, now: Time, get: Command, fill: Command,
                          ghost w: World, ghost i: nat)
      returns (revoked: bool)
      requires w.cache == entry && w.db == column && w.clock <= now
      requires CheckAt(w, i) && w.checks[i].phase.Begun? && w.checks[i].Auth() == auth
      modifies this
      ensures var w' := Exec(w, CheckSteps(w, i, now, get, fill));
              entry == w'.cache && i < |w'.checks| && w'.checks[i].phase == Decided(revoked)
      ensures get.Heard? && Alive(old(entry), now) ==> (revoked <==> auth < old(entry).value.cut)
      ensures !get.Heard? || !Alive(old(entry), now) ==>
                (revoked <==> column.None? || auth < Encode(column.value))
      ensures entry == if !get.Heard? || fill.Failed? || column.None? || Alive(old(entry), now) then old(entry)
                       else Some(Entry(Encode(column.value), now + SVA_CACHE_TTL_S))
    {
      CheckAlone(w, i, now, get, fill);
      if !get.Heard? {
        return column.None? || auth < Encode(column.value);
      }
      if Alive(entry, now) {
        return auth < entry.value.cut;
      }
      if column.None? {
        return true;
      }
      if !fill.Failed? && !Alive(entry, now) {
        entry := Some(Entry(Encode(column.value), now + SVA_CACHE_TTL_S));
      }
      return auth < Encode(column.value);
    }
  }
}
