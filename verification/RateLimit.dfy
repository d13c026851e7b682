/**
 The fixed-window limiter of packages/core/auth/rate_limit.py on one key, with
 the INCR, TTL and EXPIRE of any number of callers interleaved, and a caller
 free to crash between them (it then takes no further step).
 */
module RateLimit {
  import opened Wrappers

  type Time = int

  /** `expireAt` None is a key without a time to live. */
  datatype Key = Key(count: nat, expireAt: Option<Time>)

  predicate Alive(key: Option<Key>, now: Time) {
    key.Some? && (key.value.expireAt.None? || now < key.value.expireAt.value)
  }

  function Incr(key: Option<Key>, now: Time): Key {
    if Alive(key, now) then key.value.(count := key.value.count + 1) else Key(1, None)
  }

  function Expire(key: Option<Key>, now: Time, window: nat): Option<Key> {
    if Alive(key, now) then Some(key.value.(expireAt := Some(now + window))) else None
  }

  /** TTL answers -1: the key is there and never expires. */
  predicate NoTtl(key: Option<Key>, now: Time) {
    Alive(key, now) && key.value.expireAt.None?
  }

  /** A caller's next command, from the count its INCR answered. */
  datatype Caller = AfterIncr(count: nat) | MustExpire(count: nat) | Returned(allowed: bool)

  /** One INCR: when, in which lifetime of the key, when that lifetime began, and what it counted. */
  datatype Hit = Hit(at: Time, life: nat, begun: Time, count: nat)

  /** Caller `i` is the one whose INCR is entry `i` of the log. */
  datatype World = World(key: Option<Key>, clock: Time, life: nat, begun: Time, callers: seq<Caller>, log: seq<Hit>)

  datatype Step = DoIncr(now: Time) | DoTtl(caller: nat, now: Time) | DoExpire(caller: nat, now: Time)

  function Start(now: Time): World {
    World(None, now, 0, now, [], [])
  }

  function DoneIncr(w: World, now: Time): World {
    var key := Incr(w.key, now);
    if Alive(w.key, now)
    then World(Some(key), now, w.life, w.begun, w.callers + [AfterIncr(key.count)],
               w.log + [Hit(now, w.life, w.begun, key.count)])
    else World(Some(key), now, w.life + 1, now, w.callers + [AfterIncr(key.count)],
               w.log + [Hit(now, w.life + 1, now, key.count)])
  }

  function Next(w: World, limit: nat, window: nat, s: Step): World {
    if s.now < w.clock then w
    else
      match s
      case DoIncr(now) => DoneIncr(w, now)
      case DoTtl(i, now) =>
        if i < |w.callers| && w.callers[i].AfterIncr? && w.callers[i].count != 1 then
          var c := w.callers[i].count;
          w.(clock := now,
          callers := w.callers[i := if NoTtl(w.key, now) then MustExpire(c) else Returned(c <= limit)])
        else w
      case DoExpire(i, now) =>
        if i < |w.callers| && (w.callers[i].MustExpire? || (w.callers[i].AfterIncr? && w.callers[i].count == 1)) then
          w.(clock := now, key := Expire(w.key, now, window),
          callers := w.callers[i := Returned(w.callers[i].count <= limit)])
        else w
  }

  function Exec(w: World, limit: nat, window: nat, steps: seq<Step>): World {
    if steps == [] then w
    else Next(Exec(w, limit, window, steps[..|steps| - 1]), limit, window, steps[|steps| - 1])
  }

  /** How two entries of the log stand to each other, the first before the second. */
  predicate Follows(a: Hit, b: Hit, window: nat) {
    && a.at <= b.at
    && a.life <= b.life
    && (a.life == b.life ==> a.begun == b.begun && a.count < b.count)
    && (a.life < b.life ==> a.at < b.begun && a.begun + window <= b.begun)
  }

  predicate Sound(h: Hit) {
    h.count >= 1 && h.begun <= h.at
  }

  /** Lifetimes follow each other; each counts up from one and leaves a whole window before the next. */
  ghost predicate Ordered(log: seq<Hit>, window: nat) {
    && (forall i :: 0 <= i < |log| ==> Sound(log[i]))
    && (forall i, j :: 0 <= i < j < |log| ==> Follows(log[i], log[j], window))
  }

  /** The newest entry against the key: what the next INCR will see. */
  predicate Current(last: Hit, w: World, window: nat) {
    && last.life == w.life && last.begun == w.begun && last.at <= w.clock
    && (w.key.Some? ==>
          && w.key.value.count == last.count
          && (w.key.value.expireAt.Some? ==>
                last.at < w.key.value.expireAt.value && w.begun + window <= w.key.value.expireAt.value))
    && (w.key.None? ==> last.at < w.clock && w.begun + window <= w.clock)
  }

  /** A caller that returned was answered by its own count. */
  predicate Answered(c: Caller, h: Hit, limit: nat) {
    if c.Returned? then c.allowed == (h.count <= limit) else c.count == h.count
  }

  ghost predicate Inv(w: World, limit: nat, window: nat) {
    && Ordered(w.log, window)
    && |w.callers| == |w.log|
    && (forall i :: 0 <= i < |w.log| ==> Answered(w.callers[i], w.log[i], limit))
    && (if w.log == [] then w.key.None? else Current(w.log[|w.log| - 1], w, window))
  }

  lemma IncrKeepsOrder(w: World, limit: nat, window: nat, now: Time)
    requires 0 < window && Inv(w, limit, window) && w.clock <= now
    ensures Ordered(DoneIncr(w, now).log, window)
  {
    var log := DoneIncr(w, now).log;
    var n := |w.log|;
    assert Sound(log[n]) by {
      if n > 0 { assert Sound(w.log[n - 1]); }
    }
    forall i | 0 <= i < n
      ensures Follows(log[i], log[n], window)
    {
      assert Sound(w.log[i]);
      if i < n - 1 { assert Follows(w.log[i], w.log[n - 1], window); }
    }
  }

  lemma IncrKeepsInv(w: World, limit: nat, window: nat, now: Time)
    requires 0 < window && Inv(w, limit, window) && w.clock <= now
    ensures Inv(DoneIncr(w, now), limit, window)
  {
    IncrKeepsOrder(w, limit, window, now);
    if w.log != [] { assert Sound(w.log[|w.log| - 1]); }
  }

  lemma InvStep(w: World, limit: nat, window: nat, s: Step)
    requires 0 < window && Inv(w, limit, window)
    ensures Inv(Next(w, limit, window, s), limit, window)
  {
    match s
    case DoIncr(now) =>
      if w.clock <= now { IncrKeepsInv(w, limit, window, now); }
    case DoTtl(_, _) =>
    case DoExpire(_, _) =>
      if w.log != [] { assert Sound(w.log[|w.log| - 1]); }
  }

  lemma {:induction false} EveryRunKeepsInv(start: Time, limit: nat, window: nat, steps: seq<Step>)
    requires 0 < window
    ensures Inv(Exec(Start(start), limit, window, steps), limit, window)
  {
    if steps != [] {
      EveryRunKeepsInv(start, limit, window, steps[..|steps| - 1]);
      InvStep(Exec(Start(start), limit, window, steps[..|steps| - 1]), limit, window, steps[|steps| - 1]);
    }
  }

  /** A caller is let through exactly when fewer than `limit` entries of its key's lifetime came before it. */
  lemma LetThroughUpToTheLimit(start: Time, limit: nat, window: nat, steps: seq<Step>, i: nat)
    requires 0 < window && i < |Exec(Start(start), limit, window, steps).callers|
    requires Exec(Start(start), limit, window, steps).callers[i].Returned?
    ensures var w := Exec(Start(start), limit, window, steps);
            && |w.log| == |w.callers|
            && (w.callers[i].allowed <==> |SameLifeBefore(w.log, i)| < limit)
  {
    EveryRunKeepsInv(start, limit, window, steps);
    CountsAreExactOnRuns(start, limit, window, steps);
    var w := Exec(Start(start), limit, window, steps);
    assert Answered(w.callers[i], w.log[i], limit);
  }

  function SameLifeBefore(log: seq<Hit>, i: nat): set<nat>
    requires i < |log|
  {
    set k: nat | k < i && log[k].life == log[i].life
  }

  ghost predicate CountsAreExact(log: seq<Hit>) {
    forall i: nat :: i < |log| ==> log[i].count == |SameLifeBefore(log, i)| + 1
  }

  /** The new entry, when the key was still alive: one more than the entry before it. */
  lemma CountedOn(w: World, limit: nat, window: nat, now: Time)
    requires Inv(w, limit, window) && Alive(w.key, now)
    ensures w.log != []
    ensures |SameLifeBefore(DoneIncr(w, now).log, |w.log|)| == |SameLifeBefore(w.log, |w.log| - 1)| + 1
  {
    var n := |w.log|;
    assert SameLifeBefore(DoneIncr(w, now).log, n) == SameLifeBefore(w.log, n - 1) + {n - 1};
  }

  lemma CountedAnew(w: World, limit: nat, window: nat, now: Time)
    requires Inv(w, limit, window) && !Alive(w.key, now)
    ensures SameLifeBefore(DoneIncr(w, now).log, |w.log|) == {}
  {
    var n := |w.log|;
    forall k | 0 <= k < n
      ensures w.log[k].life <= w.life
    {
      if k < n - 1 { assert Follows(w.log[k], w.log[n - 1], window); }
    }
  }

  lemma CountsStep(w: World, limit: nat, window: nat, now: Time)
    requires Inv(w, limit, window) && CountsAreExact(w.log)
    ensures CountsAreExact(DoneIncr(w, now).log)
  {
    var log := DoneIncr(w, now).log;
    forall i: nat | i < |log|
      ensures log[i].count == |SameLifeBefore(log, i)| + 1
    {
      if i < |w.log| {
        assert SameLifeBefore(log, i) == SameLifeBefore(w.log, i);
      } else if Alive(w.key, now) {
        CountedOn(w, limit, window, now);
      } else {
        CountedAnew(w, limit, window, now);
      }
    }
  }

  lemma {:induction false} CountsAreExactOnRuns(start: Time, limit: nat, window: nat, steps: seq<Step>)
    requires 0 < window
    ensures CountsAreExact(Exec(Start(start), limit, window, steps).log)
  {
    if steps != [] {
      var front := steps[..|steps| - 1];
      CountsAreExactOnRuns(start, limit, window, front);
      EveryRunKeepsInv(start, limit, window, front);
      var w := Exec(Start(start), limit, window, front);
      var s := steps[|steps| - 1];
      if s.DoIncr? && w.clock <= s.now { CountsStep(w, limit, window, s.now); }
    }
  }

  /** A key that never expires has let nobody of its lifetime return. */
  ghost predicate NoneReturnedYet(w: World) {
    |w.callers| == |w.log| && (w.key.Some? && w.key.value.expireAt.None? ==>
      forall i :: 0 <= i < |w.log| && w.log[i].life == w.life ==> !w.callers[i].Returned?)
  }

  lemma LivesAreNotAhead(w: World, limit: nat, window: nat, i: nat)
    requires Inv(w, limit, window) && i < |w.log|
    ensures w.log[i].life <= w.life
  {
    var n := |w.log| - 1;
    if i < n { assert Follows(w.log[i], w.log[n], window); }
  }

  lemma NoneReturnedStep(w: World, limit: nat, window: nat, s: Step)
    requires Inv(w, limit, window) && NoneReturnedYet(w)
    ensures NoneReturnedYet(Next(w, limit, window, s))
  {
    if s.DoIncr? && w.clock <= s.now {
      forall i | 0 <= i < |w.log|
        ensures w.log[i].life <= w.life
      {
        LivesAreNotAhead(w, limit, window, i);
      }
    }
  }

  /**
   Whatever crashed between its commands, a key of whose lifetime any caller
   was answered has a time to live: nobody is shut out for good.
   */
  lemma {:induction false} AnsweredKeysExpire(start: Time, limit: nat, window: nat, steps: seq<Step>)
    requires 0 < window
    ensures NoneReturnedYet(Exec(Start(start), limit, window, steps))
  {
    if steps != [] {
      AnsweredKeysExpire(start, limit, window, steps[..|steps| - 1]);
      EveryRunKeepsInv(start, limit, window, steps[..|steps| - 1]);
      NoneReturnedStep(Exec(Start(start), limit, window, steps[..|steps| - 1]), limit, window, steps[|steps| - 1]);
    }
  }

  /** Indices of the log whose counts are all different and at most `limit`. */
  lemma {:induction false} DistinctCounts(log: seq<Hit>, some: set<nat>, limit: nat)
    requires forall k :: k in some ==> k < |log| && 1 <= log[k].count <= limit
    requires forall j, k :: j in some && k in some && j != k ==> log[j].count != log[k].count
    ensures |some| <= limit
  {
    if limit == 0 {
      assert forall k :: k !in some;
      assert some == {};
    } else if k :| k in some && log[k].count == limit {
      DistinctCounts(log, some - {k}, limit - 1);
    } else {
      DistinctCounts(log, some, limit - 1);
    }
  }

  /** Two entries with one lifetime never carry the same count. */
  lemma OneLifeIsBounded(log: seq<Hit>, some: set<nat>, window: nat, limit: nat)
    requires Ordered(log, window)
    requires forall k :: k in some ==> k < |log| && log[k].count <= limit
    requires forall j, k :: j in some && k in some ==> log[j].life == log[k].life
    ensures |some| <= limit
  {
    forall k | k in some
      ensures 1 <= log[k].count
    {
      assert Sound(log[k]);
    }
    forall j, k | j in some && k in some && j != k
      ensures log[j].count != log[k].count
    {
      assert if j < k then Follows(log[j], log[k], window) else Follows(log[k], log[j], window);
    }
    DistinctCounts(log, some, limit);
  }

  /** The hits of the closed interval from `t` that were allowed. */
  function AllowedIn(log: seq<Hit>, t: Time, window: nat, limit: nat): set<nat> {
    set k: nat | k < |log| && t <= log[k].at <= t + window && log[k].count <= limit
  }

  lemma {:induction false} Least(s: set<nat>) returns (a: nat)
    requires s != {}
    ensures a in s && forall k :: k in s ==> a <= k
  {
    a :| a in s;
    var rest := s - {a};
    assert s == rest + {a};
    if rest != {} {
      var b := Least(rest);
      if b < a { a := b; }
    }
  }

  function FirstLife(log: seq<Hit>, all: set<nat>, a: nat): set<nat>
    requires a < |log| && forall k :: k in all ==> k < |log|
  {
    set k | k in all && log[k].life == log[a].life
  }

  lemma LaterIsOneLife(log: seq<Hit>, t: Time, window: nat, limit: nat, a: nat, j: nat, k: nat)
    requires Ordered(log, window)
    requires var all := AllowedIn(log, t, window, limit);
             && a in all && (forall i :: i in all ==> a <= i)
             && j in all - FirstLife(log, all, a) && k in all - FirstLife(log, all, a)
    ensures log[j].life == log[k].life
  {
    if j < k { OneLaterLife(log, t, window, a, j, k); }
    if k < j { OneLaterLife(log, t, window, a, k, j); }
  }

  lemma AllowedAtMostTwice(log: seq<Hit>, t: Time, window: nat, limit: nat, a: nat)
    requires Ordered(log, window)
    requires var all := AllowedIn(log, t, window, limit); a in all && forall i :: i in all ==> a <= i
    ensures |AllowedIn(log, t, window, limit)| <= 2 * limit
  {
    var all := AllowedIn(log, t, window, limit);
    var first := FirstLife(log, all, a);
    OneLifeIsBounded(log, first, window, limit);
    forall j, k | j in all - first && k in all - first
      ensures log[j].life == log[k].life
    {
      LaterIsOneLife(log, t, window, limit, a, j, k);
    }
    OneLifeIsBounded(log, all - first, window, limit);
    assert all == first + (all - first);
  }

  /** No interval of one window's length, its ends included, lets more than twice the limit through. */
  lemma AtMostTwiceTheLimit(start: Time, limit: nat, window: nat, steps: seq<Step>, t: Time)
    requires 0 < window
    ensures |AllowedIn(Exec(Start(start), limit, window, steps).log, t, window, limit)| <= 2 * limit
  {
    EveryRunKeepsInv(start, limit, window, steps);
    var log := Exec(Start(start), limit, window, steps).log;
    if AllowedIn(log, t, window, limit) != {} {
      var a := Least(AllowedIn(log, t, window, limit));
      AllowedAtMostTwice(log, t, window, limit, a);
    }
  }

  /** After the first hit of an interval at most one more lifetime can begin inside it. */
  lemma OneLaterLife(log: seq<Hit>, t: Time, window: nat, a: nat, j: nat, k: nat)
    requires Ordered(log, window) && a <= j < k < |log|
    requires t <= log[a].at && log[k].at <= t + window
    requires log[j].life != log[a].life
    ensures log[j].life == log[k].life
  {
    assert Follows(log[a], log[j], window);
    assert Follows(log[j], log[k], window);
    assert Sound(log[k]);
  }

  /** The bound is reached: one hit at each end of a window, with a limit of one. */
  lemma TwiceIsReached(window: nat)
    requires 0 < window
    ensures |AllowedIn(Exec(Start(0), 1, window, [DoIncr(0), DoExpire(0, 0), DoIncr(window)]).log, 0, window, 1)| == 2
  {
    var w1 := Next(Start(0), 1, window, DoIncr(0));
    var w2 := Next(w1, 1, window, DoExpire(0, 0));
    var w3 := Next(w2, 1, window, DoIncr(window));
    var steps := [DoIncr(0), DoExpire(0, 0), DoIncr(window)];
    assert steps[..2][..1][..0] == [];
    assert Exec(Start(0), 1, window, steps[..2][..1]) == w1;
    assert Exec(Start(0), 1, window, steps[..2]) == w2;
    assert AllowedIn(w3.log, 0, window, 1) == {0, 1};
  }

  /** Redis's key, changed in place; one call of `hit` with nobody in between. */
  class Bucket {
    var key: Option<Key>

    constructor ()
      ensures key == None
    {
      key := None;
    }

    method IncrKey(now: Time) returns (count: nat)
      modifies this
      ensures key == Some(Incr(old(key), now)) && count == Incr(old(key), now).count
    {
      if key.None? || !(key.value.expireAt.None? || now < key.value.expireAt.value) {
        key := Some(Key(1, None));
      } else {
        key := Some(Key(key.value.count + 1, key.value.expireAt));
      }
      count := key.value.count;
    }

    method ExpireKey(now: Time, window: nat)
      modifies this
      ensures key == Expire(old(key), now, window)
    {
      if Alive(key, now) {
        key := Some(key.value.(expireAt := Some(now + window)));
      } else {
        key := None;
      }
    }

    /** A hit is let through exactly up to the limit, and the key is left with a time to live. */
    method HitKey(now: Time, limit: nat, window: nat) returns (allowed: bool)
      requires 0 < window
      modifies this
      ensures allowed <==> Incr(old(key), now).count <= limit
      ensures key.Some? && key.value.count == Incr(old(key), now).count && key.value.expireAt.Some?
      ensures key.value.expireAt ==
              if Alive(old(key), now) && old(key).value.expireAt.Some? && old(key).value.count > 0
              then old(key).value.expireAt else Some(now + window)
    {
      var count := IncrKey(now);
      if count == 1 {
        ExpireKey(now, window);
      } else if NoTtl(key, now) {
        ExpireKey(now, window);
      }
      allowed := count <= limit;
    }
  }
}
