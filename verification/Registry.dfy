/**
 The process's registry of reply tasks: `start_turn`, `stop_turn` and
 `drain_turns` in apps/api/turns.py. Turns are numbered as they start.
 */
module Registry {
  import opened Wrappers

  datatype Event = Started(conversation: nat) | Ended(turn: nat)

  /** `of` is each turn's conversation; `running` and `newest` are `_turns` and `_by_conversation`. */
  datatype Registered = Registered(of: seq<nat>, running: set<nat>, newest: map<nat, nat>)

  function Register(r: Registered, conversation: nat): Registered {
    var turn := |r.of|;
    Registered(r.of + [conversation], r.running + {turn}, r.newest[conversation := turn])
  }

  /** The two callbacks of a task that is done: an entry goes only by the turn it points to. */
  function Unregister(r: Registered, turn: nat): Registered {
    if turn !in r.running || turn >= |r.of| then r
    else
      var c := r.of[turn];
      Registered(r.of, r.running - {turn}, if c in r.newest && r.newest[c] == turn then r.newest - {c} else r.newest)
  }

  function Next(r: Registered, e: Event): Registered {
    match e case Started(c) => Register(r, c) case Ended(t) => Unregister(r, t)
  }

  function After(events: seq<Event>): Registered {
    if events == [] then Registered([], {}, map[]) else Next(After(events[..|events| - 1]), events[|events| - 1])
  }

  /** `turn` is the last one its conversation started, and it has not ended. */
  predicate NewestRunning(r: Registered, c: nat, turn: nat) {
    turn < |r.of| && r.of[turn] == c && turn in r.running && forall u :: turn < u < |r.of| ==> r.of[u] != c
  }

  /** What a Stop for conversation `c` reaches. */
  predicate Reaches(r: Registered, c: nat, turn: nat) {
    c in r.newest && r.newest[c] == turn
  }

  ghost predicate Faithful(r: Registered) {
    && (forall t :: t in r.running ==> t < |r.of|)
    && (forall c, t: nat :: Reaches(r, c, t) <==> NewestRunning(r, c, t))
  }

  lemma RegisterKeeps(r: Registered, conversation: nat)
    requires Faithful(r)
    ensures Faithful(Register(r, conversation))
  {
    var r' := Register(r, conversation);
    forall c, t: nat
      ensures Reaches(r', c, t) <==> NewestRunning(r', c, t)
    {
      assert Reaches(r, c, t) <==> NewestRunning(r, c, t);
      if c == conversation && t < |r.of| {
        assert r'.of[|r.of|] == c;
      } else if NewestRunning(r, c, t) {
        assert forall u :: t < u < |r'.of| ==> u == |r.of| || r'.of[u] == r.of[u];
      } else if NewestRunning(r', c, t) && t < |r.of| {
        assert forall u :: t < u < |r.of| ==> r'.of[u] == r.of[u];
      }
    }
  }

  lemma UnregisterKeeps(r: Registered, turn: nat)
    requires Faithful(r)
    ensures Faithful(Unregister(r, turn))
  {
    var r' := Unregister(r, turn);
    forall c, t: nat
      ensures Reaches(r', c, t) <==> NewestRunning(r', c, t)
    {
      assert Reaches(r, c, t) <==> NewestRunning(r, c, t);
    }
  }

  /** A Stop reaches the newest turn of its own conversation while that runs, and no other turn ever. */
  lemma {:induction false} StopReachesTheNewest(events: seq<Event>)
    ensures Faithful(After(events))
  {
    if events != [] {
      var r, e := After(events[..|events| - 1]), events[|events| - 1];
      StopReachesTheNewest(events[..|events| - 1]);
      match e
      case Started(c) => RegisterKeeps(r, c);
      case Ended(t) => UnregisterKeeps(r, t);
    }
  }

  class TurnRegistry {
    var of: seq<nat>
    var running: set<nat>
    var newest: map<nat, nat>

    function State(): Registered
      reads this
    {
      Registered(of, running, newest)
    }

    constructor ()
      ensures State() == After([])
    {
      of, running, newest := [], {}, map[];
    }

    method StartTurn(conversation: nat) returns (turn: nat)
      modifies this
      ensures State() == Register(old(State()), conversation) && turn == |old(of)|
    {
      turn := |of|;
      of, running, newest := of + [conversation], running + {turn}, newest[conversation := turn];
    }

    method TaskDone(turn: nat)
      modifies this`running, this`newest
      ensures State() == Unregister(old(State()), turn)
    {
      if turn !in running || turn >= |of| {
        return;
      }
      running := running - {turn};
      if of[turn] in newest && newest[of[turn]] == turn {
        newest := newest - {of[turn]};
      }
    }

    method StopTurn(conversation: nat) returns (stopped: Option<nat>)
      ensures Faithful(State()) ==> match stopped
                                    case Some(turn) => NewestRunning(State(), conversation, turn)
                                    case None => forall turn: nat :: !NewestRunning(State(), conversation, turn)
    {
      stopped := if conversation in newest then Some(newest[conversation]) else None;
      assert stopped.Some? ==> Reaches(State(), conversation, stopped.value);
      assert stopped.None? ==> forall turn: nat :: !Reaches(State(), conversation, turn);
    }

    /** `endedInTime` are the tasks done within the timeout; every other one is cancelled and waited for. */
    method DrainTurns(endedInTime: set<nat>) returns (cancelled: set<nat>)
      modifies this`running, this`newest
      ensures cancelled == old(running) - endedInTime
      ensures Faithful(old(State())) ==> running == {} && newest == map[] && of == old(of)
    {
      cancelled := running - endedInTime;
      var left := running;
      while left != {}
        invariant left <= running && running <= old(running) && of == old(of)
        invariant Faithful(old(State())) ==> Faithful(State()) && running == left
        decreases |left|
      {
        var turn :| turn in left;
        ghost var before := State();
        if Faithful(before) { UnregisterKeeps(before, turn); }
        TaskDone(turn);
        left := left - {turn};
      }
      if Faithful(old(State())) && newest != map[] {
        var c :| c in newest;
        assert Reaches(State(), c, newest[c]);
      }
    }
  }
}
