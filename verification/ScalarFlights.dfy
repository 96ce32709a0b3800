/**
 A scalar call's part in the system of concurrent calls.

 Everything a call does with flights goes through a `Participant`. It changes the
 system by the moves of its own call only, and between any two of them the other
 calls may move.
 */
module ScalarFlights {
  import opened Wrappers
  import opened SingleFlight
  import opened ScalarDeadlock

  predicate StillRunning(s: System, f: FlightId) {
    f < |s.flights.table| && s.flights.table[f].phase.Running?
  }

  /** The call takes part, and none of the flights it owes has begun to finish. */
  predicate Joined(s: System, me: nat) {
    && Sound(s) && me < |s.calls|
    && forall f {:trigger StillRunning(s, f)} :: f in s.calls[me].owed ==> StillRunning(s, f)
  }

  /** Other calls moved: this one and the flights it owes are as before. */
  predicate Undisturbed(s: System, t: System, me: nat) {
    && Sound(t) && me < |s.calls| <= |t.calls| && t.calls[me] == s.calls[me] && Settles(s.flights, t.flights)
    && forall f :: f in s.calls[me].owed && f < |s.flights.table| ==> t.flights.table[f] == s.flights.table[f]
  }

  lemma OthersAdvanceOtherFlights(s: System, c: nat, f: FlightId, outcome: Outcome, me: nat)
    requires Sound(s) && me < |s.calls| && CanMove(s, Advance(c, f, outcome)) && c != me
    ensures f !in s.calls[me].owed
  {
    assert Owes(s, c, f) && OwesItsOwn(s, c) && OwesItsOwn(s, me);
    assert f in s.calls[me].owed ==> Owes(s, me, f);
  }

  // Any move of another call leaves this one undisturbed.
  lemma OtherMovesDisturbNothing(s: System, m: Move, me: nat)
    requires Sound(s) && me < |s.calls| && CanMove(s, m) && m.call != me
    ensures Undisturbed(s, After(s, m), me)
  {
    StepKeepsSound(s, m);
    match m
    case Claim(c) =>
      StepSettles(s.flights, Acquire(s.calls[c].keys[s.calls[c].claimed]));
    case Advance(c, f, outcome) =>
      OthersAdvanceOtherFlights(s, c, f, outcome, me);
      StepSettles(s.flights, FinishStep(s.flights.table[f], f, outcome));
    case _ =>
  }

  lemma UndisturbedIsTransitive(s: System, t: System, u: System, me: nat)
    requires Undisturbed(s, t, me) && Undisturbed(t, u, me)
    ensures Undisturbed(s, u, me)
  {
    SettlesIsTransitive(s.flights, t.flights, u.flights);
  }

  lemma UndisturbedKeepsJoined(s: System, t: System, me: nat)
    requires Joined(s, me) && Undisturbed(s, t, me)
    ensures Joined(t, me)
  {
    forall f | f in t.calls[me].owed
      ensures StillRunning(t, f)
    {
      assert StillRunning(s, f);
    }
  }

  // A move that finishes nothing leaves the owed flights running.
  lemma MoveKeepsJoined(s: System, m: Move)
    requires Joined(s, m.call) && CanMove(s, m) && !m.Advance?
    ensures Joined(After(s, m), m.call)
  {
    StepKeepsSound(s, m);
    var t := After(s, m);
    forall f | f in t.calls[m.call].owed
      ensures StillRunning(t, f)
    {
      if f in s.calls[m.call].owed {
        assert StillRunning(s, f);
      }
    }
  }

  lemma OwedExists(s: System, me: nat)
    requires Joined(s, me)
    ensures forall f :: f in s.calls[me].owed ==> f < |s.flights.table|
  {
    forall f | f in s.calls[me].owed
      ensures f < |s.flights.table|
    {
      assert StillRunning(s, f);
    }
  }

  lemma EnrollKeepsSound(s: System, keys: seq<Key>)
    requires Sound(s)
    ensures var t := s.(calls := s.calls + [Call(keys, 0, {}, [], Claiming)]);
      Joined(t, |s.calls|) && forall me :: 0 <= me < |s.calls| ==> Undisturbed(s, t, me)
  {
    var t := s.(calls := s.calls + [Call(keys, 0, {}, [], Claiming)]);
    assert forall c: nat :: c < |s.calls| ==> t.calls[c] == s.calls[c];
    assert forall c: nat :: c < |s.calls| ==> WellFormed(s.calls[c], |s.flights.table|);
    OwedForms(s);
    OwedForms(t);
    assert forall c: nat, f: FlightId :: Owes(t, c, f) <==> Owes(s, c, f);
  }

  class Participant {
    var system: System
    const me: nat

    ghost predicate Valid()
      reads this
    {
      Joined(system, me)
    }

    /** This call as the system sees it. */
    function Me(): Call
      reads this
    {
      if me < |system.calls| then system.calls[me] else Call([], 0, {}, [], Finished)
    }

    /** The flight was finished with this outcome. */
    predicate Shows(f: FlightId, outcome: Outcome)
      reads this
    {
      f < |system.flights.table| && system.flights.table[f].phase == Published(outcome)
    }

    /** Join a running system with the keys of the call's misses. */
    constructor (others: System, keys: seq<Key>)
      requires Sound(others)
      ensures Valid() && Me() == Call(keys, 0, {}, [], Claiming)
    {
      system := others.(calls := others.calls + [Call(keys, 0, {}, [], Claiming)]);
      me := |others.calls|;
      new;
      EnrollKeepsSound(others, keys);
    }

    /** The other calls move, any number of times. */
    method Interfere()
      requires Sound(system) && me < |system.calls|
      modifies this
      ensures Undisturbed(old(system), system, me)
    {
      assert Undisturbed(system, system, me);
      var s: System := *;
      if Undisturbed(system, s, me) {
        system := s;
      }
    }

    /** The only way in which this call changes the system. */
    method Take(m: Move)
      requires Sound(system) && m.call == me && CanMove(system, m)
      modifies this
      ensures system == After(old(system), m) && Sound(system)
    {
      StepKeepsSound(system, m);
      system := After(system, m);
    }

    method Claim() returns (claim: Claim)
      requires Valid() && Me().mode == Claiming && Me().claimed < |Me().keys|
      modifies this
      ensures Valid()
      ensures claim.Producer? ==> claim.flight !in old(Me().owed)
      ensures claim.Producer? ==>
        Me() == old(Me()).(claimed := old(Me()).claimed + 1, owed := old(Me()).owed + {claim.flight})
      ensures claim.Follower? ==>
        Me() == old(Me()).(claimed := old(Me()).claimed + 1, follow := old(Me()).follow + [claim.flight])
    {
      Interfere();
      UndisturbedKeepsJoined(old(system), system, me);
      OwedExists(system, me);
      claim := ClaimOf(system.flights, Me().keys[Me().claimed]);
      MoveKeepsJoined(system, Move.Claim(me));
      Take(Move.Claim(me));
    }

    /** Every miss is claimed. */
    method StopClaiming()
      requires Valid() && Me().mode == Claiming && Me().claimed == |Me().keys|
      modifies this
      ensures Valid() && Me() == old(Me()).(mode := Producing)
    {
      MoveKeepsJoined(system, Move.StopClaiming(me));
      Take(Move.StopClaiming(me));
    }

    /** Finish one of the flights, in four steps between which others move. */
    method Finish(f: FlightId, outcome: Outcome)
      requires Valid() && Me().mode in {Producing, Unwinding} && f in Me().owed
      modifies this
      ensures Valid() && Me() == old(Me()).(owed := old(Me()).owed - {f})
      ensures Shows(f, outcome)
    {
      ghost var begin := system;
      assert StillRunning(system, f);
      Advance(f, outcome, begin);
      Advance(f, outcome, begin);
      Advance(f, outcome, begin);
      ghost var before := system;
      Interfere();
      OthersKeepInFinish(begin, before, system, me, f);
      LastStep(begin, system, me, f, outcome);
      Take(Move.Advance(me, f, outcome));
    }

    /** One of the first three steps of finishing `f`; `begin` is the state before the first. */
    method Advance(f: FlightId, outcome: Outcome, ghost begin: System)
      requires InFinish(begin, system, me, f) && begin.calls[me].mode in {Producing, Unwinding}
      requires StepsLeft(system.flights.table[f]) > 1
      modifies this
      ensures InFinish(begin, system, me, f) && system.flights.table[f].phase == PhaseAfter(old(system).flights.table[f].phase, outcome)
    {
      ghost var before := system;
      Interfere();
      OthersKeepInFinish(begin, before, system, me, f);
      NextStep(begin, system, me, f, outcome);
      Take(Move.Advance(me, f, outcome));
    }

    /** Nothing is owed any more. */
    method StopProducing()
      requires Valid() && Me().mode == Producing && Me().owed == {}
      modifies this
      ensures Valid() && Me() == old(Me()).(mode := Following)
    {
      MoveKeepsJoined(system, Move.StopProducing(me));
      Take(Move.StopProducing(me));
    }

    /** Wait for the next flight that is followed: its outcome, or a timeout. */
    method Collect() returns (outcome: Outcome)
      requires Valid() && Me().mode == Following && Me().follow != []
      modifies this
      ensures Valid() && Me() == old(Me()).(follow := old(Me()).follow[1..])
      ensures old(Me()).follow[0] < |system.flights.table|
      ensures outcome == TIMED_OUT || system.flights.table[old(Me()).follow[0]].blocking == Some(outcome)
    {
      Interfere();
      assert WellFormed(system.calls[me], |system.flights.table|);
      var shown := system.flights.table[Me().follow[0]].blocking;
      outcome := if shown.Some? then shown.value else TIMED_OUT;
      UndisturbedKeepsJoined(old(system), system, me);
      MoveKeepsJoined(system, Move.Collect(me, shown.None?));
      Take(Move.Collect(me, shown.None?));
    }

    /** An error: what is still owed will be dropped. */
    method Fail()
      requires Valid() && Me().mode in {Claiming, Producing, Following}
      modifies this
      ensures Valid() && Me() == old(Me()).(mode := Unwinding, follow := [])
    {
      MoveKeepsJoined(system, Move.Fail(me));
      Take(Move.Fail(me));
    }

    method Return()
      requires Valid() && Me().owed == {}
      requires Me().mode == Unwinding || (Me().mode == Following && Me().follow == [])
      modifies this
      ensures Valid() && Me() == old(Me()).(mode := Finished)
    {
      MoveKeepsJoined(system, Move.Return(me));
      Take(Move.Return(me));
    }
  }

  /** While `f` is being finished, all else of the call is as it was before. */
  predicate InFinish(begin: System, s: System, me: nat, f: FlightId) {
    && Sound(s) && me < |begin.calls| && me < |s.calls| && s.calls[me] == begin.calls[me]
    && f in s.calls[me].owed && f < |s.flights.table|
    && forall g {:trigger StillRunning(s, g)} :: g in s.calls[me].owed && g != f ==> StillRunning(s, g)
  }

  function PhaseAfter(phase: Phase, outcome: Outcome): Phase {
    match phase
    case Running => Leaving(outcome)
    case Leaving(o) => Publishing(o)
    case Publishing(o) => BlockingPublished(o)
    case _ => Published(phase.outcome)
  }

  lemma OthersKeepInFinish(begin: System, s: System, t: System, me: nat, f: FlightId)
    requires InFinish(begin, s, me, f) && Undisturbed(s, t, me)
    ensures InFinish(begin, t, me, f) && t.flights.table[f] == s.flights.table[f]
  {
    forall g | g in t.calls[me].owed && g != f
      ensures StillRunning(t, g)
    {
      assert StillRunning(s, g);
    }
  }

  lemma NextStep(begin: System, s: System, me: nat, f: FlightId, outcome: Outcome)
    requires InFinish(begin, s, me, f) && begin.calls[me].mode in {Producing, Unwinding} && StepsLeft(s.flights.table[f]) > 1
    ensures CanMove(s, Move.Advance(me, f, outcome))
    ensures var t := After(s, Move.Advance(me, f, outcome));
      InFinish(begin, t, me, f) && t.flights.table[f].phase == PhaseAfter(s.flights.table[f].phase, outcome)
  {
    var m := Move.Advance(me, f, outcome);
    StepKeepsSound(s, m);
    forall g | g in s.calls[me].owed && g != f
      ensures StillRunning(After(s, m), g)
    {
      assert StillRunning(s, g);
    }
  }

  lemma LastStep(begin: System, s: System, me: nat, f: FlightId, outcome: Outcome)
    requires InFinish(begin, s, me, f) && begin.calls[me].mode in {Producing, Unwinding}
    requires s.flights.table[f].phase == BlockingPublished(outcome)
    ensures CanMove(s, Move.Advance(me, f, outcome))
    ensures var t := After(s, Move.Advance(me, f, outcome));
      && Joined(t, me) && t.calls[me] == begin.calls[me].(owed := begin.calls[me].owed - {f})
      && f < |t.flights.table| && t.flights.table[f].phase == Published(outcome)
  {
    var m := Move.Advance(me, f, outcome);
    StepKeepsSound(s, m);
    forall g | g in s.calls[me].owed && g != f
      ensures StillRunning(After(s, m), g)
    {
      assert StillRunning(s, g);
    }
  }
}
