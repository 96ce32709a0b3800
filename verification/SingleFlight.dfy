/**
 The registry that lets one producer compute a cache entry while others wait.

 Every lock-protected section of the runtime is one atomic step. A flight is
 finished in four steps, between which any other thread may run: its producer is
 marked finished, the flight leaves the registry, and its outcome appears first
 on the blocking channel and then on the watch channel.
 */
module SingleFlight {
  import opened Wrappers

  type Key = string
  type FlightId = nat

  datatype Outcome = Stored | Aborted(reason: string)

  const DROPPED: Outcome := Aborted("cache producer dropped")
  const TIMED_OUT: Outcome := Aborted("cache flight wait exceeded rpc_timeout")

  datatype Phase =
    | Running
    | Leaving(outcome: Outcome)
    | Publishing(outcome: Outcome)
    | BlockingPublished(outcome: Outcome)
    | Published(outcome: Outcome)

  datatype Flight = Flight(key: Key, phase: Phase, blocking: Option<Outcome>, watch: Option<Outcome>) {
    /** Its producer has yet to take it out of the registry. */
    predicate Unfinished() {
      phase.Running? || phase.Leaving?
    }

    /** The outcome of its first finish. */
    function Decision(): Option<Outcome> {
      if phase.Running? then None else Some(phase.outcome)
    }

    /** What its channels show is what its phase says. */
    predicate Consistent() {
      match phase
      case Running => blocking.None? && watch.None?
      case Leaving(_) => blocking.None? && watch.None?
      case Publishing(_) => blocking.None? && watch.None?
      case BlockingPublished(o) => blocking == Some(o) && watch.None?
      case Published(o) => blocking == Some(o) && watch == Some(o)
    }
  }

  datatype Channel = Blocking | Watch

  datatype Waiter = Waiter(flight: FlightId, channel: Channel, answer: Option<Outcome>)

  datatype State = State(alive: bool, registry: map<Key, FlightId>, table: seq<Flight>, waiters: seq<Waiter>)

  datatype Claim = Producer(flight: FlightId) | Follower(flight: FlightId)

  datatype Action =
    | Acquire(key: Key)
    | BeginFinish(flight: FlightId, outcome: Outcome)
    | Unregister(flight: FlightId)
    | PublishBlocking(flight: FlightId)
    | PublishWatch(flight: FlightId)
    | DropRegistry
    | Wait(on: FlightId, channel: Channel)
    | Observe(waiter: nat)
    | TimeOut(waiter: nat)

  const EMPTY: State := State(true, map[], [], [])

  function Shown(flight: Flight, channel: Channel): Option<Outcome> {
    if channel == Blocking then flight.blocking else flight.watch
  }

  predicate Enabled(s: State, a: Action) {
    match a
    case Acquire(_) => s.alive
    case BeginFinish(f, _) => f < |s.table|
    case Unregister(f) => f < |s.table| && s.table[f].phase.Leaving? && s.alive
    case PublishBlocking(f) => f < |s.table| && s.table[f].phase.Publishing?
    case PublishWatch(f) => f < |s.table| && s.table[f].phase.BlockingPublished?
    // A producer that is leaving holds the registry alive.
    case DropRegistry => s.alive && forall f: FlightId :: f < |s.table| ==> !s.table[f].phase.Leaving?
    case Wait(f, _) => f < |s.table|
    case Observe(w) =>
      w < |s.waiters| && s.waiters[w].answer.None? && s.waiters[w].flight < |s.table|
      && Shown(s.table[s.waiters[w].flight], s.waiters[w].channel).Some?
    case TimeOut(w) =>
      w < |s.waiters| && s.waiters[w].answer.None? && s.waiters[w].flight < |s.table|
      && Shown(s.table[s.waiters[w].flight], s.waiters[w].channel).None?
  }

  /** What an acquisition of the key answers. */
  function ClaimOf(s: State, key: Key): Claim {
    if key in s.registry then Follower(s.registry[key]) else Producer(|s.table|)
  }

  function Next(s: State, a: Action): State
    requires Enabled(s, a)
  {
    match a
    case Acquire(key) =>
      if key in s.registry then
        s
      else
        s.(registry := s.registry[key := |s.table|], table := s.table + [Flight(key, Running, None, None)])
    case BeginFinish(f, o) =>
      // A second finish, and a drop after a finish, do nothing.
      if !s.table[f].phase.Running? then
        s
      else
        s.(table := s.table[f := s.table[f].(phase := if s.alive then Leaving(o) else Publishing(o))])
    case Unregister(f) =>
      var key := s.table[f].key;
      s.(registry := if key in s.registry && s.registry[key] == f then s.registry - {key} else s.registry,
         table := s.table[f := s.table[f].(phase := Publishing(s.table[f].phase.outcome))])
    case PublishBlocking(f) =>
      var o := s.table[f].phase.outcome;
      s.(table := s.table[f := s.table[f].(phase := BlockingPublished(o), blocking := Some(o))])
    case PublishWatch(f) =>
      var o := s.table[f].phase.outcome;
      s.(table := s.table[f := s.table[f].(phase := Published(o), watch := Some(o))])
    case DropRegistry => s.(alive := false, registry := map[])
    case Wait(f, channel) => s.(waiters := s.waiters + [Waiter(f, channel, None)])
    case Observe(w) =>
      var waiter := s.waiters[w];
      s.(waiters := s.waiters[w := waiter.(answer := Shown(s.table[waiter.flight], waiter.channel))])
    case TimeOut(w) => s.(waiters := s.waiters[w := s.waiters[w].(answer := Some(TIMED_OUT))])
  }

  // ---------------------------------------------------------------------
  // The invariant of every run

  /** Exactly the unfinished flights are registered, each under its own key. */
  predicate RegistryMatches(s: State) {
    && (forall key :: key in s.registry ==>
          s.registry[key] < |s.table| && s.table[s.registry[key]].key == key && s.table[s.registry[key]].Unfinished())
    && (forall f: FlightId :: f < |s.table| && s.table[f].Unfinished() && s.alive ==>
          s.table[f].key in s.registry && s.registry[s.table[f].key] == f)
    && (forall f: FlightId :: f < |s.table| && s.table[f].phase.Leaving? ==> s.alive)
    && (!s.alive ==> s.registry == map[])
  }

  predicate OneProducerPerKey(s: State) {
    forall f: FlightId, g: FlightId ::
      f < |s.table| && g < |s.table| && s.table[f].Unfinished() && s.table[g].Unfinished() && s.table[f].key == s.table[g].key
      ==> f == g
  }

  predicate FlightsConsistent(s: State) {
    forall f: FlightId :: f < |s.table| ==> s.table[f].Consistent()
  }

  /** A waiter was answered with its own flight's outcome, or timed out. */
  predicate AnswersMatch(s: State) {
    forall w: nat :: w < |s.waiters| ==>
      && s.waiters[w].flight < |s.table|
      && (s.waiters[w].answer.Some? ==>
            || s.waiters[w].answer == Some(TIMED_OUT)
            || s.waiters[w].answer == Shown(s.table[s.waiters[w].flight], s.waiters[w].channel))
  }

  predicate Inv(s: State) {
    RegistryMatches(s) && OneProducerPerKey(s) && FlightsConsistent(s) && AnswersMatch(s)
  }

  lemma AcquireKeepsRegistry(s: State, key: Key)
    requires s.alive && RegistryMatches(s) && OneProducerPerKey(s)
    ensures var t := Next(s, Acquire(key)); RegistryMatches(t) && OneProducerPerKey(t)
  {
  }

  lemma FinishKeepsRegistry(s: State, f: FlightId, outcome: Outcome)
    requires f < |s.table| && RegistryMatches(s) && OneProducerPerKey(s)
    ensures var t := Next(s, BeginFinish(f, outcome)); RegistryMatches(t) && OneProducerPerKey(t)
  {
  }

  lemma UnregisterKeepsRegistry(s: State, f: FlightId)
    requires Enabled(s, Unregister(f)) && RegistryMatches(s) && OneProducerPerKey(s)
    ensures var t := Next(s, Unregister(f)); RegistryMatches(t) && OneProducerPerKey(t)
  {
  }

  lemma PublishKeepsRegistry(s: State, a: Action)
    requires Enabled(s, a) && (a.PublishBlocking? || a.PublishWatch?) && RegistryMatches(s) && OneProducerPerKey(s)
    ensures RegistryMatches(Next(s, a)) && OneProducerPerKey(Next(s, a))
  {
  }

  lemma StepKeepsRegistry(s: State, a: Action)
    requires Enabled(s, a) && RegistryMatches(s) && OneProducerPerKey(s)
    ensures RegistryMatches(Next(s, a)) && OneProducerPerKey(Next(s, a))
  {
    match a
    case Acquire(key) => AcquireKeepsRegistry(s, key);
    case BeginFinish(f, o) => FinishKeepsRegistry(s, f, o);
    case Unregister(f) => UnregisterKeepsRegistry(s, f);
    case PublishBlocking(_) => PublishKeepsRegistry(s, a);
    case PublishWatch(_) => PublishKeepsRegistry(s, a);
    case _ =>
  }

  lemma StepKeepsFlights(s: State, a: Action)
    requires Enabled(s, a) && FlightsConsistent(s) && AnswersMatch(s)
    ensures FlightsConsistent(Next(s, a)) && AnswersMatch(Next(s, a))
  {
  }

  lemma StepKeepsInv(s: State, a: Action)
    requires Enabled(s, a) && Inv(s)
    ensures Inv(Next(s, a))
  {
    StepKeepsRegistry(s, a);
    StepKeepsFlights(s, a);
  }

  ghost predicate IsRun(run: seq<State>, actions: seq<Action>) {
    && |run| == |actions| + 1
    && run[0] == EMPTY
    && forall i :: 0 <= i < |actions| ==> Enabled(run[i], actions[i]) && run[i + 1] == Next(run[i], actions[i])
  }

  lemma {:induction false} RunKeepsInv(run: seq<State>, actions: seq<Action>, i: nat)
    requires IsRun(run, actions) && i < |run|
    ensures Inv(run[i])
    decreases i
  {
    if i > 0 {
      RunKeepsInv(run, actions, i - 1);
      StepKeepsInv(run[i - 1], actions[i - 1]);
    }
  }

  // ---------------------------------------------------------------------
  // What the invariant means

  /** A flight keeps its key, and what a channel shows stays there. */
  predicate Settles(s: State, t: State) {
    && |s.table| <= |t.table|
    && forall f: FlightId :: f < |s.table| ==>
         && t.table[f].key == s.table[f].key
         && (s.table[f].Decision().Some? ==> t.table[f].Decision() == s.table[f].Decision())
         && (s.table[f].blocking.Some? ==> t.table[f].blocking == s.table[f].blocking)
         && (s.table[f].watch.Some? ==> t.table[f].watch == s.table[f].watch)
         && (!s.table[f].Unfinished() ==> !t.table[f].Unfinished())
  }

  lemma StepSettles(s: State, a: Action)
    requires Enabled(s, a) && FlightsConsistent(s)
    ensures Settles(s, Next(s, a))
  {
  }

  lemma RunStepSettles(run: seq<State>, actions: seq<Action>, i: nat)
    requires IsRun(run, actions) && i < |actions|
    ensures Settles(run[i], run[i + 1])
  {
    RunKeepsInv(run, actions, i);
    StepSettles(run[i], actions[i]);
  }

  lemma SettlesIsTransitive(s: State, t: State, u: State)
    requires Settles(s, t) && Settles(t, u)
    ensures Settles(s, u)
  {
  }

  lemma {:induction false} ChainSettles(run: seq<State>, i: nat, j: nat)
    requires i <= j < |run| && forall k: nat :: k < |run| - 1 ==> Settles(run[k], run[k + 1])
    ensures Settles(run[i], run[j])
    decreases j - i
  {
    if i < j {
      ChainSettles(run, i, j - 1);
      SettlesIsTransitive(run[i], run[j - 1], run[j]);
    }
  }

  lemma RunSettles(run: seq<State>, actions: seq<Action>, i: nat, j: nat)
    requires IsRun(run, actions) && i <= j < |run|
    ensures Settles(run[i], run[j])
  {
    forall k: nat | k < |run| - 1
      ensures Settles(run[k], run[k + 1])
    {
      RunStepSettles(run, actions, k);
    }
    ChainSettles(run, i, j);
  }

  // Whenever and on whichever channel a flight's outcome is seen, it is the same.
  lemma OneOutcomePerFlight(run: seq<State>, actions: seq<Action>, i: nat, j: nat, f: FlightId, c: Channel, d: Channel)
    requires IsRun(run, actions) && i <= j < |run| && f < |run[i].table|
    requires f < |run[j].table|
    requires Shown(run[i].table[f], c).Some? && Shown(run[j].table[f], d).Some?
    ensures Shown(run[i].table[f], c) == Shown(run[j].table[f], d)
  {
    RunKeepsInv(run, actions, i);
    RunKeepsInv(run, actions, j);
    RunSettles(run, actions, i, j);
    assert run[i].table[f].Consistent() && run[j].table[f].Consistent();
  }

  // Only the first finish of a flight counts: whatever is seen later is its outcome.
  lemma FirstFinishDecides(run: seq<State>, actions: seq<Action>, i: nat, j: nat, c: Channel)
    requires IsRun(run, actions) && i < j < |run| && actions[i].BeginFinish?
    requires run[i].table[actions[i].flight].phase.Running?
    ensures actions[i].flight < |run[j].table|
    ensures var seen := Shown(run[j].table[actions[i].flight], c); seen.Some? ==> seen == Some(actions[i].outcome)
  {
    RunKeepsInv(run, actions, j);
    RunSettles(run, actions, i + 1, j);
    assert run[i + 1].table[actions[i].flight].Decision() == Some(actions[i].outcome);
    assert run[j].table[actions[i].flight].Consistent();
  }

  // Finishing a flight takes away its own registration and no other.
  lemma LateFinishEvictsNothingElse(run: seq<State>, actions: seq<Action>, i: nat)
    requires IsRun(run, actions) && i < |actions| && actions[i].Unregister?
    ensures var f := actions[i].flight;
      && run[i].table[f].key in run[i].registry && run[i].registry[run[i].table[f].key] == f
      && run[i + 1].registry == run[i].registry - {run[i].table[f].key}
  {
    RunKeepsInv(run, actions, i);
  }

  // Once an outcome can be seen, the key is free: a caller that saw it and tries
  // again becomes the producer of a new flight or follows a newer one.
  lemma SeenFlightsAreGone(run: seq<State>, actions: seq<Action>, i: nat, f: FlightId, c: Channel, key: Key)
    requires IsRun(run, actions) && i < |run| && f < |run[i].table| && Shown(run[i].table[f], c).Some?
    ensures ClaimOf(run[i], key).flight != f
  {
    RunKeepsInv(run, actions, i);
    assert run[i].table[f].Consistent();
  }

  // A follower's answer is the outcome that its flight's producer decided on,
  // then and at any later time, unless it gave up waiting.
  lemma FollowersSeeTheirOwnFlight(run: seq<State>, actions: seq<Action>, i: nat, j: nat, w: nat)
    requires IsRun(run, actions) && i <= j < |run| && w < |run[i].waiters|
    requires run[i].waiters[w].answer.Some?
    ensures var waiter := run[i].waiters[w];
      && waiter.flight < |run[j].table|
      && (waiter.answer == Some(TIMED_OUT) || waiter.answer == Shown(run[j].table[waiter.flight], waiter.channel))
  {
    RunKeepsInv(run, actions, i);
    RunSettles(run, actions, i, j);
    assert run[i].table[run[i].waiters[w].flight].Consistent();
  }

  // A producer is started for a key exactly when no other one is unfinished.
  lemma ProducersAreExclusive(run: seq<State>, actions: seq<Action>, i: nat, key: Key)
    requires IsRun(run, actions) && i < |run| && run[i].alive
    ensures ClaimOf(run[i], key).Producer? <==>
      !exists f: FlightId :: f < |run[i].table| && run[i].table[f].key == key && run[i].table[f].Unfinished()
    ensures ClaimOf(run[i], key).Follower? ==>
      var f := ClaimOf(run[i], key).flight;
      f < |run[i].table| && run[i].table[f].key == key && run[i].table[f].Unfinished()
  {
    RunKeepsInv(run, actions, i);
  }

  // ---------------------------------------------------------------------
  // The registry's methods

  class ResultFlightRegistry {
    var flights: map<Key, FlightId>
    var table: seq<Flight>
    var waiters: seq<Waiter>
    var alive: bool

    ghost function Value(): State
      reads this
    {
      State(alive, flights, table, waiters)
    }

    constructor ()
      ensures Value() == EMPTY
    {
      flights, table, waiters, alive := map[], [], [], true;
    }

    method Acquire(key: Key) returns (claim: Claim)
      requires Inv(Value()) && Enabled(Value(), Action.Acquire(key))
      modifies this
      ensures Value() == Next(old(Value()), Action.Acquire(key)) && Inv(Value())
      ensures claim == ClaimOf(old(Value()), key)
      ensures claim.flight < |table| && table[claim.flight].key == key && table[claim.flight].Unfinished()
    {
      StepKeepsInv(Value(), Action.Acquire(key));
      if key in flights {
        return Follower(flights[key]);
      }
      claim := Producer(|table|);
      table := table + [Flight(key, Running, None, None)];
      flights := flights[key := claim.flight];
    }

    /** A producer's `finish`, run without interruption. */
    method Finish(f: FlightId, outcome: Outcome)
      requires Inv(Value()) && f < |table| && !table[f].phase.Leaving?
      modifies this
      ensures Inv(Value()) && waiters == old(waiters) && alive == old(alive)
      ensures !old(table[f].phase.Running?) ==> Value() == old(Value())
      ensures old(table[f].phase.Running?) ==>
        && table == old(table)[f := old(table[f]).(phase := Published(outcome), blocking := Some(outcome), watch := Some(outcome))]
        && flights == if alive then old(flights) - {old(table[f].key)} else old(flights)
    {
      if !table[f].phase.Running? {
        return;
      }
      ghost var s0 := Value();
      StepKeepsInv(s0, BeginFinish(f, outcome));
      if alive {
        table := table[f := table[f].(phase := Leaving(outcome))];
        Leave(f);
      } else {
        table := table[f := table[f].(phase := Publishing(outcome))];
      }
      ghost var s1 := Value();
      StepKeepsInv(s1, PublishBlocking(f));
      table := table[f := table[f].(phase := BlockingPublished(outcome), blocking := Some(outcome))];
      ghost var s2 := Value();
      StepKeepsInv(s2, PublishWatch(f));
      table := table[f := table[f].(phase := Published(outcome), watch := Some(outcome))];
    }

    /** Take the flight out of the registry unless another flight has its place. */
    method Leave(f: FlightId)
      requires Inv(Value()) && Enabled(Value(), Unregister(f))
      modifies this
      ensures Value() == Next(old(Value()), Unregister(f)) && Inv(Value())
      ensures flights == old(flights) - {old(table[f].key)}
    {
      StepKeepsInv(Value(), Unregister(f));
      var flight := table[f];
      if flight.key in flights && flights[flight.key] == f {
        flights := flights - {flight.key};
      }
      table := table[f := flight.(phase := Publishing(flight.phase.outcome))];
    }

    /** A waiter looks at its channel once; `deadline` tells whether its time is up. */
    method Poll(w: nat, deadline: bool) returns (answer: Option<Outcome>)
      requires Inv(Value()) && w < |waiters| && waiters[w].answer.None?
      modifies this
      ensures Inv(Value()) && table == old(table) && flights == old(flights)
      ensures waiters == old(waiters)[w := old(waiters[w]).(answer := answer)]
      ensures answer.Some? <==> deadline || Shown(table[waiters[w].flight], waiters[w].channel).Some?
      ensures answer == Some(TIMED_OUT) || answer == Shown(table[waiters[w].flight], waiters[w].channel)
    {
      var waiter := waiters[w];
      answer := Shown(table[waiter.flight], waiter.channel);
      if answer.Some? {
        StepKeepsInv(Value(), Observe(w));
      } else if deadline {
        StepKeepsInv(Value(), TimeOut(w));
        answer := Some(TIMED_OUT);
      }
      waiters := waiters[w := waiter.(answer := answer)];
    }
  }
}
