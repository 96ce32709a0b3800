/**
 Any number of concurrent scalar calls over overlapping cache keys.

 A call claims a flight for each of its misses, finishes every flight it produces,
 and only then waits for the flights it follows. On an error it drops what it has
 claimed. The model lets a call advance its flights in any order and fail at any
 point, which covers every order and every error exit of the code.
 */
module ScalarDeadlock {
  import opened Wrappers
  import opened SingleFlight

  datatype Mode = Claiming | Producing | Following | Unwinding | Finished

  datatype Call = Call(keys: seq<Key>, claimed: nat, owed: set<FlightId>, follow: seq<FlightId>, mode: Mode)

  /** `owner[f]` is the call that produces flight `f`. */
  datatype System = System(flights: State, owner: seq<nat>, calls: seq<Call>)

  datatype Move =
    | Claim(call: nat)
    | StopClaiming(call: nat)
    | Advance(call: nat, flight: FlightId, outcome: Outcome)
    | StopProducing(call: nat)
    | Collect(call: nat, timedOut: bool)
    | Return(call: nat)
    | Fail(call: nat)

  predicate CanMove(s: System, m: Move) {
    && m.call < |s.calls|
    && var call := s.calls[m.call];
    match m
    case Claim(_) => call.mode == Claiming && call.claimed < |call.keys| && s.flights.alive
    case StopClaiming(_) => call.mode == Claiming && call.claimed == |call.keys|
    case Advance(_, f, _) =>
      call.mode in {Producing, Unwinding} && f in call.owed && f < |s.flights.table| && s.flights.alive
      && !s.flights.table[f].phase.Published?
    case StopProducing(_) => call.mode == Producing && call.owed == {}
    case Collect(_, timedOut) =>
      call.mode == Following && call.follow != [] && call.follow[0] < |s.flights.table|
      && (timedOut || s.flights.table[call.follow[0]].blocking.Some?)
    case Return(_) =>
      (call.mode == Following && call.follow == []) || (call.mode == Unwinding && call.owed == {})
    case Fail(_) => call.mode in {Claiming, Producing, Following}
  }

  /** The next step of finishing a flight. */
  function FinishStep(flight: Flight, f: FlightId, outcome: Outcome): Action {
    match flight.phase
    case Running => BeginFinish(f, outcome)
    case Leaving(_) => Unregister(f)
    case Publishing(_) => PublishBlocking(f)
    case _ => PublishWatch(f)
  }

  function After(s: System, m: Move): System
    requires CanMove(s, m)
  {
    var c := m.call;
    var call := s.calls[c];
    match m
    case Claim(_) =>
      var key := call.keys[call.claimed];
      var next := call.(claimed := call.claimed + 1);
      var flights := Next(s.flights, Acquire(key));
      (match ClaimOf(s.flights, key)
       case Producer(f) => System(flights, s.owner + [c], s.calls[c := next.(owed := call.owed + {f})])
       case Follower(f) => System(flights, s.owner, s.calls[c := next.(follow := call.follow + [f])]))
    case StopClaiming(_) => s.(calls := s.calls[c := call.(mode := Producing)])
    case Advance(_, f, outcome) =>
      var action := FinishStep(s.flights.table[f], f, outcome);
      System(Next(s.flights, action), s.owner,
             if action.PublishWatch? then s.calls[c := call.(owed := call.owed - {f})] else s.calls)
    case StopProducing(_) => s.(calls := s.calls[c := call.(mode := Following)])
    case Collect(_, _) => s.(calls := s.calls[c := call.(follow := call.follow[1..])])
    case Return(_) => s.(calls := s.calls[c := call.(mode := Finished)])
    case Fail(_) => s.(calls := s.calls[c := call.(mode := Unwinding, follow := [])])
  }

  // ---------------------------------------------------------------------
  // What every step keeps

  predicate Owes(s: System, c: nat, f: FlightId) {
    c < |s.calls| && f in s.calls[c].owed
  }

  /** What a call owes, it owns. */
  predicate OwesItsOwn(s: System, c: nat)
    requires c < |s.calls|
  {
    forall f {:trigger Owes(s, c, f)} :: f in s.calls[c].owed && Owes(s, c, f) ==> f < |s.owner| && s.owner[f] == c
  }

  /** A flight is owed by exactly its owner until it is published. */
  predicate Owned(s: System) {
    && |s.owner| == |s.flights.table|
    && (forall f: FlightId :: f < |s.owner| ==> (Owes(s, s.owner[f], f) <==> !s.flights.table[f].phase.Published?))
    && (forall f: FlightId :: f < |s.owner| ==> s.owner[f] < |s.calls|)
    && (forall c: nat :: c < |s.calls| ==> OwesItsOwn(s, c))
  }

  ghost predicate OwedToOwner(s: System) {
    forall c: nat, f: FlightId :: Owes(s, c, f) ==> f < |s.owner| && s.owner[f] == c
  }

  lemma OwedForms(s: System)
    ensures OwedToOwner(s) <==> forall c: nat :: c < |s.calls| ==> OwesItsOwn(s, c)
  {
    if OwedToOwner(s) {
      forall c: nat | c < |s.calls|
        ensures OwesItsOwn(s, c)
      {
        forall f | f in s.calls[c].owed
          ensures f < |s.owner| && s.owner[f] == c
        {
          assert Owes(s, c, f);
        }
      }
    } else {
      var c: nat, f: FlightId :| Owes(s, c, f) && !(f < |s.owner| && s.owner[f] == c);
      assert !OwesItsOwn(s, c);
    }
  }

  /** A call waits only when it owes nothing, and only for existing flights. */
  predicate WellFormed(call: Call, flights: nat) {
    && call.claimed <= |call.keys|
    && (call.mode in {Following, Finished} ==> call.owed == {})
    && forall i :: 0 <= i < |call.follow| ==> call.follow[i] < flights
  }

  predicate CallsWellFormed(s: System) {
    forall c: nat :: c < |s.calls| ==> WellFormed(s.calls[c], |s.flights.table|)
  }

  predicate Sound(s: System) {
    Inv(s.flights) && s.flights.alive && Owned(s) && CallsWellFormed(s)
  }

  lemma ClaimKeepsOwned(s: System, c: nat)
    requires Sound(s) && CanMove(s, Claim(c))
    ensures Owned(After(s, Claim(c)))
  {
    var t := After(s, Claim(c));
    OwedForms(s);
    OwedForms(t);
    assert forall d: nat :: d < |s.calls| && d != c ==> t.calls[d] == s.calls[d];
    if s.calls[c].keys[s.calls[c].claimed] in s.flights.registry {
      assert forall d: nat, f: FlightId :: Owes(t, d, f) <==> Owes(s, d, f);
    } else {
      var n := |s.flights.table|;
      assert !Owes(s, c, n);
      assert forall d: nat, f: FlightId :: Owes(t, d, f) <==> Owes(s, d, f) || (d == c && f == n);
      assert t.owner[n] == c && t.flights.table[n].phase.Running?;
    }
  }

  lemma ClaimKeepsSound(s: System, c: nat)
    requires Sound(s) && CanMove(s, Claim(c))
    ensures Sound(After(s, Claim(c)))
  {
    var key := s.calls[c].keys[s.calls[c].claimed];
    StepKeepsInv(s.flights, Acquire(key));
    var t := After(s, Claim(c));
    ClaimKeepsOwned(s, c);
    assert WellFormed(s.calls[c], |s.flights.table|);
    assert forall d: nat :: d < |s.calls| && d != c ==> t.calls[d] == s.calls[d];
  }

  lemma AdvanceKeepsSound(s: System, c: nat, f: FlightId, outcome: Outcome)
    requires Sound(s) && CanMove(s, Advance(c, f, outcome))
    ensures Sound(After(s, Advance(c, f, outcome)))
  {
    var action, t := FinishStep(s.flights.table[f], f, outcome), After(s, Advance(c, f, outcome));
    OwedForms(s);
    OwedForms(t);
    assert s.flights.table[f].Consistent() && Owes(s, c, f);
    StepKeepsInv(s.flights, action);
    assert forall g: FlightId :: g < |s.flights.table| && g != f ==> t.flights.table[g] == s.flights.table[g];
    assert forall d: nat :: d < |s.calls| && d != c ==> t.calls[d] == s.calls[d];
    assert forall d: nat, g: FlightId :: Owes(t, d, g) <==> Owes(s, d, g) && !(action.PublishWatch? && d == c && g == f);
    assert WellFormed(s.calls[c], |s.flights.table|);
  }

  lemma OtherMovesKeepSound(s: System, m: Move)
    requires Sound(s) && CanMove(s, m) && !m.Claim? && !m.Advance?
    ensures Sound(After(s, m))
  {
    var t := After(s, m);
    OwedForms(s);
    OwedForms(t);
    assert forall d: nat :: d < |s.calls| && d != m.call ==> t.calls[d] == s.calls[d];
    assert forall d: nat, g: FlightId :: Owes(t, d, g) <==> Owes(s, d, g);
    assert WellFormed(s.calls[m.call], |s.flights.table|);
  }

  lemma StepKeepsSound(s: System, m: Move)
    requires Sound(s) && CanMove(s, m)
    ensures Sound(After(s, m))
  {
    match m
    case Claim(c) => ClaimKeepsSound(s, c);
    case Advance(c, f, outcome) => AdvanceKeepsSound(s, c, f, outcome);
    case _ => OtherMovesKeepSound(s, m);
  }

  // ---------------------------------------------------------------------
  // No deadlock

  /** The call can do nothing but wait for another one, or time out. */
  predicate Blocked(s: System, c: nat) {
    && c < |s.calls| && s.calls[c].mode == Following && s.calls[c].follow != []
    && s.calls[c].follow[0] < |s.flights.table|
    && s.flights.table[s.calls[c].follow[0]].blocking.None?
  }

  // Waiting is one level deep: whoever is waited for is not waiting.
  lemma NobodyWaitsForAWaiter(s: System, c: nat)
    requires Sound(s) && Blocked(s, c)
    ensures var owner := s.owner[s.calls[c].follow[0]];
      owner != c && owner < |s.calls| && s.calls[owner].mode !in {Following, Finished} && !Blocked(s, owner)
  {
  }

  /** Some move other than failing or timing out, whichever flight the code turns to next. */
  ghost predicate Progresses(s: System, c: nat) {
    c < |s.calls|
    && match s.calls[c].mode
       case Claiming => CanMove(s, if s.calls[c].claimed < |s.calls[c].keys| then Claim(c) else StopClaiming(c))
       case Producing =>
         if s.calls[c].owed == {} then
           CanMove(s, StopProducing(c))
         else
           forall f, o :: f in s.calls[c].owed ==> CanMove(s, Advance(c, f, o))
       case Following => CanMove(s, if s.calls[c].follow == [] then Return(c) else Collect(c, false))
       case Unwinding =>
         if s.calls[c].owed == {} then
           CanMove(s, Return(c))
         else
           forall f, o :: f in s.calls[c].owed ==> CanMove(s, Advance(c, f, o))
       case Finished => false
  }

  lemma OnlyBlockedCallsStop(s: System, c: nat)
    requires Sound(s) && c < |s.calls|
    ensures Progresses(s, c) <==> s.calls[c].mode != Finished && !Blocked(s, c)
  {
    OwedForms(s);
    forall f, o | f in s.calls[c].owed && s.calls[c].mode in {Producing, Unwinding}
      ensures CanMove(s, Advance(c, f, o))
    {
      assert Owes(s, c, f);
    }
  }

  lemma NoDeadlock(s: System)
    requires Sound(s) && exists c: nat :: c < |s.calls| && s.calls[c].mode != Finished
    ensures exists c: nat :: Progresses(s, c)
  {
    var c: nat :| c < |s.calls| && s.calls[c].mode != Finished;
    OnlyBlockedCallsStop(s, c);
    if Blocked(s, c) {
      NobodyWaitsForAWaiter(s, c);
      OnlyBlockedCallsStop(s, s.owner[s.calls[c].follow[0]]);
    }
  }

  // ---------------------------------------------------------------------
  // Every run ends

  function StepsLeft(flight: Flight): nat {
    match flight.phase
    case Running => 4
    case Leaving(_) => 3
    case Publishing(_) => 2
    case BlockingPublished(_) => 1
    case Published(_) => 0
  }

  function ModeRank(mode: Mode): nat {
    match mode
    case Claiming => 4
    case Producing => 3
    case Following => 2
    case Unwinding => 1
    case Finished => 0
  }

  function CallWork(call: Call): nat {
    (if call.mode == Claiming && call.claimed <= |call.keys| then 5 * (|call.keys| - call.claimed) else 0)
    + |call.follow| + ModeRank(call.mode)
  }

  function TableWork(table: seq<Flight>): nat {
    if table == [] then 0 else TableWork(table[..|table| - 1]) + StepsLeft(table[|table| - 1])
  }

  function CallsWork(calls: seq<Call>): nat {
    if calls == [] then 0 else CallsWork(calls[..|calls| - 1]) + CallWork(calls[|calls| - 1])
  }

  function Work(s: System): nat {
    TableWork(s.flights.table) + CallsWork(s.calls)
  }

  lemma {:induction false} TableWorkUpdate(table: seq<Flight>, f: FlightId, flight: Flight)
    requires f < |table|
    ensures TableWork(table[f := flight]) == TableWork(table) - StepsLeft(table[f]) + StepsLeft(flight)
    decreases |table|
  {
    var updated, n := table[f := flight], |table| - 1;
    if f < n {
      TableWorkUpdate(table[..n], f, flight);
      assert updated[..n] == table[..n][f := flight];
    } else {
      assert updated[..n] == table[..n];
    }
  }

  lemma {:induction false} CallsWorkUpdate(calls: seq<Call>, c: nat, call: Call)
    requires c < |calls|
    ensures CallsWork(calls[c := call]) == CallsWork(calls) - CallWork(calls[c]) + CallWork(call)
    decreases |calls|
  {
    var updated, n := calls[c := call], |calls| - 1;
    if c < n {
      CallsWorkUpdate(calls[..n], c, call);
      assert updated[..n] == calls[..n][c := call];
    } else {
      assert updated[..n] == calls[..n];
    }
  }

  lemma ClaimUsesWork(s: System, c: nat)
    requires CanMove(s, Claim(c))
    ensures Work(After(s, Claim(c))) < Work(s)
  {
    var t := After(s, Claim(c));
    CallsWorkUpdate(s.calls, c, t.calls[c]);
    assert t.calls == s.calls[c := t.calls[c]];
    if |t.flights.table| > |s.flights.table| {
      assert t.flights.table[..|s.flights.table|] == s.flights.table;
    }
  }

  lemma AdvanceUsesWork(s: System, c: nat, f: FlightId, outcome: Outcome)
    requires CanMove(s, Advance(c, f, outcome))
    ensures Work(After(s, Advance(c, f, outcome))) < Work(s)
  {
    var t := After(s, Advance(c, f, outcome));
    TableWorkUpdate(s.flights.table, f, t.flights.table[f]);
    assert t.flights.table == s.flights.table[f := t.flights.table[f]];
    CallsWorkUpdate(s.calls, c, s.calls[c].(owed := s.calls[c].owed - {f}));
  }

  lemma EveryMoveUsesWork(s: System, m: Move)
    requires CanMove(s, m)
    ensures Work(After(s, m)) < Work(s)
  {
    match m
    case Claim(c) => ClaimUsesWork(s, c);
    case Advance(c, f, outcome) => AdvanceUsesWork(s, c, f, outcome);
    case _ =>
      var t := After(s, m);
      CallsWorkUpdate(s.calls, m.call, t.calls[m.call]);
  }

  /** All calls before their first claim. */
  function Start(keys: seq<seq<Key>>): System {
    System(EMPTY, [], seq(|keys|, c requires 0 <= c < |keys| => Call(keys[c], 0, {}, [], Claiming)))
  }

  ghost predicate IsExecution(keys: seq<seq<Key>>, run: seq<System>, moves: seq<Move>) {
    && |run| == |moves| + 1
    && run[0] == Start(keys)
    && forall i :: 0 <= i < |moves| ==> CanMove(run[i], moves[i]) && run[i + 1] == After(run[i], moves[i])
  }

  lemma {:induction false} ExecutionIsSound(keys: seq<seq<Key>>, run: seq<System>, moves: seq<Move>, i: nat)
    requires IsExecution(keys, run, moves) && i < |run|
    ensures Sound(run[i]) && |run[i].calls| == |keys| && Work(run[i]) + i <= Work(Start(keys))
    decreases i
  {
    if i > 0 {
      ExecutionIsSound(keys, run, moves, i - 1);
      StepKeepsSound(run[i - 1], moves[i - 1]);
      EveryMoveUsesWork(run[i - 1], moves[i - 1]);
    }
  }

  function TotalKeys(keys: seq<seq<Key>>): nat {
    if keys == [] then 0 else TotalKeys(keys[..|keys| - 1]) + |keys[|keys| - 1]|
  }

  lemma {:induction false} WorkAtStart(keys: seq<seq<Key>>)
    ensures Work(Start(keys)) == 5 * TotalKeys(keys) + 4 * |keys|
    decreases |keys|
  {
    if keys != [] {
      var n := |keys| - 1;
      WorkAtStart(keys[..n]);
      assert Start(keys).calls[..n] == Start(keys[..n]).calls;
    }
  }

  // Whatever the schedule and whatever fails, the calls take a bounded number of
  // steps; and where no more step is possible without a timeout, all have returned.
  lemma EveryExecutionEnds(keys: seq<seq<Key>>, run: seq<System>, moves: seq<Move>)
    requires IsExecution(keys, run, moves)
    ensures |moves| <= 5 * TotalKeys(keys) + 4 * |keys|
    ensures |run[|moves|].calls| == |keys|
    ensures var last := run[|moves|];
      (forall c: nat :: !Progresses(last, c)) ==> forall c: nat :: c < |keys| ==> last.calls[c].mode == Finished
  {
    WorkAtStart(keys);
    ExecutionIsSound(keys, run, moves, |moves|);
    var last := run[|moves|];
    if c: nat :| c < |last.calls| && last.calls[c].mode != Finished {
      NoDeadlock(last);
    }
  }
}
