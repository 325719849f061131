/** Who can go on: no client is ever stuck, except exactly those that wait on a flight
    whose leader is gone. */
module Progress {
  import opened Text
  import opened Dns
  import opened Cache
  import opened Pool
  import Flights
  import Refreshes

  predicate Over(pc: Pc) { pc.Replied? || pc.Dropped? || pc.Finished? }

  /** A step of the task's own, other than being dropped. */
  predicate Own(a: Step, t: TaskId) { !a.Tick? && !a.Evict? && !a.Arrive? && !a.Drop? && a.t == t }

  ghost predicate CanMove(s: State, t: TaskId) {
    exists a :: Own(a, t) && Enabled(s, a)
  }

  /** A task number that is still free. */
  lemma FreshTask(s: State) returns (r: TaskId)
    ensures r !in s.tasks
  {
    r := Above(s.tasks.Keys);
  }

  lemma Above(ids: set<TaskId>) returns (r: TaskId)
    ensures forall t :: t in ids ==> t < r
  {
    if ids == {} {
      r := 0;
    } else {
      var x :| x in ids;
      var y := Above(ids - {x});
      r := if x < y then y else x + 1;
      assert forall t :: t in ids && t != x ==> t in ids - {x};
    }
  }

  predicate Working(pc: Pc) { HasWork(pc) || pc.Closing? || pc.Freed? }

  /** A task that is working, publishing or freeing can take its next step. */
  lemma WorkerMoves(s: State, t: TaskId)
    requires Flights.FlightInv(s) && Refreshes.SlotInv(s) && t in s.tasks && Working(s.tasks[t].pc)
    ensures CanMove(s, t)
  {
    Flights.FlightAt(s, t);
    Refreshes.SlotAt(s, t);
    hide Flights.FlightInv, Refreshes.SlotInv, Recv, Flights.Channel;
    var pc := s.tasks[t].pc;
    var a :=
      if pc.Closing? then Publish(t)
      else if pc.Freed? then Finish(t)
      else match pc.work
        case Asking => UpstreamReply(t, None)
        case Answered(_) => Stamp(t)
        case Stamped(_, _) => Write(t)
        case Returned(_) => Settle(t);
    assert Own(a, t) && Enabled(s, a);
  }

  /** A client that is not waiting for anyone can go on. */
  lemma ClientMoves(s: State, t: TaskId)
    requires Flights.FlightInv(s) && Refreshes.SlotInv(s) && t in s.tasks
    requires var pc := s.tasks[t].pc; pc.Arrived? || pc.HitClaim? || pc.StaleClaim? || pc.Joining?
    ensures CanMove(s, t)
  {
    Flights.FlightAt(s, t);
    Refreshes.SlotAt(s, t);
    hide Flights.FlightInv, Refreshes.SlotInv, Recv;
    var r := FreshTask(s);
    var pc := s.tasks[t].pc;
    var a :=
      if pc.Arrived? then Lookup(t)
      else if pc.HitClaim? then ClaimPrefetch(t, r)
      else if pc.StaleClaim? then ClaimStale(t, r)
      else Join(t);
    assert Own(a, t) && Enabled(s, a);
  }

  /** A follower can go on, or its leader can, or its leader is gone. */
  lemma FollowerMoves(s: State, t: TaskId)
    requires Flights.FlightInv(s) && Refreshes.SlotInv(s) && t in s.tasks && s.tasks[t].pc.Following?
    ensures var f := s.tasks[t].pc.leader;
      f in s.tasks && s.tasks[t].key.Some? && if Flights.Abandoned(s, s.tasks[t].key.value, f) then !CanMove(s, t) else CanMove(s, t) || CanMove(s, f)
  {
    Flights.FlightAt(s, t);
    Flights.Delivered(s, t);
    var f := s.tasks[t].pc.leader;
    var q := s.tasks[t].key.value;
    Flights.FlightAt(s, f);
    assert q in s.flights ==> Flights.FlightOf(s, q);
    hide Flights.FlightInv, Refreshes.SlotInv, Recv;
    if s.sent[f] != [] {
      assert Own(Receive(t), t) && Enabled(s, Receive(t));
    } else if Working(s.tasks[f].pc) {
      WorkerMoves(s, f);
    }
  }

  /** A client holding a stale answer can go on, or its timer is not due yet and the refresh
      it waits on can. */
  lemma WaiterMoves(s: State, t: TaskId)
    requires Flights.FlightInv(s) && Refreshes.SlotInv(s) && t in s.tasks && s.tasks[t].pc.StaleWait?
    ensures CanMove(s, t) || (s.now < s.tasks[t].pc.deadline && CanMove(s, s.tasks[t].pc.refresh))
  {
    Refreshes.SlotAt(s, t);
    var r := s.tasks[t].pc.refresh;
    hide Flights.FlightInv, Refreshes.SlotInv, Recv;
    if RefreshDone(s, r) {
      assert Own(AwaitRefresh(t), t) && Enabled(s, AwaitRefresh(t));
    } else if s.now >= s.tasks[t].pc.deadline {
      assert Own(Timer(t), t) && Enabled(s, Timer(t));
    } else {
      WorkerMoves(s, r);
    }
  }

  /** The task somebody waits for. */
  function Awaited(pc: Pc, t: TaskId): TaskId {
    if pc.Following? then pc.leader else if pc.StaleWait? then pc.refresh else t
  }

  /** The task waits, for good, on a flight whose leader is gone. */
  ghost predicate Stranded(s: State, t: TaskId)
    requires t in s.tasks
  {
    var k := s.tasks[t];
    k.pc.Following? && k.key.Some? && Flights.Abandoned(s, k.key.value, k.pc.leader)
  }

  /** In every run: a task that is not over can take a step, or the task it waits for can,
      unless it follows a flight whose leader is gone, and then neither can. */
  lemma OnlyTheStrandedAreStuck(cfg: Config, states: seq<State>, steps: seq<Step>, i: nat, t: TaskId)
    requires Run(cfg, states, steps) && i < |states| && t in states[i].tasks && !Over(states[i].tasks[t].pc)
    ensures var s := states[i];
      CanMove(s, t) || CanMove(s, Awaited(s.tasks[t].pc, t)) <==> !Stranded(s, t)
  {
    Flights.RunFlights(cfg, states, steps, i);
    Refreshes.RunSlots(cfg, states, steps, i);
    var s := states[i];
    hide Run, Flights.FlightInv, Refreshes.SlotInv, CanMove, Flights.Abandoned;
    if s.tasks[t].pc.Following? {
      FollowerMoves(s, t);
      GoneCannotMove(s, s.tasks[t].pc.leader);
    } else if s.tasks[t].pc.StaleWait? {
      WaiterMoves(s, t);
    } else if Working(s.tasks[t].pc) {
      WorkerMoves(s, t);
    } else {
      ClientMoves(s, t);
    }
  }

  lemma GoneCannotMove(s: State, f: TaskId)
    ensures forall q :: Flights.Abandoned(s, q, f) ==> !CanMove(s, f)
  {
    hide Recv;
  }
}
