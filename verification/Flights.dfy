/** Coalescing of concurrent misses: at most one open flight per question, a channel that
    never lags or closes under a follower, and followers that get their leader's value. */
module Flights {
  import opened Text
  import opened Dns
  import opened Cache
  import opened Pool

  // ---------------------------------------------------------------- invariant

  /** The open flight of a question is a leader, live or dropped, that has sent nothing. */
  ghost predicate FlightOf(s: State, q: Question)
    requires q in s.flights
  {
    var f := s.flights[q];
    && f in s.tasks && s.tasks[f].key == Some(q) && s.tasks[f].via == f
    && f in s.sent && s.sent[f] == []
    && (s.tasks[f].pc.Leading? || s.tasks[f].pc.Dropped?)
  }

  /** Nothing sent yet and a sender alive, or exactly the leader's own answer sent. */
  ghost predicate Channel(s: State, f: TaskId, q: Question) {
    && f in s.sent && f in s.tasks && s.tasks[f].key == Some(q) && s.tasks[f].via == f
    && (s.sent[f] == [] ==> s.tasks[f].pc.Closing? || (q in s.flights && s.flights[q] == f))
    && (s.sent[f] != [] ==>
      s.tasks[f].pc.Replied? && s.tasks[f].pc.status == Miss && s.sent[f] == [s.tasks[f].pc.reply])
  }

  ghost predicate FlightTask(s: State, t: TaskId)
    requires t in s.tasks
  {
    var k := s.tasks[t];
    match k.pc
    case Leading(_) => k.key.Some? && k.via == t && k.key.value in s.flights && s.flights[k.key.value] == t
    case Closing(_) => k.key.Some? && k.via == t && t in s.sent && s.sent[t] == []
    case Following(f, next) => k.key.Some? && next == 0 && k.via == f && f != t && Channel(s, f, k.key.value)
    case Solo(w) => k.key.None? && k.via == t && (w.Asking? || w.Returned?)
    case Joining => k.key.Some? && k.via == t && t !in s.sent
    case Arrived => k.via == t && t !in s.sent
    case Replied(v, status, _) => status == Miss ==> FlightReply(s, t, v)
    case _ => true
  }

  /** An answer to a miss is the value of the flight the client led or joined. */
  ghost predicate FlightReply(s: State, t: TaskId, v: Option<Response>)
    requires t in s.tasks
  {
    var k := s.tasks[t];
    && k.key.Some? && Channel(s, k.via, k.key.value)
    && s.sent[k.via] == [v]
  }

  ghost predicate FlightInv(s: State) {
    && (forall q :: q in s.flights ==> FlightOf(s, q))
    && (forall t :: t in s.tasks ==> FlightTask(s, t))
    && (forall t :: t in s.sent ==> t in s.tasks)
  }

  lemma FlightAt(s: State, t: TaskId)
    requires FlightInv(s) && t in s.tasks
    ensures FlightTask(s, t)
  {
  }

  // ---------------------------------------------------------------- steps

  /** Steps that leave the channels alone keep the invariant if the task that moved does. */
  lemma Frame(s: State, s': State, t: TaskId)
    requires FlightInv(s) && Moved(s, s', t) && ChannelsKept(s, s')
    requires s.tasks[t].pc.Leading? ==> s'.tasks[t].via == t && (s'.tasks[t].pc.Leading? || s'.tasks[t].pc.Dropped?)
    requires !s.tasks[t].pc.Closing? && !s.tasks[t].pc.Replied? && !s.tasks[t].pc.Dropped?
    requires FlightTask(s', t)
    ensures FlightInv(s')
  {
    forall q | q in s'.flights ensures FlightOf(s', q) { assert FlightOf(s, q); }
    forall u | u in s.tasks && u != t ensures FlightTask(s', u) {
      assert FlightTask(s, u) && FlightTask(s, t);
      assert forall q :: q in s.flights ==> FlightOf(s, q);
    }
  }

  /** A follower joins an open flight, which has sent nothing. */
  lemma FollowerJoins(s: State, t: TaskId)
    requires FlightInv(s) && Enabled(s, Join(t)) && s.tasks[t].key.value in s.flights
    ensures FlightInv(AfterJoin(s, t))
  {
    hide AfterJoin;
    JoinEffect(s, t);
    var f := s.flights[s.tasks[t].key.value];
    FlightAt(s, t);
    FlightAt(s, f);
    assert FlightOf(s, s.tasks[t].key.value);
    hide FlightInv;
    Frame(s, AfterJoin(s, t), t);
  }

  /** A leader opens one: a new flight and an empty channel, which touch no other task. */
  lemma OpenedFrame(s: State, s': State, t: TaskId, q: Question, u: TaskId)
    requires u in s.tasks && u != t && FlightTask(s, u) && Moved(s, s', t)
    requires q !in s.flights && t !in s.sent && s.tasks[t].pc.Joining?
    requires s'.flights == s.flights[q := t] && s'.sent == s.sent[t := []]
    ensures FlightTask(s', u)
  {
  }

  lemma LeaderJoins(s: State, t: TaskId)
    requires FlightInv(s) && Enabled(s, Join(t)) && s.tasks[t].key.value !in s.flights
    ensures FlightInv(AfterJoin(s, t))
  {
    hide AfterJoin, StoresKept, Channel, FlightReply;
    JoinEffect(s, t);
    FlightAt(s, t);
    var s', q := AfterJoin(s, t), s.tasks[t].key.value;
    forall p | p in s'.flights ensures FlightOf(s', p) {
      assert p != q ==> FlightOf(s, p);
    }
    hide FlightOf;
    assert FlightTask(s', t);
    forall u | u in s.tasks && u != t ensures FlightTask(s', u) {
      hide FlightTask, Moved;
      FlightAt(s, u);
      OpenedFrame(s, s', t, q, u);
    }
  }

  lemma JoinKeeps(s: State, t: TaskId)
    requires FlightInv(s) && Enabled(s, Join(t))
    ensures FlightInv(AfterJoin(s, t))
  {
    hide FlightInv, AfterJoin;
    if s.tasks[t].key.value in s.flights {
      FollowerJoins(s, t);
    } else {
      LeaderJoins(s, t);
    }
  }

  lemma SettleKeeps(s: State, t: TaskId)
    requires FlightInv(s) && Enabled(s, Settle(t))
    ensures FlightInv(AfterSettle(s, t))
  {
    hide AfterSettle;
    SettleEffect(s, t);
    FlightAt(s, t);
    var s' := AfterSettle(s, t);
    if s.tasks[t].pc.Leading? {
      var q := s.tasks[t].key.value;
      forall p | p in s'.flights ensures FlightOf(s', p) { assert FlightOf(s, p) && FlightOf(s, q); }
      forall u | u in s.tasks && u != t ensures FlightTask(s', u) {
        FlightAt(s, u);
        assert FlightOf(s, q);
        hide FlightInv;
        ClosedFrame(s, s', t, u);
      }
    } else {
      hide FlightInv, Moved;
      Frame(s, s', t);
    }
  }

  /** A leader takes its flight away, its channel still open: no other task is touched. */
  lemma ClosedFrame(s: State, s': State, t: TaskId, u: TaskId)
    requires u in s.tasks && t in s.tasks && u != t && FlightTask(s, u) && FlightTask(s, t) && Moved(s, s', t)
    requires s.tasks[t].pc.Leading? && t in s.sent && s.sent[t] == [] && s'.tasks[t].via == t && s'.tasks[t].pc.Closing?
    requires s'.flights == EndFlight(s.flights, s.tasks[t].key.value) && s'.sent == s.sent
    ensures FlightTask(s', u)
  {
  }

  lemma PublishKeeps(s: State, t: TaskId)
    requires FlightInv(s) && t in s.tasks && s.tasks[t].pc.Closing?
    ensures FlightInv(AfterPublish(s, t))
  {
    var s' := AfterPublish(s, t);
    assert FlightTask(s, t);
    forall p | p in s'.flights ensures FlightOf(s', p) { assert FlightOf(s, p); }
    forall u | u in s.tasks && u != t ensures FlightTask(s', u) {
      assert FlightTask(s, u);
    }
  }

  /** A follower in its turn is delivered its leader's one message. */
  lemma Delivered(s: State, t: TaskId)
    requires FlightInv(s) && t in s.tasks && s.tasks[t].pc.Following?
    ensures var f := s.tasks[t].pc.leader;
      && f in s.sent
      && Recv(s, f, s.tasks[t].pc.next) == (if s.sent[f] == [] then Pending else Message(s.sent[f][0]))
  {
    assert FlightTask(s, t);
    var f := s.tasks[t].pc.leader;
    assert s.sent[f] != [] ==> |s.sent[f]| == 1;
    assert s.sent[f] == [] ==> SenderAlive(s, f);
  }

  lemma ReceiveKeeps(s: State, t: TaskId)
    requires FlightInv(s) && Enabled(s, Receive(t))
    ensures FlightInv(AfterReceive(s, t))
  {
    Delivered(s, t);
    assert FlightTask(s, t);
    hide Recv;
    Frame(s, AfterReceive(s, t), t);
  }

  lemma Untouched(s: State, s': State)
    requires FlightInv(s) && ChannelsKept(s, s') && s'.tasks == s.tasks
    ensures FlightInv(s')
  {
    forall q | q in s'.flights ensures FlightOf(s', q) { assert FlightOf(s, q); }
    forall u | u in s.tasks ensures FlightTask(s', u) { assert FlightTask(s, u); }
  }

  lemma ArrivalKeeps(s: State, t: TaskId, k: Task)
    requires FlightInv(s) && t !in s.tasks && k.pc.Arrived? && k.via == t
    ensures FlightInv(Put(s, t, k))
  {
    var s' := Put(s, t, k);
    forall q | q in s'.flights ensures FlightOf(s', q) { assert FlightOf(s, q); }
    forall u | u in s.tasks ensures FlightTask(s', u) { assert FlightTask(s, u); }
  }

  lemma LookupKeeps(cfg: Config, s: State, t: TaskId)
    requires FlightInv(s) && Enabled(s, Lookup(t))
    ensures FlightInv(AfterLookup(cfg, s, t))
  {
    assert FlightTask(s, t);
    hide AfterLookup, FreshAnswer, StaleAnswer;
    LookupEffect(cfg, s, t);
    Frame(s, AfterLookup(cfg, s, t), t);
  }

  lemma PrefetchKeeps(s: State, t: TaskId, r: TaskId)
    requires FlightInv(s) && Enabled(s, ClaimPrefetch(t, r))
    ensures FlightInv(AfterClaimPrefetch(s, t, r))
  {
    hide AfterClaimPrefetch;
    PrefetchEffect(s, t, r);
    Frame(s, AfterClaimPrefetch(s, t, r), t);
  }

  lemma StaleClaimKeeps(s: State, t: TaskId, r: TaskId)
    requires FlightInv(s) && Enabled(s, ClaimStale(t, r))
    ensures FlightInv(AfterClaimStale(s, t, r))
  {
    hide AfterClaimStale;
    StaleClaimEffect(s, t, r);
    Frame(s, AfterClaimStale(s, t, r), t);
  }

  lemma WorkKeeps(cfg: Config, s: State, a: Step)
    requires FlightInv(s) && Enabled(s, a) && (a.UpstreamReply? || a.Stamp? || a.Write?)
    ensures FlightInv(Apply(cfg, s, a))
  {
    hide FlightInv, Moved, Kept, AfterReply, AfterWrite, SetPc;
    FlightAt(s, a.t);
    OffChannels(cfg, s, a);
    if a.UpstreamReply? {
      ReplyEffect(s, a.t, a.reply);
    } else if a.Write? {
      WriteEffect(s, a.t);
    } else {
      PcEffect(s, a.t, WithWork(s.tasks[a.t].pc, Stamped(s.tasks[a.t].pc.work.resp, s.now)));
    }
    hide StoresKept;
    Frame(s, Apply(cfg, s, a), a.t);
  }

  lemma RefreshSideKeeps(cfg: Config, s: State, a: Step)
    requires FlightInv(s) && Enabled(s, a) && (a.Finish? || a.AwaitRefresh? || a.Timer? || a.Drop?)
    ensures FlightInv(Apply(cfg, s, a))
  {
    hide FlightInv, Moved, AfterAwaitRefresh, ServeStale, SetPc, Recv;
    FlightAt(s, a.t);
    OffChannels(cfg, s, a);
    if a.AwaitRefresh? {
      AwaitEffect(s, a.t);
    } else if a.Timer? {
      ServeStaleEffect(s, a.t, s.tasks[a.t].pc.stale);
    } else if a.Finish? {
      PcEffect(s, a.t, Finished(s.tasks[a.t].pc.value));
    } else {
      PcEffect(s, a.t, Dropped);
    }
    hide StoresKept;
    Frame(s, Apply(cfg, s, a), a.t);
  }

  lemma StepKeepsFlights(cfg: Config, s: State, a: Step)
    requires FlightInv(s) && Enabled(s, a)
    ensures FlightInv(Apply(cfg, s, a))
  {
    hide FlightInv, Recv, AfterLookup, AfterClaimPrefetch, AfterClaimStale, AfterJoin, AfterReply, AfterWrite,
      AfterSettle, AfterPublish, AfterReceive, AfterAwaitRefresh;
    match a
    case Join(t) => JoinKeeps(s, t);
    case Settle(t) => SettleKeeps(s, t);
    case Publish(t) => PublishKeeps(s, t);
    case Receive(t) => ReceiveKeeps(s, t);
    case Lookup(t) => LookupKeeps(cfg, s, t);
    case ClaimPrefetch(t, r) => PrefetchKeeps(s, t, r);
    case ClaimStale(t, r) => StaleClaimKeeps(s, t, r);
    case UpstreamReply(_, _) => WorkKeeps(cfg, s, a);
    case Stamp(_) => WorkKeeps(cfg, s, a);
    case Write(_) => WorkKeeps(cfg, s, a);
    case Finish(_) => RefreshSideKeeps(cfg, s, a);
    case AwaitRefresh(_) => RefreshSideKeeps(cfg, s, a);
    case Timer(_) => RefreshSideKeeps(cfg, s, a);
    case Drop(_) => RefreshSideKeeps(cfg, s, a);
    case Arrive(t, query) => ArrivalKeeps(s, t, Apply(cfg, s, a).tasks[t]);
    case Tick(_) => Untouched(s, Apply(cfg, s, a));
    case Evict(_) => Untouched(s, Apply(cfg, s, a));
  }

  // ---------------------------------------------------------------- runs

  lemma {:induction false} RunFlights(cfg: Config, states: seq<State>, steps: seq<Step>, i: nat)
    requires Run(cfg, states, steps) && i < |states|
    ensures FlightInv(states[i])
  {
    if i > 0 {
      RunFlights(cfg, states, steps, i - 1);
      hide FlightInv, Apply, Enabled;
      StepKeepsFlights(cfg, states[i - 1], steps[i - 1]);
      assert states[i - 1 + 1] == states[i];
    }
  }

  /** In every run: a question has at most one open flight. Whoever leads one is the task
      the map holds for it. */
  lemma OneFlightPerQuestion(cfg: Config, states: seq<State>, steps: seq<Step>, i: nat, t: TaskId, u: TaskId)
    requires Run(cfg, states, steps) && i < |states|
    requires t in states[i].tasks && states[i].tasks[t].pc.Leading?
    requires u in states[i].tasks && states[i].tasks[u].pc.Leading?
    requires states[i].tasks[t].key == states[i].tasks[u].key
    ensures t == u
  {
    RunFlights(cfg, states, steps, i);
    assert FlightTask(states[i], t) && FlightTask(states[i], u);
  }

  /** In every run: the channel a follower waits on never lags and never closes, so the
      branch that resolves on its own is dead; as soon as its leader has answered, the
      follower can receive, and what it receives is the leader's own answer. */
  lemma FollowerGetsLeadersAnswer(cfg: Config, states: seq<State>, steps: seq<Step>, i: nat, t: TaskId)
    requires Run(cfg, states, steps) && i < |states|
    requires t in states[i].tasks && states[i].tasks[t].pc.Following?
    ensures var s := states[i]; var f := s.tasks[t].pc.leader; var r := Recv(s, f, s.tasks[t].pc.next);
      && f in s.tasks && f != t && s.tasks[f].key == s.tasks[t].key && !r.RecvError?
      && (r.Message? <==> s.tasks[f].pc.Replied?)
      && (r.Message? ==> r.value == s.tasks[f].pc.reply && s.tasks[f].pc.status == Miss)
  {
    RunFlights(cfg, states, steps, i);
    var s := states[i];
    Delivered(s, t);
    assert FlightTask(s, t);
    var f := s.tasks[t].pc.leader;
    assert FlightTask(s, f);
    var q := s.tasks[t].key.value;
    assert q in s.flights ==> FlightOf(s, q);
  }

  /** In every run: every client answered from a miss, and the task whose resolution it
      names, answered the same value to the same question. */
  lemma CoalescedAnswersAgree(cfg: Config, states: seq<State>, steps: seq<Step>, i: nat, t: TaskId)
    requires Run(cfg, states, steps) && i < |states| && t in states[i].tasks
    requires var pc := states[i].tasks[t].pc; pc.Replied? && pc.status == Miss
    ensures var s := states[i]; var f := s.tasks[t].via;
      && f in s.tasks && s.tasks[f].key == s.tasks[t].key
      && s.tasks[f].pc.Replied? && s.tasks[f].pc.reply == s.tasks[t].pc.reply && s.tasks[f].pc.status == Miss
  {
    RunFlights(cfg, states, steps, i);
    assert FlightTask(states[i], t);
  }

  // ---------------------------------------------------------------- a leader that dies

  /** The flight of `q` is held by a client that is gone. */
  ghost predicate Abandoned(s: State, q: Question, f: TaskId) {
    q in s.flights && s.flights[q] == f && f in s.tasks && s.tasks[f].pc.Dropped?
  }

  lemma AbandonedMoved(s: State, s': State, t: TaskId, q: Question, f: TaskId)
    requires Abandoned(s, q, f) && Moved(s, s', t) && ChannelsKept(s, s') && !s.tasks[t].pc.Dropped?
    ensures Abandoned(s', q, f)
  {
  }

  lemma AbandonedJoin(s: State, t: TaskId, q: Question, f: TaskId)
    requires Enabled(s, Join(t)) && Abandoned(s, q, f)
    ensures Abandoned(AfterJoin(s, t), q, f)
  {
    hide AfterJoin, StoresKept;
    JoinEffect(s, t);
  }

  lemma AbandonedSettle(s: State, t: TaskId, q: Question, f: TaskId)
    requires FlightInv(s) && Enabled(s, Settle(t)) && Abandoned(s, q, f)
    ensures Abandoned(AfterSettle(s, t), q, f)
  {
    FlightAt(s, t);
    hide AfterSettle, FlightInv, FlightOf, Channel, FlightReply;
    SettleEffect(s, t);
  }

  lemma AbandonedPublish(s: State, t: TaskId, q: Question, f: TaskId)
    requires Enabled(s, Publish(t)) && Abandoned(s, q, f)
    ensures Abandoned(AfterPublish(s, t), q, f)
  {
    hide AfterPublish, StoresKept;
    PublishEffect(s, t);
  }

  lemma AbandonedChannelStep(cfg: Config, s: State, a: Step, q: Question, f: TaskId)
    requires FlightInv(s) && Enabled(s, a) && Abandoned(s, q, f) && OnChannels(a)
    ensures Abandoned(Apply(cfg, s, a), q, f)
  {
    hide AfterJoin, AfterSettle, AfterPublish, FlightInv, Abandoned;
    match a
    case Join(t) => AbandonedJoin(s, t, q, f);
    case Settle(t) => AbandonedSettle(s, t, q, f);
    case Publish(t) => AbandonedPublish(s, t, q, f);
  }

  lemma AbandonedAmbient(cfg: Config, s: State, a: Step, q: Question, f: TaskId)
    requires Enabled(s, a) && Abandoned(s, q, f) && (a.Tick? || a.Evict? || a.Arrive?)
    ensures Abandoned(Apply(cfg, s, a), q, f)
  {
  }

  lemma AbandonedStep(cfg: Config, s: State, a: Step, q: Question, f: TaskId)
    requires FlightInv(s) && Enabled(s, a) && Abandoned(s, q, f)
    ensures Abandoned(Apply(cfg, s, a), q, f)
  {
    hide Apply, Enabled, FlightInv, Abandoned, Moved, ChannelsKept;
    if OnChannels(a) {
      AbandonedChannelStep(cfg, s, a, q, f);
    } else if a.Tick? || a.Evict? || a.Arrive? {
      AbandonedAmbient(cfg, s, a, q, f);
    } else {
      OffChannels(cfg, s, a);
      AbandonedMoved(s, Apply(cfg, s, a), a.t, q, f);
    }
  }

  /** The map's own sender keeps the channel of a dropped leader open: from then on, in
      every run, the flight stays where it is, every client that waits on it can only be
      dropped itself, and every later miss on the question joins it. */
  lemma {:induction false} AbandonedFlightIsForever(cfg: Config, states: seq<State>, steps: seq<Step>, i: nat, j: nat, q: Question, f: TaskId)
    requires Run(cfg, states, steps) && i <= j < |states| && Abandoned(states[i], q, f)
    ensures Abandoned(states[j], q, f)
    ensures forall t :: t in states[j].tasks && states[j].tasks[t].pc.Following? && states[j].tasks[t].pc.leader == f ==> !Enabled(states[j], Receive(t))
    ensures forall t :: t in states[j].tasks && Enabled(states[j], Join(t)) && states[j].tasks[t].key == Some(q) ==> Apply(cfg, states[j], Join(t)).tasks[t].pc.Following?
  {
    hide Recv, Apply, Enabled, Abandoned;
    if i < j {
      AbandonedFlightIsForever(cfg, states, steps, i, j - 1, q, f);
      RunFlights(cfg, states, steps, j - 1);
      AbandonedStep(cfg, states[j - 1], steps[j - 1], q, f);
      assert states[j - 1 + 1] == states[j];
    }
    RunFlights(cfg, states, steps, j);
    AbandonedDeafens(cfg, states[j], q, f);
  }

  lemma AbandonedDeafens(cfg: Config, s: State, q: Question, f: TaskId)
    requires FlightInv(s) && Abandoned(s, q, f)
    ensures forall t :: t in s.tasks && s.tasks[t].pc.Following? && s.tasks[t].pc.leader == f ==> !Enabled(s, Receive(t))
    ensures forall t :: t in s.tasks && Enabled(s, Join(t)) && s.tasks[t].key == Some(q) ==> Apply(cfg, s, Join(t)).tasks[t].pc.Following?
  {
    assert FlightOf(s, q);
    forall t | t in s.tasks && s.tasks[t].pc.Following? && s.tasks[t].pc.leader == f ensures !Enabled(s, Receive(t)) {
      Delivered(s, t);
    }
  }
}
