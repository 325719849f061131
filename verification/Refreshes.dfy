/** Background refreshes: a slot is held exactly by one live refresh, is freed only after
    that refresh's cache write, and bounds the upstream work on a question. */
module Refreshes {
  import opened Text
  import opened Dns
  import opened Cache
  import opened Pool
  import Flights

  // ---------------------------------------------------------------- invariant

  predicate RefreshPc(pc: Pc) { pc.Refreshing? || pc.Freed? || pc.Finished? }

  ghost predicate SlotOf(s: State, q: Question)
    requires q in s.owner
  {
    s.owner[q] in s.tasks && s.tasks[s.owner[q]].key == Some(q) && s.tasks[s.owner[q]].pc.Refreshing?
  }

  ghost predicate SlotTask(s: State, t: TaskId)
    requires t in s.tasks
  {
    var k := s.tasks[t];
    && (k.pc.HitClaim? || k.pc.StaleClaim? || k.pc.StaleWait? || RefreshPc(k.pc) ==> k.key.Some?)
    && (k.pc.Refreshing? ==> k.key.value in s.owner && s.owner[k.key.value] == t)
    && (k.pc.StaleWait? ==> Awaits(s, k, k.pc.refresh))
  }

  ghost predicate Awaits(s: State, k: Task, r: TaskId) {
    r in s.tasks && s.tasks[r].key == k.key && RefreshPc(s.tasks[r].pc) && k.via == r
  }

  ghost predicate SlotInv(s: State) {
    && s.inFlight == s.owner.Keys
    && (forall q :: q in s.owner ==> SlotOf(s, q))
    && (forall t :: t in s.tasks ==> SlotTask(s, t))
  }

  lemma SlotAt(s: State, t: TaskId)
    requires SlotInv(s) && t in s.tasks
    ensures SlotTask(s, t)
  {
  }

  // ---------------------------------------------------------------- steps

  ghost predicate SlotsKept(s: State, s': State) {
    s'.inFlight == s.inFlight && s'.owner == s.owner && s'.tasks.Keys == s.tasks.Keys
  }

  /** A step that leaves the slots alone keeps the invariant if the task that moved does. */
  lemma Frame(s: State, s': State, t: TaskId)
    requires SlotInv(s) && Moved(s, s', t) && SlotsKept(s, s')
    requires s.tasks[t].pc.Refreshing? ==> s'.tasks[t].pc.Refreshing?
    requires RefreshPc(s.tasks[t].pc) ==> RefreshPc(s'.tasks[t].pc)
    requires SlotTask(s', t)
    ensures SlotInv(s')
  {
    forall q | q in s'.owner ensures SlotOf(s', q) { assert SlotOf(s, q); }
    forall u | u in s'.tasks && u != t ensures SlotTask(s', u) { assert SlotTask(s, u); }
  }

  /** A claim of a free slot: the new refresh owns it. */
  lemma ClaimKeeps(s: State, s': State, t: TaskId, r: TaskId)
    requires SlotInv(s) && Moved(s, s', t) && s.tasks[t].key.Some? && s.tasks[t].key.value !in s.inFlight && r !in s.tasks
    requires Claimed(s, s', s.tasks[t], r)
    requires s.tasks[t].pc.HitClaim? || s.tasks[t].pc.StaleClaim?
    requires s'.tasks[t].pc.Replied? || (s'.tasks[t].pc.StaleWait? && s'.tasks[t].pc.refresh == r && s'.tasks[t].via == r)
    ensures SlotInv(s')
  {
    forall q | q in s'.owner ensures SlotOf(s', q) { assert q in s.owner ==> SlotOf(s, q); }
    forall u | u in s'.tasks && u != t ensures SlotTask(s', u) {
      assert u in s.tasks ==> SlotTask(s, u);
    }
  }

  lemma PrefetchKeeps(s: State, t: TaskId, r: TaskId)
    requires SlotInv(s) && Enabled(s, ClaimPrefetch(t, r))
    ensures SlotInv(AfterClaimPrefetch(s, t, r))
  {
    var s' := AfterClaimPrefetch(s, t, r);
    hide AfterClaimPrefetch;
    PrefetchEffect(s, t, r);
    if s.tasks[t].key.value in s.inFlight {
      Frame(s, s', t);
    } else {
      hide Moved, Claimed, SlotInv;
      ClaimKeeps(s, s', t, r);
    }
  }

  lemma StaleClaimKeeps(s: State, t: TaskId, r: TaskId)
    requires SlotInv(s) && Enabled(s, ClaimStale(t, r))
    ensures SlotInv(AfterClaimStale(s, t, r))
  {
    var s' := AfterClaimStale(s, t, r);
    hide AfterClaimStale;
    StaleClaimEffect(s, t, r);
    if s.tasks[t].key.value in s.inFlight {
      Frame(s, s', t);
    } else {
      hide Moved, Claimed, SlotInv;
      ClaimKeeps(s, s', t, r);
    }
  }

  lemma LookupKeeps(cfg: Config, s: State, t: TaskId)
    requires SlotInv(s) && Enabled(s, Lookup(t))
    ensures SlotInv(AfterLookup(cfg, s, t))
  {
    hide AfterLookup, FreshAnswer, StaleAnswer;
    LookupEffect(cfg, s, t);
    Frame(s, AfterLookup(cfg, s, t), t);
  }

  lemma SettleKeeps(s: State, t: TaskId)
    requires SlotInv(s) && Enabled(s, Settle(t))
    ensures SlotInv(AfterSettle(s, t))
  {
    SlotAt(s, t);
    SettleEffect(s, t);
    var s' := AfterSettle(s, t);
    if s.tasks[t].pc.Refreshing? {
      var q := s.tasks[t].key.value;
      assert s'.owner == s.owner - {q} && s'.inFlight == s.inFlight - {q};
      hide AfterSettle;
      forall p | p in s'.owner ensures SlotOf(s', p) { assert SlotOf(s, p); }
      forall u | u in s'.tasks && u != t ensures SlotTask(s', u) { assert SlotTask(s, u); }
    } else {
      assert SlotsKept(s, s');
      hide AfterSettle, SlotInv, Moved;
      Frame(s, s', t);
    }
  }

  /** A change of place alone. */
  lemma PcKeeps(s: State, t: TaskId, pc: Pc)
    requires SlotInv(s) && t in s.tasks
    requires s.tasks[t].pc.Refreshing? <==> pc.Refreshing?
    requires RefreshPc(s.tasks[t].pc) <==> RefreshPc(pc)
    requires !pc.HitClaim? && !pc.StaleClaim? && !pc.StaleWait?
    ensures SlotInv(SetPc(s, t, pc))
  {
    SlotAt(s, t);
    PcEffect(s, t, pc);
    hide SlotInv;
    Frame(s, SetPc(s, t, pc), t);
  }

  lemma PlainKeeps(cfg: Config, s: State, a: Step)
    requires SlotInv(s) && Enabled(s, a) && (a.Stamp? || a.Finish? || a.Drop?)
    ensures SlotInv(Apply(cfg, s, a))
  {
    hide SlotInv, Recv, SetPc;
    if a.Stamp? {
      PcKeeps(s, a.t, WithWork(s.tasks[a.t].pc, Stamped(s.tasks[a.t].pc.work.resp, s.now)));
    } else if a.Finish? {
      PcKeeps(s, a.t, Finished(s.tasks[a.t].pc.value));
    } else {
      PcKeeps(s, a.t, Dropped);
    }
  }

  lemma WorkKeeps(cfg: Config, s: State, a: Step)
    requires SlotInv(s) && Enabled(s, a) && (a.UpstreamReply? || a.Write?)
    ensures SlotInv(Apply(cfg, s, a))
  {
    SlotAt(s, a.t);
    var s' := Apply(cfg, s, a);
    hide SlotInv, AfterReply, AfterWrite;
    if a.UpstreamReply? {
      ReplyEffect(s, a.t, a.reply);
    } else {
      WriteEffect(s, a.t);
    }
    Frame(s, s', a.t);
  }

  lemma PublishKeeps(s: State, t: TaskId)
    requires SlotInv(s) && Enabled(s, Publish(t))
    ensures SlotInv(AfterPublish(s, t))
  {
    Frame(s, AfterPublish(s, t), t);
  }

  lemma WaitKeeps(cfg: Config, s: State, a: Step)
    requires SlotInv(s) && Enabled(s, a) && (a.Receive? || a.AwaitRefresh? || a.Timer?)
    ensures SlotInv(Apply(cfg, s, a))
  {
    var s' := Apply(cfg, s, a);
    hide Recv, AfterReceive, AfterAwaitRefresh, ServeStale;
    if a.Receive? {
      ReceiveEffect(s, a.t);
    } else if a.AwaitRefresh? {
      AwaitEffect(s, a.t);
    } else {
      ServeStaleEffect(s, a.t, s.tasks[a.t].pc.stale);
    }
    Frame(s, s', a.t);
  }

  lemma JoinKeeps(s: State, t: TaskId)
    requires SlotInv(s) && Enabled(s, Join(t))
    ensures SlotInv(AfterJoin(s, t))
  {
    hide AfterJoin, SlotInv, Moved, ChannelsKept, Messages;
    JoinEffect(s, t);
    Frame(s, AfterJoin(s, t), t);
  }

  lemma Untouched(s: State, s': State)
    requires SlotInv(s) && s'.inFlight == s.inFlight && s'.owner == s.owner && s'.tasks == s.tasks
    ensures SlotInv(s')
  {
    forall q | q in s'.owner ensures SlotOf(s', q) { assert SlotOf(s, q); }
    forall u | u in s.tasks ensures SlotTask(s', u) { assert SlotTask(s, u); }
  }

  lemma ArrivalKeeps(s: State, t: TaskId, k: Task)
    requires SlotInv(s) && t !in s.tasks && k.pc.Arrived?
    ensures SlotInv(Put(s, t, k))
  {
    var s' := Put(s, t, k);
    forall q | q in s'.owner ensures SlotOf(s', q) { assert SlotOf(s, q); }
    forall u | u in s.tasks ensures SlotTask(s', u) { assert SlotTask(s, u); }
  }

  lemma StepKeepsSlots(cfg: Config, s: State, a: Step)
    requires SlotInv(s) && Enabled(s, a)
    ensures SlotInv(Apply(cfg, s, a))
  {
    hide SlotInv, Recv, AfterLookup, AfterClaimPrefetch, AfterClaimStale, AfterJoin, AfterReply, AfterWrite,
      AfterSettle, AfterPublish, AfterReceive, AfterAwaitRefresh;
    match a
    case Settle(t) => SettleKeeps(s, t);
    case Lookup(t) => LookupKeeps(cfg, s, t);
    case ClaimPrefetch(t, r) => PrefetchKeeps(s, t, r);
    case ClaimStale(t, r) => StaleClaimKeeps(s, t, r);
    case Arrive(t, _) => ArrivalKeeps(s, t, Apply(cfg, s, a).tasks[t]);
    case Tick(_) => Untouched(s, Apply(cfg, s, a));
    case Evict(_) => Untouched(s, Apply(cfg, s, a));
    case Join(t) => JoinKeeps(s, t);
    case Receive(_) => WaitKeeps(cfg, s, a);
    case AwaitRefresh(_) => WaitKeeps(cfg, s, a);
    case Timer(_) => WaitKeeps(cfg, s, a);
    case UpstreamReply(_, _) => WorkKeeps(cfg, s, a);
    case Stamp(_) => PlainKeeps(cfg, s, a);
    case Write(_) => WorkKeeps(cfg, s, a);
    case Publish(t) => PublishKeeps(s, t);
    case Finish(_) => PlainKeeps(cfg, s, a);
    case Drop(_) => PlainKeeps(cfg, s, a);
  }

  // ---------------------------------------------------------------- runs

  lemma {:induction false} RunSlots(cfg: Config, states: seq<State>, steps: seq<Step>, i: nat)
    requires Run(cfg, states, steps) && i < |states|
    ensures SlotInv(states[i])
  {
    if i > 0 {
      RunSlots(cfg, states, steps, i - 1);
      hide SlotInv, Apply, Enabled;
      StepKeepsSlots(cfg, states[i - 1], steps[i - 1]);
      assert states[i - 1 + 1] == states[i];
    }
  }

  predicate RefreshOf(s: State, t: TaskId, q: Question) {
    t in s.tasks && s.tasks[t].pc.Refreshing? && s.tasks[t].key == Some(q)
  }

  /** In every run: a question is marked in flight exactly when a live refresh task works
      on it, and then only one does. */
  lemma SlotIsOneLiveRefresh(cfg: Config, states: seq<State>, steps: seq<Step>, i: nat, q: Question)
    requires Run(cfg, states, steps) && i < |states|
    ensures var s := states[i];
      && (q in s.inFlight <==> exists t :: RefreshOf(s, t, q))
      && (forall t, u :: RefreshOf(s, t, q) && RefreshOf(s, u, q) ==> t == u)
  {
    RunSlots(cfg, states, steps, i);
    var s := states[i];
    assert forall t :: t in s.tasks ==> SlotTask(s, t);
    assert q in s.owner ==> SlotOf(s, q) && RefreshOf(s, s.owner[q], q);
  }

  /** In every run: at most two upstream resolutions of a cacheable question are under way
      at once, its flight's and its refresh's. */
  lemma AtMostTwoUpstream(cfg: Config, states: seq<State>, steps: seq<Step>, i: nat, q: Question, t: TaskId, u: TaskId, w: TaskId)
    requires Run(cfg, states, steps) && i < |states|
    requires WorkingTask(states[i], t) && states[i].tasks[t].key == Some(q)
    requires WorkingTask(states[i], u) && states[i].tasks[u].key == Some(q)
    requires WorkingTask(states[i], w) && states[i].tasks[w].key == Some(q)
    ensures t == u || u == w || t == w
  {
    RunSlots(cfg, states, steps, i);
    Flights.RunFlights(cfg, states, steps, i);
    var s := states[i];
    assert forall x :: x in s.tasks ==> SlotTask(s, x) && Flights.FlightTask(s, x);
  }

  /** Only the owner's settling frees a slot, and its resolution is over by then. */
  lemma FreedByOwner(cfg: Config, states: seq<State>, steps: seq<Step>, i: nat, q: Question)
    requires Run(cfg, states, steps) && i < |steps| && q in states[i].inFlight && q !in states[i + 1].inFlight
    ensures var s := states[i];
      && q in s.owner && steps[i] == Settle(s.owner[q]) && s.owner[q] in s.tasks
      && s.tasks[s.owner[q]].pc.Refreshing? && s.tasks[s.owner[q]].pc.work.Returned?
  {
    RunSlots(cfg, states, steps, i);
    var s, a := states[i], steps[i];
    SlotsGrow(cfg, s, a, q);
    assert SlotOf(s, q);
    assert a.Settle? ==> SlotTask(s, a.t);
  }

  lemma SlotsGrow(cfg: Config, s: State, a: Step, q: Question)
    requires Enabled(s, a) && q in s.inFlight && q !in Apply(cfg, s, a).inFlight
    ensures a.Settle? && s.tasks[a.t].pc.Refreshing? && s.tasks[a.t].key == Some(q)
  {
    hide Recv, AfterLookup, AfterClaimPrefetch, AfterClaimStale, AfterReply, AfterWrite, AfterAwaitRefresh, AfterReceive,
      Moved, ChannelsKept, LookedUp;
    if a.ClaimPrefetch? {
      PrefetchEffect(s, a.t, a.r);
    } else if a.ClaimStale? {
      StaleClaimEffect(s, a.t, a.r);
    } else if a.Lookup? {
      LookupEffect(cfg, s, a.t);
    } else if a.UpstreamReply? {
      ReplyEffect(s, a.t, a.reply);
    } else if a.Write? {
      WriteEffect(s, a.t);
    } else if a.AwaitRefresh? {
      AwaitEffect(s, a.t);
    } else if a.Receive? {
      ReceiveEffect(s, a.t);
    }
  }

  /** A keyed resolution that got an answer has written it to the cache before it returns
      it: so a refresh that succeeded frees its slot only after its cache write. */
  lemma {:induction false} WrittenFirst(cfg: Config, states: seq<State>, steps: seq<Step>, i: nat, t: TaskId)
    requires Run(cfg, states, steps) && i < |states|
    requires WorkingTask(states[i], t) && states[i].tasks[t].key.Some?
    requires var w := states[i].tasks[t].pc.work; w.Returned? && w.reply.Some?
    ensures exists j :: 0 <= j < i && WroteAt(states[j], steps[j], t, states[i].tasks[t])
  {
    if i > 0 {
      var s, a := states[i - 1], steps[i - 1];
      assert states[i - 1 + 1] == states[i] && states[i] == Apply(cfg, s, a);
      ReturnedNow(cfg, s, a, t);
      if a != Write(t) {
        WrittenFirst(cfg, states, steps, i - 1, t);
      }
    }
  }

  ghost predicate WroteAt(s: State, a: Step, t: TaskId, k: Task) {
    && a == Write(t) && Enabled(s, a) && s.tasks[t].key == k.key && HasWork(k.pc) && k.pc.work.Returned?
    && k.pc.work.reply == Some(s.tasks[t].pc.work.resp)
  }

  lemma ReturnedNow(cfg: Config, s: State, a: Step, t: TaskId)
    requires Enabled(s, a) && WorkingTask(Apply(cfg, s, a), t) && Apply(cfg, s, a).tasks[t].key.Some?
    requires var w := Apply(cfg, s, a).tasks[t].pc.work; w.Returned? && w.reply.Some?
    ensures if a == Write(t) then WroteAt(s, a, t, Apply(cfg, s, a).tasks[t])
            else t in s.tasks && s.tasks[t] == Apply(cfg, s, a).tasks[t]
  {
    if a.Tick? || a.Evict? || a.Arrive? {
    } else {
      StepMoves(cfg, s, a);
      if t == a.t {
        ReturnedByWriting(cfg, s, a);
      }
      hide Apply;
    }
  }

  predicate GotAnswer(k: Task) {
    k.key.Some? && HasWork(k.pc) && k.pc.work.Returned? && k.pc.work.reply.Some?
  }

  lemma WaitsNotReturned(cfg: Config, s: State, a: Step)
    requires Enabled(s, a) && (a.Lookup? || a.Receive? || a.ClaimPrefetch? || a.ClaimStale? || a.AwaitRefresh?)
    ensures a.t in Apply(cfg, s, a).tasks && !GotAnswer(Apply(cfg, s, a).tasks[a.t])
  {
    hide ChannelsKept, StoresKept, FreshAnswer, StaleAnswer, Claimed;
    hide Recv, LookupOutcome, AfterLookup, AfterReceive, AfterClaimPrefetch, AfterClaimStale, AfterAwaitRefresh;
    if a.Lookup? {
      LookupEffect(cfg, s, a.t);
    } else if a.Receive? {
      ReceiveEffect(s, a.t);
    } else if a.ClaimPrefetch? {
      PrefetchEffect(s, a.t, a.r);
    } else if a.ClaimStale? {
      StaleClaimEffect(s, a.t, a.r);
    } else {
      AwaitEffect(s, a.t);
    }
  }

  lemma ReturnedByWriting(cfg: Config, s: State, a: Step)
    requires Enabled(s, a) && !a.Tick? && !a.Evict? && !a.Arrive?
    requires a.t in Apply(cfg, s, a).tasks && GotAnswer(Apply(cfg, s, a).tasks[a.t])
    ensures a.Write? && WroteAt(s, a, a.t, Apply(cfg, s, a).tasks[a.t])
  {
    hide Recv, AfterReply, AfterWrite, AfterSettle, AfterPublish, AfterJoin, ServeStale, StoresKept, Moved, ChannelsKept, SetPc;
    if a.Lookup? || a.Receive? || a.ClaimPrefetch? || a.ClaimStale? || a.AwaitRefresh? {
      hide Apply, Enabled, GotAnswer;
      WaitsNotReturned(cfg, s, a);
    } else if a.UpstreamReply? {
      ReplyEffect(s, a.t, a.reply);
    } else if a.Write? {
      WriteEffect(s, a.t);
    } else if a.Timer? {
      ServeStaleEffect(s, a.t, s.tasks[a.t].pc.stale);
    } else if a.Settle? {
      SettleEffect(s, a.t);
    } else if a.Publish? {
      PublishEffect(s, a.t);
    } else if a.Join? {
      JoinEffect(s, a.t);
    } else if a.Stamp? {
      PcEffect(s, a.t, WithWork(s.tasks[a.t].pc, Stamped(s.tasks[a.t].pc.work.resp, s.now)));
    } else if a.Finish? {
      PcEffect(s, a.t, Finished(s.tasks[a.t].pc.value));
    } else {
      PcEffect(s, a.t, Dropped);
    }
  }

  /** In every run: when a slot is freed, its refresh either found every upstream failing or
      has already offered its answer to the cache. */
  lemma FreedAfterItsWrite(cfg: Config, states: seq<State>, steps: seq<Step>, i: nat, q: Question)
    requires Run(cfg, states, steps) && i < |steps| && q in states[i].inFlight && q !in states[i + 1].inFlight
    ensures q in states[i].owner && WorkingTask(states[i], states[i].owner[q])
    ensures var t := states[i].owner[q]; var w := states[i].tasks[t].pc.work;
      && w.Returned?
      && (w.reply.Some? ==> exists j :: 0 <= j < i && WroteAt(states[j], steps[j], t, states[i].tasks[t]))
  {
    FreedByOwner(cfg, states, steps, i, q);
    RunSlots(cfg, states, steps, i);
    assert SlotOf(states[i], q);
    hide Run, WroteAt, SlotInv;
    if states[i].tasks[states[i].owner[q]].pc.work.reply.Some? {
      WrittenFirst(cfg, states, steps, i, states[i].owner[q]);
    }
  }

  // ---------------------------------------------------------------- stale answers

  /** A client holding a stale answer is never stuck: in every run, once its timer is due
      it can go on whatever upstream did, and whichever of its steps comes first answers it. */
  lemma StaleNeverStuck(cfg: Config, states: seq<State>, steps: seq<Step>, i: nat, t: TaskId)
    requires Run(cfg, states, steps) && i < |states| && t in states[i].tasks
    requires states[i].tasks[t].pc.StaleWait?
    ensures var s := states[i];
      && (s.now >= s.tasks[t].pc.deadline ==> Enabled(s, Timer(t)) || Enabled(s, AwaitRefresh(t)))
      && (forall a :: (a == Timer(t) || a == AwaitRefresh(t)) && Enabled(s, a) ==> AnsweredBy(cfg, s, a, t))
  {
    hide Run;
  }

  ghost predicate AnsweredBy(cfg: Config, s: State, a: Step, t: TaskId)
    requires Enabled(s, a)
  {
    var s' := Apply(cfg, s, a);
    t in s'.tasks && s'.tasks[t].pc.Replied? && s'.tasks[t].pc.status == StaleHit && s'.tasks[t].pc.reply.Some?
  }

  predicate WaitsUntil(s: State, t: TaskId, r: TaskId, deadline: nat) {
    t in s.tasks && s.tasks[t].pc.StaleWait? && s.tasks[t].pc.refresh == r && s.tasks[t].pc.deadline == deadline
  }

  /** And so is one that has yet to claim: with a fresh task number it either answers at
      once or waits on a live refresh of the same question under a timer. */
  lemma StaleClaimGoesOn(cfg: Config, states: seq<State>, steps: seq<Step>, i: nat, t: TaskId, r: TaskId)
    requires Run(cfg, states, steps) && i < |states| && t in states[i].tasks && r !in states[i].tasks
    requires states[i].tasks[t].pc.StaleClaim?
    ensures var s := states[i]; var a := ClaimStale(t, r);
      && Enabled(s, a)
      && (AnsweredBy(cfg, s, a, t)
        || (RefreshOf(Apply(cfg, s, a), r, s.tasks[t].key.value) && WaitsUntil(Apply(cfg, s, a), t, r, s.now + RESPONSE_TIMER)))
  {
    RunSlots(cfg, states, steps, i);
    var s := states[i];
    assert SlotTask(s, t);
    StaleClaimEffect(s, t, r);
    hide AfterClaimStale, Run;
  }
}
