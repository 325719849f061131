/** Where every reply of the pool comes from, and how old a stale one can be: invariants of
    all interleavings, upstream results, evictions, refreshes and followers. */
module Provenance {
  import opened Text
  import opened Dns
  import opened Cache
  import opened Decision
  import opened Pool
  import Flights
  import Refreshes

  // ---------------------------------------------------------------- invariant

  /** The entry is what some upstream response to this very question is stored as. */
  ghost predicate Derived(log: set<LogEntry>, q: Question, e: Entry) {
    exists t, resp :: Source(log, q, e, t, resp)
  }

  predicate Source(log: set<LogEntry>, q: Question, e: Entry, t: TaskId, resp: Response) {
    InLog(log, t, Some(q), Some(resp)) && EntryOf(resp, e.fetchedAt) == Some(e)
  }

  ghost predicate Stored(s: State, q: Question)
    requires q in s.cache
  {
    Derived(s.log, q, s.cache[q]) && s.cache[q].fetchedAt <= s.now
  }

  /** The client looked at an upstream-derived entry, at or after it was fetched. */
  ghost predicate SeenDerived(s: State, k: Task, q: Question) {
    k.seen.Some? && k.seen.value.entry.fetchedAt <= k.seen.value.at <= s.now && Derived(s.log, q, k.seen.value.entry)
  }

  ghost predicate HitOf(cfg: Config, s: State, k: Task, r: Response) {
    && k.key.Some? && SeenDerived(s, k, k.key.value)
    && FreshAnswer(cfg, k.key.value, k.seen.value.entry, k.seen.value.at, r)
  }

  ghost predicate StaleOf(cfg: Config, s: State, k: Task, r: Response) {
    && k.key.Some? && SeenDerived(s, k, k.key.value)
    && StaleAnswer(cfg, k.key.value, k.seen.value.entry, k.seen.value.at, r)
  }

  /** The task's resolution is logged, asked with one CD bit or the other. */
  predicate InLog(log: set<LogEntry>, t: TaskId, key: Option<Question>, v: Option<Response>) {
    LogEntry(t, key, false, v) in log || LogEntry(t, key, true, v) in log
  }

  predicate Logged(s: State, t: TaskId, key: Option<Question>, v: Option<Response>) {
    InLog(s.log, t, key, v)
  }

  /** The task's own resolution, asked with its own CD bit. */
  predicate LoggedOwn(s: State, t: TaskId, k: Task, v: Option<Response>) {
    LogEntry(t, k.key, k.query.checkingDisabled, v) in s.log
  }

  predicate WorkLogged(s: State, t: TaskId, k: Task, w: Work) {
    match w
    case Asking => true
    case Answered(r) => LoggedOwn(s, t, k, Some(r))
    case Stamped(r, at) => LoggedOwn(s, t, k, Some(r)) && at <= s.now
    case Returned(v) => LoggedOwn(s, t, k, v)
  }

  /** A reply and its status say truly where the answer came from. */
  ghost predicate Accounted(cfg: Config, s: State, t: TaskId, k: Task, v: Option<Response>, status: CacheStatus) {
    match status
    case Uncached => k.key.None? && LoggedOwn(s, t, k, v)
    case Miss => k.key.Some? && Logged(s, k.via, k.key, v)
    case Hit => v.Some? && HitOf(cfg, s, k, v.value)
    case StaleHit => v.Some? && k.key.Some? && (Logged(s, k.via, k.key, v) || StaleOf(cfg, s, k, v.value))
  }

  ghost predicate ProvTask(cfg: Config, s: State, t: TaskId, k: Task) {
    match k.pc
    case HitClaim(r) => HitOf(cfg, s, k, r)
    case StaleClaim(r) => StaleOf(cfg, s, k, r)
    case StaleWait(r, _, _) => StaleOf(cfg, s, k, r)
    case Leading(w) => WorkLogged(s, t, k, w)
    case Solo(w) => WorkLogged(s, t, k, w)
    case Refreshing(w) => WorkLogged(s, t, k, w)
    case Closing(v) => LoggedOwn(s, t, k, v)
    case Freed(v) => LoggedOwn(s, t, k, v)
    case Finished(v) => LoggedOwn(s, t, k, v)
    case Replied(v, status, at) => at <= s.now && Accounted(cfg, s, t, k, v, status)
    case _ => true
  }

  ghost predicate ProvInv(cfg: Config, s: State) {
    && (forall q :: q in s.cache ==> Stored(s, q))
    && (forall t :: t in s.tasks ==> ProvTask(cfg, s, t, s.tasks[t]))
  }

  // ---------------------------------------------------------------- frame

  ghost predicate HistoryGrows(s: State, s': State) {
    s.log <= s'.log && s.now <= s'.now
  }

  lemma DerivedGrows(s: State, s': State, q: Question, e: Entry)
    requires HistoryGrows(s, s') && Derived(s.log, q, e)
    ensures Derived(s'.log, q, e)
  {
    var t, resp :| Source(s.log, q, e, t, resp);
    assert Source(s'.log, q, e, t, resp);
  }

  lemma TaskGrows(cfg: Config, s: State, s': State, t: TaskId, k: Task)
    requires HistoryGrows(s, s') && ProvTask(cfg, s, t, k)
    ensures ProvTask(cfg, s', t, k)
  {
    if k.seen.Some? && k.key.Some? && Derived(s.log, k.key.value, k.seen.value.entry) {
      DerivedGrows(s, s', k.key.value, k.seen.value.entry);
    }
    hide Derived, FreshAnswer, StaleAnswer;
  }

  /** A step keeps the invariant if what it adds to the cache and the task it moves do. */
  lemma Frame(cfg: Config, s: State, s': State, t: TaskId)
    requires ProvInv(cfg, s) && HistoryGrows(s, s') && Moved(s, s', t)
    requires forall q :: q in s'.cache ==> (q in s.cache && s'.cache[q] == s.cache[q]) || Stored(s', q)
    requires ProvTask(cfg, s', t, s'.tasks[t])
    ensures ProvInv(cfg, s')
  {
    hide Derived, HitOf, StaleOf, Accounted;
    forall u | u in s.tasks && u != t ensures ProvTask(cfg, s', u, s'.tasks[u]) {
      TaskGrows(cfg, s, s', u, s.tasks[u]);
    }
    forall q | q in s'.cache ensures Stored(s', q) {
      if q in s.cache && s'.cache[q] == s.cache[q] {
        DerivedGrows(s, s', q, s.cache[q]);
      }
    }
  }

  lemma ProvAt(cfg: Config, s: State, t: TaskId)
    requires ProvInv(cfg, s) && t in s.tasks
    ensures ProvTask(cfg, s, t, s.tasks[t])
  {
  }

  lemma SameSeen(cfg: Config, s: State, s': State, k: Task, k': Task, r: Response)
    requires s'.log == s.log && s'.now == s.now && k'.seen == k.seen && k'.key == k.key
    ensures HitOf(cfg, s, k, r) ==> HitOf(cfg, s', k', r)
    ensures StaleOf(cfg, s, k, r) ==> StaleOf(cfg, s', k', r)
  {
  }

  /** The frame of a step that leaves the cache alone. */
  lemma TaskFrame(cfg: Config, s: State, s': State, t: TaskId)
    requires ProvInv(cfg, s) && Moved(s, s', t) && s'.cache == s.cache && s'.log == s.log && s'.now == s.now
    requires ProvTask(cfg, s', t, s'.tasks[t])
    ensures ProvInv(cfg, s')
  {
    hide ProvInv, ProvTask, Moved;
    Frame(cfg, s, s', t);
  }

  // ---------------------------------------------------------------- steps

  lemma StoredAt(cfg: Config, s: State, q: Question)
    requires ProvInv(cfg, s) && q in s.cache
    ensures Stored(s, q)
  {
  }

  /** What a lookup sees is what the cache stores, and so derived. */
  lemma LookupLogged(cfg: Config, s: State, t: TaskId)
    requires ProvInv(cfg, s) && Enabled(s, Lookup(t))
    ensures t in AfterLookup(cfg, s, t).tasks
    ensures ProvTask(cfg, AfterLookup(cfg, s, t), t, AfterLookup(cfg, s, t).tasks[t])
  {
    hide AfterLookup, LookupOutcome, FreshAnswer, StaleAnswer, Derived, ProvInv, Moved, ChannelsKept;
    var k := s.tasks[t];
    LookupEffect(cfg, s, t);
    OutcomeKinds(cfg, s, k);
    if k.key.Some? && k.key.value in s.cache {
      StoredAt(cfg, s, k.key.value);
    }
  }

  lemma LookupKeeps(cfg: Config, s: State, t: TaskId)
    requires ProvInv(cfg, s) && Enabled(s, Lookup(t))
    ensures ProvInv(cfg, AfterLookup(cfg, s, t))
  {
    hide AfterLookup, ProvInv, ProvTask, Moved, ChannelsKept, LookedUp;
    LookupLogged(cfg, s, t);
    LookupEffect(cfg, s, t);
    TaskFrame(cfg, s, AfterLookup(cfg, s, t), t);
  }

  lemma PrefetchKeeps(cfg: Config, s: State, t: TaskId, r: TaskId)
    requires ProvInv(cfg, s) && Enabled(s, ClaimPrefetch(t, r))
    ensures ProvInv(cfg, AfterClaimPrefetch(s, t, r))
  {
    hide AfterClaimPrefetch, HitOf, StaleOf, ProvInv, Moved, ChannelsKept;
    var s', k := AfterClaimPrefetch(s, t, r), s.tasks[t];
    ProvAt(cfg, s, t);
    PrefetchEffect(s, t, r);
    SameSeen(cfg, s, s', k, s'.tasks[t], k.pc.hit);
    assert ProvTask(cfg, s', t, s'.tasks[t]);
    hide ProvTask;
    TaskFrame(cfg, s, s', t);
  }

  lemma StaleClaimKeeps(cfg: Config, s: State, t: TaskId, r: TaskId)
    requires ProvInv(cfg, s) && Enabled(s, ClaimStale(t, r))
    ensures ProvInv(cfg, AfterClaimStale(s, t, r))
  {
    hide AfterClaimStale, HitOf, StaleOf, ProvInv, Moved, ChannelsKept;
    var s', k := AfterClaimStale(s, t, r), s.tasks[t];
    ProvAt(cfg, s, t);
    StaleClaimEffect(s, t, r);
    SameSeen(cfg, s, s', k, s'.tasks[t], k.pc.stale);
    assert ProvTask(cfg, s', t, s'.tasks[t]);
    hide ProvTask;
    TaskFrame(cfg, s, s', t);
  }

  lemma ReplyKeeps(cfg: Config, s: State, t: TaskId, reply: Option<Response>)
    requires ProvInv(cfg, s) && Enabled(s, UpstreamReply(t, reply))
    ensures ProvInv(cfg, AfterReply(s, t, reply))
  {
    var s' := AfterReply(s, t, reply);
    hide AfterReply, Derived;
    ReplyEffect(s, t, reply);
    Frame(cfg, s, s', t);
  }

  lemma WriteKeeps(cfg: Config, s: State, t: TaskId)
    requires ProvInv(cfg, s) && Enabled(s, Write(t))
    ensures ProvInv(cfg, AfterWrite(s, t))
  {
    var s' := AfterWrite(s, t);
    var k := s.tasks[t];
    var q, w := k.key.value, k.pc.work;
    assert ProvTask(cfg, s, t, k);
    WriteEffect(s, t);
    hide AfterWrite, EntryOf;
    if EntryOf(w.resp, w.at).Some? {
      var e := EntryOf(w.resp, w.at).value;
      StampedAt(w.resp, w.at);
      assert Source(s'.log, q, e, t, w.resp);
      assert Stored(s', q);
    }
    hide Derived;
    Frame(cfg, s, s', t);
  }

  lemma StampedAt(resp: Response, at: nat)
    ensures EntryOf(resp, at).Some? ==> EntryOf(resp, at).value.fetchedAt == at
  {
  }

  lemma SettledLogged(cfg: Config, s: State, t: TaskId)
    requires ProvInv(cfg, s) && Flights.FlightInv(s) && Enabled(s, Settle(t))
    ensures LoggedOwn(s, t, s.tasks[t], s.tasks[t].pc.work.reply)
    ensures s.tasks[t].pc.Solo? ==> s.tasks[t].key.None?
  {
    ProvAt(cfg, s, t);
    Flights.FlightAt(s, t);
    hide ProvInv, Flights.FlightInv, HitOf, StaleOf, Flights.Channel;
  }

  lemma SettleKeeps(cfg: Config, s: State, t: TaskId)
    requires ProvInv(cfg, s) && Flights.FlightInv(s) && Enabled(s, Settle(t))
    ensures ProvInv(cfg, AfterSettle(s, t))
  {
    hide ProvInv, Flights.FlightInv, HitOf, StaleOf, AfterSettle;
    var s' := AfterSettle(s, t);
    SettledLogged(cfg, s, t);
    SettleEffect(s, t);
    assert ProvTask(cfg, s', t, s'.tasks[t]);
    hide ProvTask, Moved;
    TaskFrame(cfg, s, s', t);
  }

  lemma PublishKeeps(cfg: Config, s: State, t: TaskId)
    requires ProvInv(cfg, s) && Flights.FlightInv(s) && Enabled(s, Publish(t))
    ensures ProvInv(cfg, AfterPublish(s, t))
  {
    hide ProvInv, Flights.FlightInv, HitOf, StaleOf, AfterPublish, Moved;
    ProvAt(cfg, s, t);
    Flights.FlightAt(s, t);
    PublishEffect(s, t);
    var s' := AfterPublish(s, t);
    assert ProvTask(cfg, s', t, s'.tasks[t]);
    hide ProvTask, Flights.FlightTask;
    TaskFrame(cfg, s, s', t);
  }

  /** What a follower receives is its leader's reply, and so logged by the leader. */
  lemma ReceivedLogged(cfg: Config, s: State, t: TaskId)
    requires ProvInv(cfg, s) && Flights.FlightInv(s) && Enabled(s, Receive(t))
    ensures var k := s.tasks[t]; var r := Recv(s, k.pc.leader, k.pc.next);
      k.key.Some? && r.Message? && Logged(s, k.via, k.key, r.value)
  {
    hide ProvInv, Flights.FlightInv, HitOf, StaleOf, Recv;
    Flights.FlightAt(s, t);
    Flights.Delivered(s, t);
    ProvAt(cfg, s, s.tasks[t].pc.leader);
  }

  lemma ReceiveKeeps(cfg: Config, s: State, t: TaskId)
    requires ProvInv(cfg, s) && Flights.FlightInv(s) && Enabled(s, Receive(t))
    ensures ProvInv(cfg, AfterReceive(s, t))
  {
    hide ProvInv, Flights.FlightInv, HitOf, StaleOf, Recv, Moved, AfterReceive;
    ReceivedLogged(cfg, s, t);
    ReceiveEffect(s, t);
    var s' := AfterReceive(s, t);
    assert ProvTask(cfg, s', t, s'.tasks[t]);
    hide ProvTask;
    TaskFrame(cfg, s, s', t);
  }

  /** What a refresh hands over is its own logged result. */
  lemma AwaitedLogged(cfg: Config, s: State, t: TaskId)
    requires ProvInv(cfg, s) && Refreshes.SlotInv(s) && Enabled(s, AwaitRefresh(t))
    ensures var k := s.tasks[t]; var r := k.pc.refresh;
      && k.key.Some? && k.via == r && Logged(s, r, k.key, s.tasks[r].pc.value) && StaleOf(cfg, s, k, k.pc.stale)
  {
    hide ProvInv, Refreshes.SlotInv, StaleOf, HitOf, Accounted;
    Refreshes.SlotAt(s, t);
    FinishedLogged(cfg, s, s.tasks[t].pc.refresh);
    ProvAt(cfg, s, t);
  }

  lemma FinishedLogged(cfg: Config, s: State, r: TaskId)
    requires ProvInv(cfg, s) && RefreshDone(s, r)
    ensures Logged(s, r, s.tasks[r].key, s.tasks[r].pc.value)
  {
    hide ProvInv, StaleOf, HitOf, Accounted;
    ProvAt(cfg, s, r);
  }

  /** A stale client answered with a logged result or with its stale answer. */
  lemma AnsweredStale(cfg: Config, s: State, s': State, t: TaskId, v: Response)
    requires ProvInv(cfg, s) && Moved(s, s', t) && StoresKept(s, s')
    requires s'.tasks[t] == s.tasks[t].(pc := Replied(Some(v), StaleHit, s.now))
    requires s.tasks[t].key.Some? && (Logged(s, s.tasks[t].via, s.tasks[t].key, Some(v)) || StaleOf(cfg, s, s.tasks[t], v))
    ensures ProvInv(cfg, s')
  {
    hide ProvInv, StaleOf, HitOf;
    SameSeen(cfg, s, s', s.tasks[t], s'.tasks[t], v);
    assert ProvTask(cfg, s', t, s'.tasks[t]);
    hide ProvTask, Moved;
    TaskFrame(cfg, s, s', t);
  }

  lemma AwaitKeeps(cfg: Config, s: State, t: TaskId)
    requires ProvInv(cfg, s) && Refreshes.SlotInv(s) && Enabled(s, AwaitRefresh(t))
    ensures ProvInv(cfg, AfterAwaitRefresh(s, t))
  {
    hide ProvInv, StaleOf, Moved, AfterAwaitRefresh, Refreshes.SlotInv;
    AwaitedLogged(cfg, s, t);
    AwaitEffect(s, t);
    var v := s.tasks[s.tasks[t].pc.refresh].pc.value;
    AnsweredStale(cfg, s, AfterAwaitRefresh(s, t), t, if v.Some? then v.value else s.tasks[t].pc.stale);
  }

  /** A change of place alone. */
  lemma PcKeeps(cfg: Config, s: State, t: TaskId, pc: Pc)
    requires ProvInv(cfg, s) && t in s.tasks && ProvTask(cfg, s, t, s.tasks[t].(pc := pc))
    ensures ProvInv(cfg, SetPc(s, t, pc))
  {
    hide ProvInv;
    PcEffect(s, t, pc);
    TaskGrows(cfg, s, SetPc(s, t, pc), t, s.tasks[t].(pc := pc));
    hide ProvTask, Moved, SetPc;
    TaskFrame(cfg, s, SetPc(s, t, pc), t);
  }

  lemma PlainKeeps(cfg: Config, s: State, a: Step)
    requires ProvInv(cfg, s) && Enabled(s, a) && (a.Stamp? || a.Finish? || a.Drop?)
    ensures ProvInv(cfg, Apply(cfg, s, a))
  {
    ProvAt(cfg, s, a.t);
    hide ProvInv, Recv, HitOf, StaleOf, SetPc, Accounted;
    if a.Stamp? {
      PcKeeps(cfg, s, a.t, WithWork(s.tasks[a.t].pc, Stamped(s.tasks[a.t].pc.work.resp, s.now)));
    } else if a.Finish? {
      PcKeeps(cfg, s, a.t, Finished(s.tasks[a.t].pc.value));
    } else {
      PcKeeps(cfg, s, a.t, Dropped);
    }
  }

  lemma TimerKeeps(cfg: Config, s: State, t: TaskId)
    requires ProvInv(cfg, s) && Enabled(s, Timer(t))
    ensures ProvInv(cfg, ServeStale(s, t, s.tasks[t].pc.stale))
  {
    ProvAt(cfg, s, t);
    hide ProvInv, StaleOf, Moved, ServeStale;
    ServeStaleEffect(s, t, s.tasks[t].pc.stale);
    AnsweredStale(cfg, s, ServeStale(s, t, s.tasks[t].pc.stale), t, s.tasks[t].pc.stale);
  }

  lemma JoinKeeps(cfg: Config, s: State, t: TaskId)
    requires ProvInv(cfg, s) && Enabled(s, Join(t))
    ensures ProvInv(cfg, AfterJoin(s, t))
  {
    hide AfterJoin, ProvInv, Moved, ChannelsKept, Messages;
    JoinEffect(s, t);
    TaskFrame(cfg, s, AfterJoin(s, t), t);
  }

  lemma AmbientKeeps(cfg: Config, s: State, a: Step)
    requires ProvInv(cfg, s) && Enabled(s, a) && (a.Tick? || a.Evict? || a.Arrive?)
    ensures ProvInv(cfg, Apply(cfg, s, a))
  {
    var s' := Apply(cfg, s, a);
    hide Derived, HitOf, StaleOf, Accounted;
    forall u | u in s.tasks ensures ProvTask(cfg, s', u, s'.tasks[u]) {
      TaskGrows(cfg, s, s', u, s.tasks[u]);
    }
    forall q | q in s'.cache ensures Stored(s', q) {
      DerivedGrows(s, s', q, s.cache[q]);
    }
  }

  lemma StepKeepsProvenance(cfg: Config, s: State, a: Step)
    requires ProvInv(cfg, s) && Flights.FlightInv(s) && Refreshes.SlotInv(s) && Enabled(s, a)
    ensures ProvInv(cfg, Apply(cfg, s, a))
  {
    hide ProvInv, Flights.FlightInv, Refreshes.SlotInv, Recv, ServeStale, AfterLookup, AfterClaimPrefetch, AfterClaimStale, AfterJoin,
      AfterReply, AfterWrite, AfterSettle, AfterPublish, AfterReceive, AfterAwaitRefresh;
    match a
    case Lookup(t) => LookupKeeps(cfg, s, t);
    case ClaimPrefetch(t, r) => PrefetchKeeps(cfg, s, t, r);
    case ClaimStale(t, r) => StaleClaimKeeps(cfg, s, t, r);
    case UpstreamReply(t, reply) => ReplyKeeps(cfg, s, t, reply);
    case Write(t) => WriteKeeps(cfg, s, t);
    case Settle(t) => SettleKeeps(cfg, s, t);
    case Publish(t) => PublishKeeps(cfg, s, t);
    case Receive(t) => ReceiveKeeps(cfg, s, t);
    case AwaitRefresh(t) => AwaitKeeps(cfg, s, t);
    case Join(t) => JoinKeeps(cfg, s, t);
    case Tick(_) => AmbientKeeps(cfg, s, a);
    case Evict(_) => AmbientKeeps(cfg, s, a);
    case Arrive(_, _) => AmbientKeeps(cfg, s, a);
    case Stamp(_) => PlainKeeps(cfg, s, a);
    case Finish(_) => PlainKeeps(cfg, s, a);
    case Drop(_) => PlainKeeps(cfg, s, a);
    case Timer(t) => TimerKeeps(cfg, s, t);
  }

  // ---------------------------------------------------------------- runs

  lemma {:induction false} RunProvenance(cfg: Config, states: seq<State>, steps: seq<Step>, i: nat)
    requires Run(cfg, states, steps) && i < |states|
    ensures ProvInv(cfg, states[i])
  {
    if i > 0 {
      RunProvenance(cfg, states, steps, i - 1);
      Flights.RunFlights(cfg, states, steps, i - 1);
      Refreshes.RunSlots(cfg, states, steps, i - 1);
      hide ProvInv, Flights.FlightInv, Refreshes.SlotInv, Apply, Enabled;
      StepKeepsProvenance(cfg, states[i - 1], steps[i - 1]);
      assert states[i - 1 + 1] == states[i];
    }
  }

  /** In every run, every reply is accounted for by its status: an uncached reply is what
      upstream answered this client; a miss is what upstream answered the flight it led or
      joined for the same question; a hit or stale reply is never empty, a hit is read off
      a fresh upstream-derived entry of the same question, and a stale reply is either what
      upstream answered the refresh it awaited or read off such an entry in its window. */
  lemma RepliesAccountedFor(cfg: Config, states: seq<State>, steps: seq<Step>, i: nat, t: TaskId)
    requires Run(cfg, states, steps) && i < |states| && t in states[i].tasks && states[i].tasks[t].pc.Replied?
    ensures var k := states[i].tasks[t]; Accounted(cfg, states[i], t, k, k.pc.reply, k.pc.status)
  {
    RunProvenance(cfg, states, steps, i);
    assert ProvTask(cfg, states[i], t, states[i].tasks[t]);
  }

  /** In every run, the cache holds only sound entries that upstream responses to the very
      same question are stored as, none fetched in the future; so no lookup ever finds an
      entry that cannot be rebuilt into a response. */
  lemma CacheIsUpstreams(cfg: Config, states: seq<State>, steps: seq<Step>, i: nat, q: Question)
    requires Run(cfg, states, steps) && i < |states| && q in states[i].cache
    ensures var s := states[i]; var l := LookupEntry(s.cache[q], s.now, cfg.staleWindow);
      && Derived(s.log, q, s.cache[q]) && SoundEntry(s.cache[q]) && s.cache[q].fetchedAt <= s.now
      && (l.Some? ==> BuildCached(q, l.value.snapshot).Some?)
  {
    RunProvenance(cfg, states, steps, i);
    DerivedSound(states[i], q, states[i].cache[q]);
  }

  lemma DerivedSound(s: State, q: Question, e: Entry)
    requires Derived(s.log, q, e)
    ensures SoundEntry(e)
  {
    var t, resp :| Source(s.log, q, e, t, resp);
    StoredIsSound(resp, e.fetchedAt);
  }

  /** In every run, a cache hit never outlives its upstream answer: its records are records
      of one upstream response to the same question, each with a TTL that, counted from the
      lookup, ends no later than the upstream record's counted from the fetch. */
  lemma HitsOutliveNothing(cfg: Config, states: seq<State>, steps: seq<Step>, i: nat, t: TaskId)
    requires Run(cfg, states, steps) && i < |states| && t in states[i].tasks
    requires states[i].tasks[t].pc.Replied? && states[i].tasks[t].pc.status == Hit
    ensures HitWithin(states[i], states[i].tasks[t])
  {
    var s, k := states[i], states[i].tasks[t];
    RepliesAccountedFor(cfg, states, steps, i, t);
    var q, e, at := k.key.value, k.seen.value.entry, k.seen.value.at;
    var u, resp :| Source(s.log, q, e, u, resp);
    FreshIsInTime(cfg, q, e, at, k.pc.reply.value);
    FreshTtlSound(resp, e.fetchedAt, at, cfg.staleWindow);
    hide Run, FreshStamps, LookupEntry, EntryOf;
    assert WithinUpstream(s, k, q, u, resp);
  }

  ghost predicate HitWithin(s: State, k: Task) {
    && k.key.Some? && k.seen.Some? && k.pc.Replied? && k.pc.reply.Some?
    && exists u, resp :: WithinUpstream(s, k, k.key.value, u, resp)
  }

  ghost predicate WithinUpstream(s: State, k: Task, q: Question, u: TaskId, resp: Response)
    requires k.seen.Some? && k.pc.Replied? && k.pc.reply.Some?
  {
    var e, at, r := k.seen.value.entry, k.seen.value.at, k.pc.reply.value;
    && Source(s.log, q, e, u, resp) && e.fetchedAt <= at <= e.validUntil && at <= s.now
    && r.rcode == e.rcode && r.question == [q]
    && FreshStamps(resp, e, Snapshot(e.rcode, e.answers == [], r.answers, r.authority), at)
  }

  lemma FreshIsInTime(cfg: Config, q: Question, e: Entry, at: nat, r: Response)
    requires FreshAnswer(cfg, q, e, at, r)
    ensures at <= e.validUntil
    ensures var l := LookupEntry(e, at, cfg.staleWindow);
      l.Some? && l.value.snapshot == Snapshot(e.rcode, e.answers == [], r.answers, r.authority)
    ensures r.rcode == e.rcode && r.question == [q]
  {
  }

  /** In every run, a hit puts the DNS64 handler on the branch, with the CNAME and A data,
      of the upstream response its entry was stored for, unless that was an NXDOMAIN carrying
      AAAA records. */
  lemma HitsKeepTheBranch(cfg: Config, states: seq<State>, steps: seq<Step>, i: nat, t: TaskId)
    requires Run(cfg, states, steps) && i < |states| && t in states[i].tasks
    requires states[i].tasks[t].pc.Replied? && states[i].tasks[t].pc.status == Hit
    ensures var k := states[i].tasks[t];
      && k.pc.reply.Some? && k.key.Some? && k.seen.Some?
      && exists u, resp :: BranchOf(states[i], k.key.value, k.seen.value.entry, k.pc.reply.value, u, resp)
  {
    var s, k := states[i], states[i].tasks[t];
    RepliesAccountedFor(cfg, states, steps, i, t);
    var q, e, at, r := k.key.value, k.seen.value.entry, k.seen.value.at, k.pc.reply.value;
    var u, resp :| Source(s.log, q, e, u, resp);
    hide Run, EntryOf, LookupEntry, BuildCached;
    assert ServedFrom(q, resp, e.fetchedAt, at, cfg.staleWindow, r);
    CacheKeepsBranch(q, resp, e.fetchedAt, at, cfg.staleWindow, r);
    assert BranchOf(s, q, e, r, u, resp);
  }

  ghost predicate BranchOf(s: State, q: Question, e: Entry, r: Response, u: TaskId, resp: Response) {
    && Source(s.log, q, e, u, resp)
    && (SameBranch(Decide(r), Decide(resp)) <==> !(resp.rcode == NXDomain && HasAaaa(resp.answers)))
    && Addresses(LookupA(Some(r))) == Addresses(LookupA(Some(resp)))
  }

  // ---------------------------------------------------------------- timely runs

  /** Runs in which timers fire when due and a claim follows its lookup at once: time does
      not pass a waiting client's deadline, nor a client about to claim. */
  ghost predicate Timely(s: State, a: Step) {
    a.Tick? ==> forall t :: t in s.tasks ==> InTime(s.tasks[t].pc, a.to)
  }

  predicate InTime(pc: Pc, to: nat) { !pc.StaleClaim? && (pc.StaleWait? ==> to <= pc.deadline) }

  ghost predicate TimelyRun(cfg: Config, states: seq<State>, steps: seq<Step>) {
    Run(cfg, states, steps) && forall i :: 0 <= i < |steps| ==> Timely(states[i], steps[i])
  }

  ghost predicate TimeTask(s: State, k: Task) {
    match k.pc
    case StaleClaim(_) => k.seen.Some? && k.seen.value.at == s.now
    case StaleWait(_, _, deadline) => k.seen.Some? && deadline == k.seen.value.at + RESPONSE_TIMER && s.now <= deadline
    case Replied(_, status, at) => status == StaleHit ==> k.seen.Some? && at <= k.seen.value.at + RESPONSE_TIMER
    case _ => true
  }

  ghost predicate TimeInv(s: State) {
    forall t :: t in s.tasks ==> TimeTask(s, s.tasks[t])
  }

  lemma ClientInTime(cfg: Config, s: State, a: Step)
    requires Enabled(s, a) && (a.Lookup? || a.Receive? || a.ClaimPrefetch? || a.ClaimStale? || a.AwaitRefresh? || a.Timer?)
    requires TimeTask(s, s.tasks[a.t])
    ensures Apply(cfg, s, a).now == s.now && a.t in Apply(cfg, s, a).tasks && TimeTask(Apply(cfg, s, a), Apply(cfg, s, a).tasks[a.t])
  {
    hide ChannelsKept, FreshAnswer, StaleAnswer;
    hide Recv, AfterLookup, AfterReceive, AfterClaimPrefetch, AfterClaimStale, AfterAwaitRefresh, ServeStale;
    if a.Lookup? {
      LookupEffect(cfg, s, a.t);
    } else if a.Receive? {
      ReceiveEffect(s, a.t);
    } else if a.ClaimPrefetch? {
      PrefetchEffect(s, a.t, a.r);
    } else if a.ClaimStale? {
      StaleClaimEffect(s, a.t, a.r);
    } else if a.AwaitRefresh? {
      AwaitEffect(s, a.t);
    } else {
      ServeStaleEffect(s, a.t, s.tasks[a.t].pc.stale);
    }
  }

  /** Working, publishing and freeing lead to no place with a time on it. */
  lemma WorkerInTime(cfg: Config, s: State, a: Step)
    requires Enabled(s, a) && !a.Tick? && !a.Evict? && !a.Arrive?
    requires !(a.Lookup? || a.Receive? || a.ClaimPrefetch? || a.ClaimStale? || a.AwaitRefresh? || a.Timer?)
    ensures Apply(cfg, s, a).now == s.now && a.t in Apply(cfg, s, a).tasks && TimeTask(Apply(cfg, s, a), Apply(cfg, s, a).tasks[a.t])
  {
    hide Recv, AfterReply, AfterWrite, AfterSettle, AfterPublish, Moved, ChannelsKept, SetPc;
    if a.UpstreamReply? {
      ReplyEffect(s, a.t, a.reply);
    } else if a.Write? {
      WriteEffect(s, a.t);
    } else if a.Settle? {
      SettleEffect(s, a.t);
    } else if a.Publish? {
      PublishEffect(s, a.t);
    } else if a.Stamp? {
      PcEffect(s, a.t, WithWork(s.tasks[a.t].pc, Stamped(s.tasks[a.t].pc.work.resp, s.now)));
    } else if a.Finish? {
      PcEffect(s, a.t, Finished(s.tasks[a.t].pc.value));
    } else if a.Drop? {
      PcEffect(s, a.t, Dropped);
    } else {
      JoinEffect(s, a.t);
      hide AfterJoin;
    }
  }

  lemma ActingInTime(cfg: Config, s: State, a: Step)
    requires TimeInv(s) && Enabled(s, a) && !a.Tick? && !a.Evict? && !a.Arrive?
    ensures Apply(cfg, s, a).now == s.now && a.t in Apply(cfg, s, a).tasks && TimeTask(Apply(cfg, s, a), Apply(cfg, s, a).tasks[a.t])
  {
    if a.Lookup? || a.Receive? || a.ClaimPrefetch? || a.ClaimStale? || a.AwaitRefresh? || a.Timer? {
      assert TimeTask(s, s.tasks[a.t]);
      hide TimeInv, TimeTask, Apply;
      ClientInTime(cfg, s, a);
    } else {
      hide TimeInv, TimeTask, Apply, Enabled;
      WorkerInTime(cfg, s, a);
    }
  }

  lemma AmbientInTime(cfg: Config, s: State, a: Step)
    requires TimeInv(s) && Enabled(s, a) && Timely(s, a) && (a.Tick? || a.Evict? || a.Arrive?)
    ensures TimeInv(Apply(cfg, s, a))
  {
    var s' := Apply(cfg, s, a);
    forall t | t in s'.tasks ensures TimeTask(s', s'.tasks[t]) {
      assert t in s.tasks ==> TimeTask(s, s.tasks[t]);
    }
  }

  lemma MovedInTime(s: State, s': State, t: TaskId)
    requires TimeInv(s) && Moved(s, s', t) && s'.now == s.now && TimeTask(s', s'.tasks[t])
    ensures TimeInv(s')
  {
    forall u | u in s'.tasks ensures TimeTask(s', s'.tasks[u]) {
      assert u in s.tasks ==> TimeTask(s, s.tasks[u]);
    }
  }

  lemma StepKeepsTime(cfg: Config, s: State, a: Step)
    requires TimeInv(s) && Enabled(s, a) && Timely(s, a)
    ensures TimeInv(Apply(cfg, s, a))
  {
    hide TimeInv, TimeTask, Apply, Enabled, Timely, Moved;
    if a.Tick? || a.Evict? || a.Arrive? {
      AmbientInTime(cfg, s, a);
    } else {
      ActingInTime(cfg, s, a);
      StepMoves(cfg, s, a);
      MovedInTime(s, Apply(cfg, s, a), a.t);
    }
  }

  lemma {:induction false} RunTime(cfg: Config, states: seq<State>, steps: seq<Step>, i: nat)
    requires TimelyRun(cfg, states, steps) && i < |states|
    ensures TimeInv(states[i])
  {
    if i > 0 {
      RunTime(cfg, states, steps, i - 1);
      hide TimeInv, Apply, Enabled, Timely;
      StepKeepsTime(cfg, states[i - 1], steps[i - 1]);
      assert states[i - 1 + 1] == states[i];
    }
  }

  /** In every timely run, a stale lookup is answered with a response within the response
      timer of 1.8 seconds of the lookup, and a reply read off the stale entry is delivered no later than
      its deadline plus the stale window plus the timer. */
  lemma StaleDeliveredInTime(cfg: Config, states: seq<State>, steps: seq<Step>, i: nat, t: TaskId)
    requires TimelyRun(cfg, states, steps) && i < |states| && t in states[i].tasks
    requires states[i].tasks[t].pc.Replied? && states[i].tasks[t].pc.status == StaleHit
    ensures var s := states[i]; var k := s.tasks[t];
      && k.pc.reply.Some? && k.seen.Some? && k.pc.repliedAt <= k.seen.value.at + 1_800_000_000
      && (Logged(s, k.via, k.key, k.pc.reply)
        || (StaleOf(cfg, s, k, k.pc.reply.value)
            && k.pc.repliedAt <= k.seen.value.entry.validUntil + cfg.staleWindow + 1_800_000_000))
  {
    RunTime(cfg, states, steps, i);
    RepliesAccountedFor(cfg, states, steps, i, t);
    hide Run, Derived;
    assert TimeTask(states[i], states[i].tasks[t]);
  }

  /** In every timely run, a client waiting on a stale answer is still before its deadline,
      which is 1.8 seconds after its lookup. */
  lemma WaitsAtMostTheTimer(cfg: Config, states: seq<State>, steps: seq<Step>, i: nat, t: TaskId)
    requires TimelyRun(cfg, states, steps) && i < |states| && t in states[i].tasks
    requires states[i].tasks[t].pc.StaleWait?
    ensures var s := states[i]; var k := s.tasks[t];
      k.seen.Some? && s.now <= k.pc.deadline == k.seen.value.at + 1_800_000_000
  {
    RunTime(cfg, states, steps, i);
    assert TimeTask(states[i], states[i].tasks[t]);
  }

  // ---------------------------------------------------------------- plain caching

  predicate StalePc(pc: Pc) { pc.StaleClaim? || pc.StaleWait? || (pc.Replied? && pc.status == StaleHit) }

  ghost predicate NoStale(s: State) {
    forall t :: t in s.tasks ==> !StalePc(s.tasks[t].pc)
  }

  lemma NothingStaleInNoWindow(cfg: Config, q: Question, e: Entry, at: nat, r: Response)
    requires cfg.staleWindow == 0
    ensures !StaleAnswer(cfg, q, e, at, r)
  {
  }

  lemma LookupNotStale(cfg: Config, s: State, t: TaskId)
    requires cfg.staleWindow == 0 && Enabled(s, Lookup(t))
    ensures t in AfterLookup(cfg, s, t).tasks && !StalePc(AfterLookup(cfg, s, t).tasks[t].pc)
  {
    hide LookupOutcome, AfterLookup, StaleAnswer, FreshAnswer, Moved, ChannelsKept;
    LookupEffect(cfg, s, t);
    var k, k' := s.tasks[t], AfterLookup(cfg, s, t).tasks[t];
    if k.key.Some? && k'.pc.StaleClaim? && k.key.value in s.cache {
      NothingStaleInNoWindow(cfg, k.key.value, s.cache[k.key.value], s.now, k'.pc.stale);
    }
  }

  lemma ClientNotStale(cfg: Config, s: State, a: Step)
    requires a.Lookup? || a.Receive? || a.ClaimPrefetch? || a.ClaimStale? || a.AwaitRefresh? || a.Timer?
    requires cfg.staleWindow == 0 && Enabled(s, a) && !StalePc(s.tasks[a.t].pc)
    ensures a.t in Apply(cfg, s, a).tasks && !StalePc(Apply(cfg, s, a).tasks[a.t].pc)
  {
    hide Recv, AfterLookup, AfterReceive, AfterClaimPrefetch, Moved, ChannelsKept, Claimed;
    if a.Lookup? {
      LookupNotStale(cfg, s, a.t);
    } else if a.Receive? {
      ReceiveEffect(s, a.t);
    } else if a.ClaimPrefetch? {
      PrefetchEffect(s, a.t, a.r);
    }
  }

  lemma WorkerNotStale(cfg: Config, s: State, a: Step)
    requires Enabled(s, a) && !a.Tick? && !a.Evict? && !a.Arrive?
    requires !(a.Lookup? || a.Receive? || a.ClaimPrefetch? || a.ClaimStale? || a.AwaitRefresh? || a.Timer?)
    ensures a.t in Apply(cfg, s, a).tasks && !StalePc(Apply(cfg, s, a).tasks[a.t].pc)
  {
    hide AfterReply, AfterWrite, AfterSettle, AfterJoin, AfterPublish, Moved, ChannelsKept;
    if a.UpstreamReply? {
      ReplyEffect(s, a.t, a.reply);
    } else if a.Write? {
      WriteEffect(s, a.t);
    } else if a.Settle? {
      SettleEffect(s, a.t);
    } else if a.Join? {
      JoinEffect(s, a.t);
    } else if a.Publish? {
      PublishEffect(s, a.t);
    }
  }

  lemma ActingNotStale(cfg: Config, s: State, a: Step)
    requires cfg.staleWindow == 0 && NoStale(s) && Enabled(s, a) && !a.Tick? && !a.Evict? && !a.Arrive?
    ensures a.t in Apply(cfg, s, a).tasks && !StalePc(Apply(cfg, s, a).tasks[a.t].pc)
  {
    if a.Lookup? || a.Receive? || a.ClaimPrefetch? || a.ClaimStale? || a.AwaitRefresh? || a.Timer? {
      assert !StalePc(s.tasks[a.t].pc);
      hide NoStale, StalePc, Apply;
      ClientNotStale(cfg, s, a);
    } else {
      hide NoStale, StalePc, Apply, Enabled;
      WorkerNotStale(cfg, s, a);
    }
  }

  /** With serve-stale off this is plain caching: in no run is any reply stale. */
  lemma {:induction false} PlainCaching(cacheSize: nat, states: seq<State>, steps: seq<Step>, i: nat)
    requires Run(ConfigOf(cacheSize, false), states, steps) && i < |states|
    ensures NoStale(states[i])
  {
    if i > 0 {
      PlainCaching(cacheSize, states, steps, i - 1);
      var s, a, cfg := states[i - 1], steps[i - 1], ConfigOf(cacheSize, false);
      assert states[i - 1 + 1] == states[i] && states[i] == Apply(cfg, s, a);
      if a.Tick? || a.Evict? || a.Arrive? {
      } else {
        hide Run, Apply, StalePc;
        ActingNotStale(cfg, s, a);
        StepMoves(cfg, s, a);
        forall t | t in states[i].tasks ensures !StalePc(states[i].tasks[t].pc) {
          RefreshNotStale();
        }
      }
    }
  }

  /** The configuration: a size turns the cache on, and serve-stale serves every entry for
      exactly a day past its deadline, and not at all otherwise. */
  lemma ConfiguredWindow(cacheSize: nat, serveStale: bool, e: Entry, now: nat)
    ensures ConfigOf(cacheSize, serveStale).cacheEnabled <==> cacheSize > 0
    ensures now > e.validUntil ==>
      (LookupEntry(e, now, ConfigOf(cacheSize, serveStale).staleWindow).Some? <==> serveStale && now - e.validUntil <= 86_400_000_000_000)
  {
  }

  lemma RefreshNotStale()
    ensures !StalePc(Refreshing(Asking))
  {
  }
}
