/** The resolver pool as a protocol: any number of client and refresh tasks over a shared
    cache, refresh slots and single-flight channels, interleaved at every lock region,
    upstream reply, timer and broadcast, with arbitrary upstream results and evictions. */
module Pool {
  import opened Text
  import opened Dns
  import opened Cache

  type TaskId = nat

  const RESPONSE_TIMER: nat := 1_800_000_000

  datatype Config = Config(cacheEnabled: bool, staleWindow: nat)

  /** Without serve-stale the window is zero. */
  function ConfigOf(cacheSize: nat, serveStale: bool): Config {
    Config(cacheSize > 0, if serveStale then STALE_MAX_WINDOW else 0)
  }

  /** The key of a cacheable query: one question, DNSSEC-OK clear. */
  function CacheKey(cfg: Config, q: Query): Option<Question> {
    if cfg.cacheEnabled && !q.dnssecOk && |q.questions| == 1 then Some(q.questions[0]) else None
  }

  // ================================================================ state

  /** How far one upstream resolution and its cache write have got. */
  datatype Work =
    | Asking
    | Answered(resp: Response)
    | Stamped(resp: Response, at: nat)
    | Returned(reply: Option<Response>)

  datatype CacheStatus = Uncached | Miss | Hit | StaleHit

  datatype Pc =
    // clients
    | Arrived
    | HitClaim(hit: Response)
    | StaleClaim(stale: Response)
    | StaleWait(stale: Response, refresh: TaskId, deadline: nat)
    | Joining
    | Leading(work: Work)
    | Closing(value: Option<Response>)
    | Following(leader: TaskId, next: nat)
    | Solo(work: Work)
    | Replied(reply: Option<Response>, status: CacheStatus, repliedAt: nat)
    | Dropped
    // refresh tasks
    | Refreshing(work: Work)
    | Freed(value: Option<Response>)
    | Finished(value: Option<Response>)

  /** What a client saw in the cache, and when. */
  datatype Seen = Seen(entry: Entry, at: nat)

  /** `via` names the task whose upstream resolution the client's answer comes from. */
  datatype Task = Task(query: Query, key: Option<Question>, pc: Pc, via: TaskId, seen: Option<Seen>)

  /** One finished upstream resolution: who asked what, with which CD bit, and what came back. */
  datatype LogEntry = LogEntry(task: TaskId, key: Option<Question>, checkingDisabled: bool, reply: Option<Response>)

  datatype Counters = Counters(lookups: nat, hits: nat, misses: nat, staleLookups: nat, negativeHits: nat,
    prefetches: nat, servedStale: nat, upstreamFailed: nat)

  /** `owner` says which refresh task holds the guard of a slot; `log` is the history of
      upstream resolutions; neither is read by any step. A channel is named by the task that opened it. */
  datatype State = State(
    now: nat,
    cache: map<Question, Entry>,
    inFlight: set<Question>,
    owner: map<Question, TaskId>,
    flights: map<Question, TaskId>,
    sent: map<TaskId, seq<Option<Response>>>,
    tasks: map<TaskId, Task>,
    log: set<LogEntry>,
    n: Counters)

  const INIT := State(0, map[], {}, map[], map[], map[], map[], {}, Counters(0, 0, 0, 0, 0, 0, 0, 0))

  datatype Step =
    | Tick(to: nat)
    | Evict(q: Question)
    | Arrive(t: TaskId, query: Query)
    | Lookup(t: TaskId)
    | ClaimPrefetch(t: TaskId, r: TaskId)
    | ClaimStale(t: TaskId, r: TaskId)
    | Join(t: TaskId)
    | UpstreamReply(t: TaskId, reply: Option<Response>)
    | Stamp(t: TaskId)
    | Write(t: TaskId)
    | Settle(t: TaskId)
    | Publish(t: TaskId)
    | Finish(t: TaskId)
    | Receive(t: TaskId)
    | AwaitRefresh(t: TaskId)
    | Timer(t: TaskId)
    | Drop(t: TaskId)

  // ---------------------------------------------------------------- vocabulary

  function Put(s: State, t: TaskId, k: Task): State {
    s.(tasks := s.tasks[t := k])
  }

  function SetPc(s: State, t: TaskId, pc: Pc): State
    requires t in s.tasks
  {
    Put(s, t, s.tasks[t].(pc := pc))
  }

  predicate HasWork(pc: Pc) { pc.Leading? || pc.Solo? || pc.Refreshing? }

  function WithWork(pc: Pc, w: Work): Pc
    requires HasWork(pc)
  {
    match pc
    case Leading(_) => Leading(w)
    case Solo(_) => Solo(w)
    case Refreshing(_) => Refreshing(w)
  }

  /** A sender of the channel is alive: the map's clone, or the leader's own. */
  ghost predicate SenderAlive(s: State, f: TaskId) {
    || (exists q :: q in s.flights && s.flights[q] == f)
    || (f in s.tasks && (s.tasks[f].pc.Leading? || s.tasks[f].pc.Closing?))
  }

  /** What a receiver at position `next` of a capacity-1 channel gets, if it can proceed:
      the next message, or an error when it lagged or every sender is gone. */
  datatype Received = Pending | Message(value: Option<Response>) | RecvError

  function Messages(s: State, f: TaskId): seq<Option<Response>> {
    if f in s.sent then s.sent[f] else []
  }

  ghost function Recv(s: State, f: TaskId, next: nat): Received {
    var msgs := Messages(s, f);
    if next + 1 < |msgs| then RecvError
    else if next < |msgs| then Message(msgs[next])
    else if SenderAlive(s, f) then Pending
    else RecvError
  }

  function RefreshTask(k: Task): Task {
    Task(k.query, k.key, Refreshing(Asking), 0, None)
  }

  // ---------------------------------------------------------------- steps

  ghost predicate Enabled(s: State, a: Step) {
    match a
    case Tick(to) => to >= s.now
    case Evict(q) => q in s.cache
    case Arrive(t, _) => t !in s.tasks
    case Lookup(t) => t in s.tasks && s.tasks[t].pc.Arrived?
    case ClaimPrefetch(t, r) => t in s.tasks && s.tasks[t].pc.HitClaim? && s.tasks[t].key.Some? && r !in s.tasks
    case ClaimStale(t, r) => t in s.tasks && s.tasks[t].pc.StaleClaim? && s.tasks[t].key.Some? && r !in s.tasks
    case Join(t) => t in s.tasks && s.tasks[t].pc.Joining? && s.tasks[t].key.Some?
    case UpstreamReply(t, _) => WorkingTask(s, t) && s.tasks[t].pc.work.Asking?
    case Stamp(t) => WorkingTask(s, t) && s.tasks[t].pc.work.Answered?
    case Write(t) => WorkingTask(s, t) && s.tasks[t].pc.work.Stamped? && s.tasks[t].key.Some?
    case Settle(t) => WorkingTask(s, t) && s.tasks[t].pc.work.Returned? && (s.tasks[t].pc.Solo? || s.tasks[t].key.Some?)
    case Publish(t) => t in s.tasks && s.tasks[t].pc.Closing?
    case Finish(t) => t in s.tasks && s.tasks[t].pc.Freed?
    case Receive(t) => t in s.tasks && s.tasks[t].pc.Following? && !Recv(s, s.tasks[t].pc.leader, s.tasks[t].pc.next).Pending?
    case AwaitRefresh(t) => t in s.tasks && s.tasks[t].pc.StaleWait? && RefreshDone(s, s.tasks[t].pc.refresh)
    case Timer(t) => t in s.tasks && s.tasks[t].pc.StaleWait? && s.now >= s.tasks[t].pc.deadline && !RefreshDone(s, s.tasks[t].pc.refresh)
    case Drop(t) => t in s.tasks && AtAwait(s.tasks[t].pc)
  }

  predicate WorkingTask(s: State, t: TaskId) { t in s.tasks && HasWork(s.tasks[t].pc) }

  predicate RefreshDone(s: State, r: TaskId) { r in s.tasks && s.tasks[r].pc.Finished? }

  /** Where a client waits, and so where its future can be dropped. */
  predicate AtAwait(pc: Pc) {
    pc.StaleWait? || pc.Following? || ((pc.Leading? || pc.Solo?) && pc.work.Asking?)
  }

  /** The cache lookup of a client: the counters it bumps and where the client goes on. */
  function LookupOutcome(cfg: Config, s: State, k: Task): (Counters, Task) {
    match k.key
    case None => (s.n, k.(pc := Solo(Asking)))
    case Some(q) =>
      var n := s.n.(lookups := s.n.lookups + 1);
      var missed := (n.(misses := n.misses + 1), k.(pc := Joining));
      if q !in s.cache then missed
      else
        var e := s.cache[q];
        match LookupEntry(e, s.now, cfg.staleWindow)
        case None => missed
        case Some(Fresh(snap, prefetch)) =>
          (match BuildCached(q, snap)
           case None => (n, k.(pc := Joining))
           case Some(r) =>
             (n.(hits := n.hits + 1, negativeHits := n.negativeHits + One(snap.negative)),
              k.(pc := if prefetch then HitClaim(r) else Replied(Some(r), Hit, s.now), seen := Some(Seen(e, s.now)))))
        case Some(Stale(snap)) =>
          (match BuildCached(q, snap)
           case None => (n, k.(pc := Joining))
           case Some(r) =>
             (n.(staleLookups := n.staleLookups + 1, negativeHits := n.negativeHits + One(snap.negative)),
              k.(pc := StaleClaim(r), seen := Some(Seen(e, s.now)))))
  }

  function AfterLookup(cfg: Config, s: State, t: TaskId): State
    requires t in s.tasks
  {
    var (n, k) := LookupOutcome(cfg, s, s.tasks[t]);
    Put(s.(n := n), t, k)
  }

  // The regions under the two locks, as functions of what the lock guards.

  /** Insert a question into the refresh slots; claimed if it was not there. */
  function ClaimSlot(inFlight: set<Question>, q: Question): (set<Question>, bool) {
    (inFlight + {q}, q !in inFlight)
  }

  function FreeSlot(inFlight: set<Question>, q: Question): set<Question> { inFlight - {q} }

  datatype Role = Leader | Follower(of: TaskId)

  /** Follow the open flight of a question, or open one. */
  function JoinFlight(flights: map<Question, TaskId>, q: Question, t: TaskId): (map<Question, TaskId>, Role) {
    if q in flights then (flights, Follower(flights[q])) else (flights[q := t], Leader)
  }

  function EndFlight(flights: map<Question, TaskId>, q: Question): map<Question, TaskId> { flights - {q} }

  /** The refresh that goes with a claimed slot. */
  function Spawned(s: State, q: Question, k: Task, r: TaskId): State {
    Put(s.(owner := s.owner[q := r]), r, RefreshTask(k))
  }

  function ServeStale(s: State, t: TaskId, stale: Response): State
    requires t in s.tasks
  {
    SetPc(s.(n := s.n.(servedStale := s.n.servedStale + 1)), t, Replied(Some(stale), StaleHit, s.now))
  }

  function AfterClaimPrefetch(s: State, t: TaskId, r: TaskId): State
    requires t in s.tasks && s.tasks[t].pc.HitClaim? && s.tasks[t].key.Some?
  {
    var k := s.tasks[t];
    var (slots, claimed) := ClaimSlot(s.inFlight, k.key.value);
    var done := SetPc(s.(inFlight := slots), t, Replied(Some(k.pc.hit), Hit, s.now));
    if claimed then Spawned(done.(n := s.n.(prefetches := s.n.prefetches + 1)), k.key.value, k, r) else done
  }

  function AfterClaimStale(s: State, t: TaskId, r: TaskId): State
    requires t in s.tasks && s.tasks[t].pc.StaleClaim? && s.tasks[t].key.Some?
  {
    var k := s.tasks[t];
    var (slots, claimed) := ClaimSlot(s.inFlight, k.key.value);
    var s1 := s.(inFlight := slots);
    if claimed then Spawned(Put(s1, t, k.(pc := StaleWait(k.pc.stale, r, s.now + RESPONSE_TIMER), via := r)), k.key.value, k, r)
    else ServeStale(s1, t, k.pc.stale)
  }

  function AfterJoin(s: State, t: TaskId): State
    requires t in s.tasks && s.tasks[t].key.Some?
  {
    var k := s.tasks[t];
    var (flights, role) := JoinFlight(s.flights, k.key.value, t);
    match role
    case Follower(f) => Put(s.(flights := flights), t, k.(pc := Following(f, |Messages(s, f)|), via := f))
    case Leader => SetPc(s.(flights := flights, sent := s.sent[t := []]), t, Leading(Asking))
  }

  /** A reply, or `None` when every upstream failed; only a keyed reply goes on to the cache. */
  function AfterReply(s: State, t: TaskId, reply: Option<Response>): State
    requires WorkingTask(s, t)
  {
    var k := s.tasks[t];
    var log := s.log + {LogEntry(t, k.key, k.query.checkingDisabled, reply)};
    match reply
    case None => SetPc(s.(log := log, n := s.n.(upstreamFailed := s.n.upstreamFailed + 1)), t, WithWork(k.pc, Returned(None)))
    case Some(r) => SetPc(s.(log := log), t, WithWork(k.pc, if k.key.Some? then Answered(r) else Returned(reply)))
  }

  function AfterWrite(s: State, t: TaskId): State
    requires WorkingTask(s, t) && s.tasks[t].pc.work.Stamped? && s.tasks[t].key.Some?
  {
    var k := s.tasks[t];
    var w := k.pc.work;
    SetPc(s.(cache := Kept(s.cache, k.key.value, w.resp, w.at)), t, WithWork(k.pc, Returned(Some(w.resp))))
  }

  /** The resolution is over: a leader takes its channel out of the map, a refresh frees its slot. */
  function AfterSettle(s: State, t: TaskId): State
    requires WorkingTask(s, t) && s.tasks[t].pc.work.Returned? && (s.tasks[t].pc.Solo? || s.tasks[t].key.Some?)
  {
    var k := s.tasks[t];
    var v := k.pc.work.reply;
    match k.pc
    case Leading(_) => SetPc(s.(flights := EndFlight(s.flights, k.key.value)), t, Closing(v))
    case Refreshing(_) =>
      SetPc(s.(inFlight := FreeSlot(s.inFlight, k.key.value), owner := s.owner - {k.key.value}), t, Freed(v))
    case Solo(_) => SetPc(s, t, Replied(v, if k.key.Some? then Miss else Uncached, s.now))
  }

  function AfterPublish(s: State, t: TaskId): State
    requires t in s.tasks && s.tasks[t].pc.Closing?
  {
    var v := s.tasks[t].pc.value;
    SetPc(s.(sent := s.sent[t := Messages(s, t) + [v]]), t, Replied(v, Miss, s.now))
  }

  ghost function AfterReceive(s: State, t: TaskId): State
    requires t in s.tasks && s.tasks[t].pc.Following?
  {
    var k := s.tasks[t];
    match Recv(s, k.pc.leader, k.pc.next)
    case Message(v) => SetPc(s, t, Replied(v, Miss, s.now))
    case RecvError => Put(s, t, k.(pc := Solo(Asking), via := t))
    case Pending => s
  }

  function AfterAwaitRefresh(s: State, t: TaskId): State
    requires t in s.tasks && s.tasks[t].pc.StaleWait? && RefreshDone(s, s.tasks[t].pc.refresh)
  {
    var k := s.tasks[t];
    match s.tasks[k.pc.refresh].pc.value
    case Some(r) => SetPc(s, t, Replied(Some(r), StaleHit, s.now))
    case None => ServeStale(s, t, k.pc.stale)
  }

  ghost function Apply(cfg: Config, s: State, a: Step): State
    requires Enabled(s, a)
  {
    match a
    case Tick(to) => s.(now := to)
    case Evict(q) => s.(cache := s.cache - {q})
    case Arrive(t, query) => Put(s, t, Task(query, CacheKey(cfg, query), Arrived, t, None))
    case Lookup(t) => AfterLookup(cfg, s, t)
    case ClaimPrefetch(t, r) => AfterClaimPrefetch(s, t, r)
    case ClaimStale(t, r) => AfterClaimStale(s, t, r)
    case Join(t) => AfterJoin(s, t)
    case UpstreamReply(t, reply) => AfterReply(s, t, reply)
    case Stamp(t) => SetPc(s, t, WithWork(s.tasks[t].pc, Stamped(s.tasks[t].pc.work.resp, s.now)))
    case Write(t) => AfterWrite(s, t)
    case Settle(t) => AfterSettle(s, t)
    case Publish(t) => AfterPublish(s, t)
    case Finish(t) => SetPc(s, t, Finished(s.tasks[t].pc.value))
    case Receive(t) => AfterReceive(s, t)
    case AwaitRefresh(t) => AfterAwaitRefresh(s, t)
    case Timer(t) => ServeStale(s, t, s.tasks[t].pc.stale)
    case Drop(t) => SetPc(s, t, Dropped)
  }

  /** A run: states joined by enabled steps, from the empty pool. */
  ghost predicate Run(cfg: Config, states: seq<State>, steps: seq<Step>) {
    && |states| == |steps| + 1 && states[0] == INIT
    && forall i :: 0 <= i < |steps| ==> Enabled(states[i], steps[i]) && states[i + 1] == Apply(cfg, states[i], steps[i])
  }

  // ---------------------------------------------------------------- what a step can touch

  /** Only task `t` moved, keeping its question; at most a refresh task is new. */
  ghost predicate Moved(s: State, s': State, t: TaskId) {
    && t in s.tasks && t in s'.tasks
    && s'.tasks[t].key == s.tasks[t].key && s'.tasks[t].query == s.tasks[t].query
    && (forall u :: u in s.tasks && u != t ==> u in s'.tasks && s'.tasks[u] == s.tasks[u])
    && (forall u :: u in s'.tasks && u !in s.tasks ==> s'.tasks[u].pc == Refreshing(Asking))
  }

  /** No channel changed. */
  ghost predicate ChannelsKept(s: State, s': State) {
    s'.flights == s.flights && s'.sent == s.sent
  }

  /** No task is new and neither slots, cache nor history changed. */
  ghost predicate StoresKept(s: State, s': State) {
    && s'.inFlight == s.inFlight && s'.owner == s.owner && s'.cache == s.cache && s'.log == s.log && s'.now == s.now
    && s'.tasks.Keys == s.tasks.Keys
  }

  /** What a lookup leaves a client with. */
  ghost predicate LookedUp(cfg: Config, s: State, k: Task, k': Task) {
    && k'.via == k.via
    && match k.key
       case None => k'.pc == Solo(Asking)
       case Some(q) =>
         && (k'.pc == Joining || (q in s.cache && k'.seen == Some(Seen(s.cache[q], s.now))))
         && (k'.pc == Joining
           || (k'.pc.HitClaim? && FreshAnswer(cfg, q, s.cache[q], s.now, k'.pc.hit))
           || (k'.pc.StaleClaim? && StaleAnswer(cfg, q, s.cache[q], s.now, k'.pc.stale))
           || (k'.pc.Replied? && k'.pc.status == Hit && k'.pc.reply.Some? && k'.pc.repliedAt == s.now
               && FreshAnswer(cfg, q, s.cache[q], s.now, k'.pc.reply.value)))
  }

  /** A reply rebuilt from an entry that a lookup at `at` found fresh, or stale. */
  ghost predicate FreshAnswer(cfg: Config, q: Question, e: Entry, at: nat, resp: Response) {
    var l := LookupEntry(e, at, cfg.staleWindow);
    l.Some? && l.value.Fresh? && BuildCached(q, l.value.snapshot) == Some(resp)
  }

  ghost predicate StaleAnswer(cfg: Config, q: Question, e: Entry, at: nat, resp: Response) {
    var l := LookupEntry(e, at, cfg.staleWindow);
    l.Some? && l.value.Stale? && BuildCached(q, l.value.snapshot) == Some(resp)
  }

  lemma LookupEffect(cfg: Config, s: State, t: TaskId)
    requires t in s.tasks
    ensures var s' := AfterLookup(cfg, s, t);
      && Moved(s, s', t) && ChannelsKept(s, s') && StoresKept(s, s') && LookedUp(cfg, s, s.tasks[t], s'.tasks[t])
      && s'.n == LookupOutcome(cfg, s, s.tasks[t]).0 && s'.tasks[t] == LookupOutcome(cfg, s, s.tasks[t]).1
  {
    OutcomeKinds(cfg, s, s.tasks[t]);
    hide LookupOutcome, LookedUp;
  }

  lemma OutcomeKinds(cfg: Config, s: State, k: Task)
    ensures var k' := LookupOutcome(cfg, s, k).1; k'.key == k.key && k'.query == k.query && LookedUp(cfg, s, k, k')
  {
    hide LookupEntry, BuildCached;
  }

  function ServedOne(n: Counters): Counters { n.(servedStale := n.servedStale + 1) }

  lemma ServeStaleEffect(s: State, t: TaskId, stale: Response)
    requires t in s.tasks
    ensures var s' := ServeStale(s, t, stale);
      && Moved(s, s', t) && ChannelsKept(s, s') && StoresKept(s, s')
      && s'.tasks[t] == s.tasks[t].(pc := Replied(Some(stale), StaleHit, s.now)) && s'.n == ServedOne(s.n)
  {
  }

  /** A slot claimed for a new refresh task. */
  ghost predicate Claimed(s: State, s': State, k: Task, r: TaskId)
    requires k.key.Some?
  {
    && s'.inFlight == s.inFlight + {k.key.value} && s'.owner == s.owner[k.key.value := r]
    && s'.cache == s.cache && s'.log == s.log && s'.now == s.now
    && s'.tasks.Keys == s.tasks.Keys + {r} && s'.tasks[r] == RefreshTask(k)
  }

  lemma PrefetchEffect(s: State, t: TaskId, r: TaskId)
    requires Enabled(s, ClaimPrefetch(t, r))
    ensures var s' := AfterClaimPrefetch(s, t, r); var k := s.tasks[t];
      && Moved(s, s', t) && ChannelsKept(s, s')
      && s'.tasks[t] == k.(pc := Replied(Some(k.pc.hit), Hit, s.now))
      && if k.key.value in s.inFlight then StoresKept(s, s') && s'.n == s.n
         else Claimed(s, s', k, r) && s'.n == s.n.(prefetches := s.n.prefetches + 1)
  {
    var q := s.tasks[t].key.value;
    assert q in s.inFlight ==> s.inFlight + {q} == s.inFlight;
  }

  lemma StaleClaimEffect(s: State, t: TaskId, r: TaskId)
    requires Enabled(s, ClaimStale(t, r))
    ensures var s' := AfterClaimStale(s, t, r); var k := s.tasks[t];
      && Moved(s, s', t) && ChannelsKept(s, s')
      && if k.key.value in s.inFlight
         then StoresKept(s, s') && s'.n == ServedOne(s.n) && s'.tasks[t] == k.(pc := Replied(Some(k.pc.stale), StaleHit, s.now))
         else Claimed(s, s', k, r) && s'.n == s.n && s'.tasks[t] == k.(pc := StaleWait(k.pc.stale, r, s.now + RESPONSE_TIMER), via := r)
  {
    var q := s.tasks[t].key.value;
    assert q in s.inFlight ==> s.inFlight + {q} == s.inFlight;
  }

  lemma ReplyEffect(s: State, t: TaskId, reply: Option<Response>)
    requires Enabled(s, UpstreamReply(t, reply))
    ensures var s' := AfterReply(s, t, reply); var k := s.tasks[t];
      && Moved(s, s', t) && ChannelsKept(s, s') && StoresKept(s.(log := s.log + {LogEntry(t, k.key, k.query.checkingDisabled, reply)}), s')
      && s'.tasks[t] == k.(pc := WithWork(k.pc,
           if reply.Some? && k.key.Some? then Answered(reply.value) else Returned(reply)))
      && s'.n == if reply.None? then s.n.(upstreamFailed := s.n.upstreamFailed + 1) else s.n
  {
  }

  lemma WriteEffect(s: State, t: TaskId)
    requires Enabled(s, Write(t))
    ensures var s' := AfterWrite(s, t); var k := s.tasks[t]; var w := k.pc.work;
      && Moved(s, s', t) && ChannelsKept(s, s')
      && StoresKept(s.(cache := Kept(s.cache, k.key.value, w.resp, w.at)), s')
      && s'.tasks[t] == k.(pc := WithWork(k.pc, Returned(Some(w.resp)))) && s'.n == s.n
  {
    hide Kept;
  }

  /** Where a task goes when its resolution is over. */
  function Settled(s: State, k: Task, v: Option<Response>): Pc {
    if k.pc.Leading? then Closing(v)
    else if k.pc.Refreshing? then Freed(v)
    else Replied(v, if k.key.Some? then Miss else Uncached, s.now)
  }

  lemma SettleEffect(s: State, t: TaskId)
    requires Enabled(s, Settle(t))
    ensures var s' := AfterSettle(s, t); var k := s.tasks[t];
      && Moved(s, s', t) && s'.cache == s.cache && s'.log == s.log && s'.now == s.now && s'.tasks.Keys == s.tasks.Keys
      && s'.sent == s.sent && s'.flights == (if k.pc.Leading? then EndFlight(s.flights, k.key.value) else s.flights)
      && s'.tasks[t] == k.(pc := Settled(s, k, k.pc.work.reply)) && s'.n == s.n
  {
  }

  lemma PublishEffect(s: State, t: TaskId)
    requires Enabled(s, Publish(t))
    ensures var s' := AfterPublish(s, t); var k := s.tasks[t];
      && Moved(s, s', t) && StoresKept(s, s') && s'.n == s.n
      && s'.flights == s.flights && s'.sent == s.sent[t := Messages(s, t) + [k.pc.value]]
      && s'.tasks[t] == k.(pc := Replied(k.pc.value, Miss, s.now))
  {
    hide Messages;
  }

  lemma JoinEffect(s: State, t: TaskId)
    requires Enabled(s, Join(t))
    ensures var s' := AfterJoin(s, t); var k := s.tasks[t]; var q := k.key.value;
      && Moved(s, s', t) && StoresKept(s, s') && s'.n == s.n
      && if q in s.flights
         then ChannelsKept(s, s') && s'.tasks[t] == k.(pc := Following(s.flights[q], |Messages(s, s.flights[q])|), via := s.flights[q])
         else s'.flights == s.flights[q := t] && s'.sent == s.sent[t := []] && s'.tasks[t] == k.(pc := Leading(Asking))
  {
    hide Messages;
  }

  lemma AwaitEffect(s: State, t: TaskId)
    requires Enabled(s, AwaitRefresh(t))
    ensures var s' := AfterAwaitRefresh(s, t); var k := s.tasks[t]; var v := s.tasks[k.pc.refresh].pc.value;
      && Moved(s, s', t) && ChannelsKept(s, s') && StoresKept(s, s')
      && s'.tasks[t] == k.(pc := Replied(Some(if v.Some? then v.value else k.pc.stale), StaleHit, s.now))
      && s'.n == if v.Some? then s.n else ServedOne(s.n)
  {
  }

  /** The steps that use the single-flight map or a channel's sender. */
  predicate OnChannels(a: Step) { a.Join? || a.Settle? || a.Publish? }

  /** All other steps of a task move that task only. */
  lemma OffChannels(cfg: Config, s: State, a: Step)
    requires Enabled(s, a) && !OnChannels(a) && !a.Tick? && !a.Evict? && !a.Arrive?
    ensures Moved(s, Apply(cfg, s, a), a.t) && ChannelsKept(s, Apply(cfg, s, a)) && !s.tasks[a.t].pc.Dropped?
  {
    hide Recv, AfterLookup, AfterClaimPrefetch, AfterClaimStale, AfterReply, AfterWrite, AfterAwaitRefresh,
      StoresKept, LookedUp, Claimed, Moved, ChannelsKept;
    match a
    case Lookup(t) => LookupEffect(cfg, s, t);
    case ClaimPrefetch(t, r) => PrefetchEffect(s, t, r);
    case ClaimStale(t, r) => StaleClaimEffect(s, t, r);
    case UpstreamReply(t, reply) => ReplyEffect(s, t, reply);
    case Write(t) => WriteEffect(s, t);
    case AwaitRefresh(t) => AwaitEffect(s, t);
    case Timer(t) => ServeStaleEffect(s, t, s.tasks[t].pc.stale);
    case Stamp(t) => PcEffect(s, t, WithWork(s.tasks[t].pc, Stamped(s.tasks[t].pc.work.resp, s.now)));
    case Finish(t) => PcEffect(s, t, Finished(s.tasks[t].pc.value));
    case Receive(t) => ReceiveEffect(s, t);
    case Drop(t) => PcEffect(s, t, Dropped);
  }

  lemma PcEffect(s: State, t: TaskId, pc: Pc)
    requires t in s.tasks
    ensures var s' := SetPc(s, t, pc);
      && Moved(s, s', t) && ChannelsKept(s, s') && StoresKept(s, s') && s'.tasks[t] == s.tasks[t].(pc := pc)
      && s'.n == s.n
  {
  }

  lemma ReceiveEffect(s: State, t: TaskId)
    requires t in s.tasks && s.tasks[t].pc.Following?
    ensures var s' := AfterReceive(s, t);
      && Moved(s, s', t) && ChannelsKept(s, s') && StoresKept(s, s') && s'.n == s.n
      && (s'.tasks[t].pc.Following? || s'.tasks[t].pc == Solo(Asking) || (s'.tasks[t].pc.Replied? && s'.tasks[t].pc.status == Miss))
      && var k := s.tasks[t]; var r := Recv(s, k.pc.leader, k.pc.next);
        (r.Message? ==> s'.tasks[t] == k.(pc := Replied(r.value, Miss, s.now)))
  {
    var k := s.tasks[t];
    var k' := match Recv(s, k.pc.leader, k.pc.next)
      case Message(v) => k.(pc := Replied(v, Miss, s.now))
      case RecvError => k.(pc := Solo(Asking), via := t)
      case Pending => k;
    hide Recv;
    assert s.tasks[t := k] == s.tasks;
    assert AfterReceive(s, t) == Put(s, t, k');
    hide AfterReceive;
    PutEffect(s, t, k');
  }

  lemma PutEffect(s: State, t: TaskId, k': Task)
    requires t in s.tasks && k'.key == s.tasks[t].key && k'.query == s.tasks[t].query
    ensures var s' := Put(s, t, k');
      Moved(s, s', t) && ChannelsKept(s, s') && StoresKept(s, s') && s'.n == s.n && s'.tasks[t] == k'
  {
  }

  /** The step of a task moves that task only. */
  lemma StepMoves(cfg: Config, s: State, a: Step)
    requires Enabled(s, a) && !a.Tick? && !a.Evict? && !a.Arrive?
    ensures Moved(s, Apply(cfg, s, a), a.t)
  {
    if OnChannels(a) {
      ChannelStepMoves(cfg, s, a);
    } else {
      hide Moved, Apply;
      OffChannels(cfg, s, a);
    }
  }

  lemma ChannelStepMoves(cfg: Config, s: State, a: Step)
    requires Enabled(s, a) && OnChannels(a)
    ensures Moved(s, Apply(cfg, s, a), a.t)
  {
    hide AfterJoin, AfterSettle, AfterPublish, Moved;
    if a.Join? {
      JoinEffect(s, a.t);
    } else if a.Settle? {
      SettleEffect(s, a.t);
    } else {
      PublishEffect(s, a.t);
    }
  }

  // ---------------------------------------------------------------- the locked regions

  /** The pool's shared sets, changed under their locks: the refresh slots and the map of
      open flights. A channel is named by the task that opened it. */
  class Inner {
    var inFlight: set<Question>
    var singleFlight: map<Question, TaskId>

    constructor ()
      ensures inFlight == INIT.inFlight && singleFlight == INIT.flights
    {
      inFlight := {};
      singleFlight := map[];
    }

    method TryClaimRefresh(q: Question) returns (claimed: bool)
      modifies this
      ensures (inFlight, claimed) == ClaimSlot(old(inFlight), q) && singleFlight == old(singleFlight)
    {
      claimed := q !in inFlight;
      inFlight := inFlight + {q};
    }

    /** Dropping the guard. */
    method ReleaseRefresh(q: Question)
      modifies this
      ensures inFlight == FreeSlot(old(inFlight), q) && singleFlight == old(singleFlight)
    {
      inFlight := inFlight - {q};
    }

    method JoinOrLead(q: Question, t: TaskId) returns (role: Role)
      modifies this
      ensures (singleFlight, role) == JoinFlight(old(singleFlight), q, t) && inFlight == old(inFlight)
    {
      if q in singleFlight {
        role := Follower(singleFlight[q]);
      } else {
        singleFlight := singleFlight[q := t];
        role := Leader;
      }
    }

    method CloseFlight(q: Question)
      modifies this
      ensures singleFlight == EndFlight(old(singleFlight), q) && inFlight == old(inFlight)
    {
      singleFlight := singleFlight - {q};
    }
  }

  ghost predicate ClaimRegion(s: State, s': State, k: Task, r: TaskId) {
    k.key.Some? && (s'.inFlight, r in s'.tasks) == ClaimSlot(s.inFlight, k.key.value) && s'.flights == s.flights
  }

  ghost predicate JoinRegion(s: State, s': State, k: Task, t: TaskId) {
    && k.key.Some? && s'.inFlight == s.inFlight && t in s'.tasks
    && var pc := s'.tasks[t].pc;
      && (pc.Leading? || pc.Following?)
      && (s'.flights, if pc.Following? then Follower(pc.leader) else Leader) == JoinFlight(s.flights, k.key.value, t)
  }

  ghost predicate SettleRegion(s: State, s': State, k: Task) {
    && s'.inFlight == (if k.pc.Refreshing? && k.key.Some? then FreeSlot(s.inFlight, k.key.value) else s.inFlight)
    && s'.flights == if k.pc.Leading? && k.key.Some? then EndFlight(s.flights, k.key.value) else s.flights
  }

  /** What the protocol does to the shared sets is what the locked regions do: a claim
      spawns exactly when the region claims, a joiner leads exactly when the region says
      so, and settling releases exactly what the task holds. */
  lemma StepsAreRegions(cfg: Config, s: State, a: Step)
    requires Enabled(s, a) && (a.ClaimPrefetch? || a.ClaimStale? || a.Join? || a.Settle?)
    ensures var k := s.tasks[a.t];
      match a
      case Join(t) => JoinRegion(s, Apply(cfg, s, a), k, t)
      case Settle(_) => SettleRegion(s, Apply(cfg, s, a), k)
      case _ => ClaimRegion(s, Apply(cfg, s, a), k, a.r)
  {
    if a.ClaimPrefetch? {
      hide AfterClaimPrefetch, Moved;
      PrefetchEffect(s, a.t, a.r);
    } else if a.ClaimStale? {
      hide AfterClaimStale, Moved;
      StaleClaimEffect(s, a.t, a.r);
    }
  }
}
