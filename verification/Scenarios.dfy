/** Runs of the pool that reach what the invariants leave possible: a flight whose leader is
    gone, and an answer fetched with the other CD bit. */
module Scenarios {
  import opened Text
  import opened Dns
  import opened Cache
  import opened Pool
  import Flights
  import Provenance

  /** A run goes on with any enabled step. */
  lemma Extended(cfg: Config, states: seq<State>, steps: seq<Step>, a: Step)
    requires Run(cfg, states, steps) && Enabled(states[|steps|], a)
    ensures Run(cfg, states + [Apply(cfg, states[|steps|], a)], steps + [a])
  {
    var states' := states + [Apply(cfg, states[|steps|], a)];
    var steps' := steps + [a];
    forall i | 0 <= i < |steps'| ensures Enabled(states'[i], steps'[i]) && states'[i + 1] == Apply(cfg, states'[i], steps'[i]) {
      if i < |steps| {
        assert states'[i] == states[i] && states'[i + 1] == states[i + 1] && steps'[i] == steps[i];
      }
    }
  }

  ghost predicate Reachable(cfg: Config, s: State) {
    exists states, steps :: Run(cfg, states, steps) && states[|steps|] == s
  }

  lemma InitReachable(cfg: Config)
    ensures Reachable(cfg, INIT)
  {
    assert Run(cfg, [INIT], []);
  }

  lemma StepReachable(cfg: Config, s: State, a: Step)
    requires Reachable(cfg, s) && Enabled(s, a)
    ensures Reachable(cfg, Apply(cfg, s, a))
  {
    var states, steps :| Run(cfg, states, steps) && states[|steps|] == s;
    Extended(cfg, states, steps, a);
    hide Run, Apply, Enabled;
    assert (states + [Apply(cfg, s, a)])[|steps + [a]|] == Apply(cfg, s, a);
  }

  // ---------------------------------------------------------------- one leader

  /** The pool with a single task of that query, at that place, under that cache and log. */
  function Lone(cfg: Config, query: Query, pc: Pc): State
    requires CacheKey(cfg, query).Some?
  {
    var q := CacheKey(cfg, query).value;
    State(0, map[], {}, map[], map[q := 0], map[0 := []],
      map[0 := Task(query, Some(q), pc, 0, None)], {}, Counters(1, 0, 1, 0, 0, 0, 0, 0))
  }

  /** A first cacheable query misses and leads a flight. */
  lemma LeaderReachable(cfg: Config, query: Query)
    requires CacheKey(cfg, query).Some?
    ensures Reachable(cfg, Lone(cfg, query, Leading(Asking)))
  {
    var q := CacheKey(cfg, query).value;
    InitReachable(cfg);
    var s1 := Apply(cfg, INIT, Arrive(0, query));
    StepReachable(cfg, INIT, Arrive(0, query));
    var s2 := Apply(cfg, s1, Lookup(0));
    StepReachable(cfg, s1, Lookup(0));
    hide Reachable;
    assert s2.tasks[0] == Task(query, Some(q), Joining, 0, None);
    StepReachable(cfg, s2, Join(0));
    assert Apply(cfg, s2, Join(0)) == Lone(cfg, query, Leading(Asking));
  }

  /** Every cacheable query can come to lead a flight and be dropped: the question's flight
      is then abandoned. */
  lemma AbandonedReachable(cfg: Config, query: Query)
    requires CacheKey(cfg, query).Some?
    ensures exists s :: Reachable(cfg, s) && Flights.Abandoned(s, CacheKey(cfg, query).value, 0)
  {
    LeaderReachable(cfg, query);
    var s := Lone(cfg, query, Leading(Asking));
    StepReachable(cfg, s, Drop(0));
    hide Reachable;
    assert Flights.Abandoned(Apply(cfg, s, Drop(0)), CacheKey(cfg, query).value, 0);
  }

  // ---------------------------------------------------------------- the CD bit

  /** The client was answered, and every upstream answer so far was to a query with the
      other CD bit. */
  ghost predicate Crossed(s: State, t: TaskId) {
    && t in s.tasks && s.tasks[t].pc.Replied? && s.tasks[t].pc.reply.Some?
    && forall e :: e in s.log && e.reply.Some? ==> e.checkingDisabled != s.tasks[t].query.checkingDisabled
  }

  function OtherBit(query: Query): Query { query.(checkingDisabled := !query.checkingDisabled) }

  /** An answer that is kept for a minute. */
  function Example(q: Question): Response {
    Response(NoError, false, [q], [Record(q.name, 60, AData(1))], [], [])
  }

  function ExampleEntry(q: Question): Entry {
    Entry([Record(q.name, 60, AData(1))], [], NoError, 0, 60 * SEC)
  }

  lemma ExampleKept(q: Question)
    ensures EntryOf(Example(q), 0) == Some(ExampleEntry(q)) && Kept(map[], q, Example(q), 0) == map[q := ExampleEntry(q)]
  {
    assert Ttls(Example(q).answers) == [60];
  }

  lemma ExampleServed(q: Question, window: nat)
    ensures LookupEntry(ExampleEntry(q), 0, window) == Some(Fresh(Snapshot(NoError, false, Example(q).answers, []), false))
    ensures BuildCached(q, Snapshot(NoError, false, Example(q).answers, [])) == Some(Example(q))
  {
    assert Cache.Stamp(Example(q).answers, 60) == Example(q).answers && Cache.Stamp([], 60) == [];
  }

  /** The leader's answer reaches the cache. */
  function Filled(cfg: Config, query: Query): State
    requires CacheKey(cfg, query).Some?
  {
    var q := CacheKey(cfg, query).value;
    Lone(cfg, query, Leading(Returned(Some(Example(q))))).(
      cache := map[q := ExampleEntry(q)],
      log := {LogEntry(0, Some(q), query.checkingDisabled, Some(Example(q)))})
  }

  lemma FilledReachable(cfg: Config, query: Query)
    requires CacheKey(cfg, query).Some?
    ensures Reachable(cfg, Filled(cfg, query))
  {
    var q := CacheKey(cfg, query).value;
    LeaderReachable(cfg, query);
    hide Reachable, EntryOf;
    ExampleKept(q);
    var s := Lone(cfg, query, Leading(Asking));
    var a := UpstreamReply(0, Some(Example(q)));
    StepReachable(cfg, s, a);
    var s1 := Apply(cfg, s, a);
    StepReachable(cfg, s1, Stamp(0));
    var s2 := Apply(cfg, s1, Stamp(0));
    StepReachable(cfg, s2, Write(0));
    assert Apply(cfg, s2, Write(0)) == Filled(cfg, query);
  }

  /** A query with one CD bit fills the cache, and the same question with the other bit is
      a hit on it. */
  lemma HitAcrossCd(cfg: Config, query: Query)
    requires cfg.cacheEnabled && !query.dnssecOk && |query.questions| == 1
    ensures exists s :: Reachable(cfg, s) && Crossed(s, 1) && s.tasks[1].query == query && s.tasks[1].pc.status == Hit
  {
    var q := CacheKey(cfg, query).value;
    FilledReachable(cfg, OtherBit(query));
    hide Reachable, LookupEntry, BuildCached;
    var s := Filled(cfg, OtherBit(query));
    StepReachable(cfg, s, Arrive(1, query));
    var s1 := Apply(cfg, s, Arrive(1, query));
    StepReachable(cfg, s1, Lookup(1));
    ExampleServed(q, cfg.staleWindow);
    var s2 := Apply(cfg, s1, Lookup(1));
    assert s2.tasks[1].pc == Replied(Some(Example(q)), Hit, 0);
    assert Crossed(s2, 1);
  }

  /** Every task carries the key of its query. */
  ghost predicate Keyed(cfg: Config, s: State) {
    forall t :: t in s.tasks ==> s.tasks[t].key == CacheKey(cfg, s.tasks[t].query)
  }

  lemma StepKeepsKeys(cfg: Config, s: State, a: Step)
    requires Keyed(cfg, s) && Enabled(s, a)
    ensures Keyed(cfg, Apply(cfg, s, a))
  {
    if a.Tick? || a.Evict? || a.Arrive? {
    } else if a.ClaimPrefetch? {
      hide AfterClaimPrefetch;
      PrefetchEffect(s, a.t, a.r);
    } else if a.ClaimStale? {
      hide AfterClaimStale;
      StaleClaimEffect(s, a.t, a.r);
    } else {
      StepMoves(cfg, s, a);
      NoNewTask(cfg, s, a);
      hide Apply, CacheKey;
    }
  }

  /** Only claims and arrivals bring tasks. */
  lemma NoNewTask(cfg: Config, s: State, a: Step)
    requires Enabled(s, a) && !a.ClaimPrefetch? && !a.ClaimStale? && !a.Tick? && !a.Evict? && !a.Arrive?
    ensures Apply(cfg, s, a).tasks.Keys == s.tasks.Keys
  {
    hide Recv, AfterLookup, AfterReceive, AfterAwaitRefresh, AfterReply, AfterWrite, AfterSettle, AfterPublish, AfterJoin,
      ServeStale, Moved, ChannelsKept, LookedUp, SetPc;
    if a.Lookup? {
      LookupEffect(cfg, s, a.t);
    } else if a.Receive? {
      ReceiveEffect(s, a.t);
    } else if a.AwaitRefresh? {
      AwaitEffect(s, a.t);
    } else if a.UpstreamReply? {
      ReplyEffect(s, a.t, a.reply);
    } else if a.Write? {
      WriteEffect(s, a.t);
    } else if a.Timer? {
      ServeStaleEffect(s, a.t, s.tasks[a.t].pc.stale);
    } else if a.Settle? {
      SettleEffect(s, a.t);
    } else if a.Publish? {
      PublishEffect(s, a.t);
    } else if a.Join? {
      JoinEffect(s, a.t);
    } else if a.Stamp? {
      PcEffect(s, a.t, WithWork(s.tasks[a.t].pc, Stamped(s.tasks[a.t].pc.work.resp, s.now)));
    } else if a.Finish? {
      PcEffect(s, a.t, Finished(s.tasks[a.t].pc.value));
    } else {
      PcEffect(s, a.t, Dropped);
    }
  }

  lemma {:induction false} RunKeys(cfg: Config, states: seq<State>, steps: seq<Step>, i: nat)
    requires Run(cfg, states, steps) && i < |states|
    ensures Keyed(cfg, states[i])
  {
    if i > 0 {
      RunKeys(cfg, states, steps, i - 1);
      hide Keyed, Apply, Enabled;
      StepKeepsKeys(cfg, states[i - 1], steps[i - 1]);
      assert states[i - 1 + 1] == states[i];
    }
  }

  // ---------------------------------------------------------------- who uses the cache

  /** In every run: a reply to a query with DNSSEC-OK set, or without exactly one question, or
      without a cache, is uncached: it is what upstream answered this very client, whole, and
      the client never looked at an entry. */
  lemma BypassesTheCache(cfg: Config, states: seq<State>, steps: seq<Step>, i: nat, t: TaskId)
    requires Run(cfg, states, steps) && i < |states| && t in states[i].tasks && states[i].tasks[t].pc.Replied?
    requires var query := states[i].tasks[t].query; query.dnssecOk || |query.questions| != 1 || !cfg.cacheEnabled
    ensures var k := states[i].tasks[t]; k.pc.status == Uncached && Provenance.LoggedOwn(states[i], t, k, k.pc.reply) && k.key == None
  {
    RunKeys(cfg, states, steps, i);
    Provenance.RepliesAccountedFor(cfg, states, steps, i, t);
    hide Run;
  }

  /** And a reply to any other query is a hit, a miss or stale on its one question. */
  lemma UsesTheCache(cfg: Config, states: seq<State>, steps: seq<Step>, i: nat, t: TaskId)
    requires Run(cfg, states, steps) && i < |states| && t in states[i].tasks
    requires var query := states[i].tasks[t].query; cfg.cacheEnabled && !query.dnssecOk && |query.questions| == 1
    ensures var k := states[i].tasks[t]; k.key == Some(k.query.questions[0]) && (k.pc.Replied? ==> k.pc.status != Uncached)
  {
    RunKeys(cfg, states, steps, i);
    if states[i].tasks[t].pc.Replied? {
      Provenance.RepliesAccountedFor(cfg, states, steps, i, t);
    }
    hide Run;
  }

  /** A client whose query is not cacheable is answered with its own CD bit, always. */
  lemma UncachedKeepsCd(cfg: Config, s: State, t: TaskId)
    requires Reachable(cfg, s) && Crossed(s, t)
    ensures var query := s.tasks[t].query; cfg.cacheEnabled && !query.dnssecOk && |query.questions| == 1
  {
    var states, steps :| Run(cfg, states, steps) && states[|steps|] == s;
    Provenance.RepliesAccountedFor(cfg, states, steps, |steps|, t);
    RunKeys(cfg, states, steps, |steps|);
    hide Run;
  }

  /** The CD bit is not part of the cache key: a query can be answered from a resolution
      that was asked with the other bit exactly when there is a cache, its DNSSEC-OK bit is
      clear and it has one question. */
  lemma CdCrossesByKey(cfg: Config, query: Query)
    ensures (exists s, t :: AnsweredAcross(cfg, s, t, query)) <==> (cfg.cacheEnabled && !query.dnssecOk && |query.questions| == 1)
  {
    if cfg.cacheEnabled && !query.dnssecOk && |query.questions| == 1 {
      HitAcrossCd(cfg, query);
      hide Reachable, Crossed;
      var s :| Reachable(cfg, s) && Crossed(s, 1) && s.tasks[1].query == query && s.tasks[1].pc.status == Hit;
      assert AnsweredAcross(cfg, s, 1, query);
    }
    if s, t :| AnsweredAcross(cfg, s, t, query) {
      UncachedKeepsCd(cfg, s, t);
    }
  }

  ghost predicate AnsweredAcross(cfg: Config, s: State, t: TaskId, query: Query) {
    Reachable(cfg, s) && Crossed(s, t) && s.tasks[t].query == query
  }
}
