/** The pool's counters over every run. */
module PoolCounts {
  import opened Text
  import opened Dns
  import opened Cache
  import opened Pool
  import Flights
  import Refreshes
  import Provenance

  /** The tasks whose place satisfies `p`. */
  function Pending(s: State, p: Pc -> bool): set<TaskId> {
    set t | t in s.tasks && p(s.tasks[t].pc)
  }

  predicate Claiming(pc: Pc) { pc.HitClaim? }
  predicate HoldingStale(pc: Pc) { pc.StaleClaim? || pc.StaleWait? }

  /** A step of one task changes who is pending by that task at most. */
  lemma PendingMoved(s: State, s': State, t: TaskId, p: Pc -> bool)
    requires Moved(s, s', t) && !p(Refreshing(Asking))
    ensures |Pending(s', p)| + One(p(s.tasks[t].pc)) == |Pending(s, p)| + One(p(s'.tasks[t].pc))
  {
    var rest := Pending(s, p) - {t};
    assert Pending(s, p) == if p(s.tasks[t].pc) then rest + {t} else rest;
    assert Pending(s', p) == if p(s'.tasks[t].pc) then rest + {t} else rest by {
      forall u ensures u in Pending(s', p) && u != t <==> u in rest {
      }
    }
  }

  // ---------------------------------------------------------------- invariant

  /** Each lookup is a hit, a miss or stale; prefetches are hits that claimed, and stale
      servings are stale lookups that gave up, so clients still to decide are in hand. */
  ghost predicate CountInv(s: State) {
    && s.n.lookups == s.n.hits + s.n.misses + s.n.staleLookups
    && s.n.prefetches + |Pending(s, Claiming)| <= s.n.hits
    && s.n.servedStale + |Pending(s, HoldingStale)| <= s.n.staleLookups
    && s.n.negativeHits <= s.n.hits + s.n.staleLookups
  }

  /** How a step of a client that is at `pc` and goes to `pc'` may count. */
  ghost predicate Counted(n: Counters, n': Counters, pc: Pc, pc': Pc) {
    && n'.lookups - n.lookups == (n'.hits - n.hits) + (n'.misses - n.misses) + (n'.staleLookups - n.staleLookups)
    && n'.hits - n.hits >= (n'.prefetches - n.prefetches) + One(pc'.HitClaim?) - One(pc.HitClaim?)
    && n'.staleLookups - n.staleLookups >= (n'.servedStale - n.servedStale) + One(HoldingStale(pc')) - One(HoldingStale(pc))
    && n'.negativeHits - n.negativeHits <= (n'.hits - n.hits) + (n'.staleLookups - n.staleLookups)
  }

  /** No lookup finds an entry that cannot be rebuilt, so each is counted once. */
  lemma LookupCounted(cfg: Config, s: State, t: TaskId)
    requires Provenance.ProvInv(cfg, s) && Enabled(s, Lookup(t))
    ensures Counted(s.n, LookupOutcome(cfg, s, s.tasks[t]).0, s.tasks[t].pc, LookupOutcome(cfg, s, s.tasks[t]).1.pc)
  {
    var k := s.tasks[t];
    if k.key.Some? && k.key.value in s.cache {
      var e := s.cache[k.key.value];
      Rebuilt(cfg, s, k.key.value);
      hide LookupEntry, BuildCached;
    }
  }

  lemma Rebuilt(cfg: Config, s: State, q: Question)
    requires Provenance.ProvInv(cfg, s) && q in s.cache
    ensures var l := LookupEntry(s.cache[q], s.now, cfg.staleWindow);
      l.Some? ==> BuildCached(q, l.value.snapshot).Some?
  {
    assert Provenance.Stored(s, q);
    Provenance.DerivedSound(s, q, s.cache[q]);
  }

  lemma ClaimCounted(cfg: Config, s: State, a: Step)
    requires Enabled(s, a) && (a.ClaimPrefetch? || a.ClaimStale? || a.UpstreamReply? || a.Write? || a.Settle?)
    ensures a.t in Apply(cfg, s, a).tasks && Counted(s.n, Apply(cfg, s, a).n, s.tasks[a.t].pc, Apply(cfg, s, a).tasks[a.t].pc)
  {
    hide AfterClaimPrefetch, AfterClaimStale, AfterReply, AfterWrite, AfterSettle, Recv, ChannelsKept, StoresKept, Claimed;
    if a.ClaimPrefetch? {
      PrefetchEffect(s, a.t, a.r);
    } else if a.ClaimStale? {
      StaleClaimEffect(s, a.t, a.r);
    } else if a.UpstreamReply? {
      ReplyEffect(s, a.t, a.reply);
    } else if a.Write? {
      WriteEffect(s, a.t);
    } else {
      SettleEffect(s, a.t);
    }
  }

  lemma WaitCounted(cfg: Config, s: State, a: Step)
    requires Enabled(s, a) && (a.Receive? || a.AwaitRefresh? || a.Timer?)
    ensures a.t in Apply(cfg, s, a).tasks && Counted(s.n, Apply(cfg, s, a).n, s.tasks[a.t].pc, Apply(cfg, s, a).tasks[a.t].pc)
  {
    hide AfterReceive, AfterAwaitRefresh, ServeStale, Recv, ChannelsKept, StoresKept;
    if a.Receive? {
      ReceiveEffect(s, a.t);
    } else if a.AwaitRefresh? {
      AwaitEffect(s, a.t);
    } else {
      ServeStaleEffect(s, a.t, s.tasks[a.t].pc.stale);
    }
  }

  lemma PcCounted(cfg: Config, s: State, a: Step)
    requires Enabled(s, a) && (a.Join? || a.Publish? || a.Stamp? || a.Finish? || a.Drop?)
    ensures a.t in Apply(cfg, s, a).tasks && Counted(s.n, Apply(cfg, s, a).n, s.tasks[a.t].pc, Apply(cfg, s, a).tasks[a.t].pc)
  {
    hide Recv;
  }

  lemma StepCounted(cfg: Config, s: State, a: Step)
    requires Provenance.ProvInv(cfg, s) && Enabled(s, a) && !a.Tick? && !a.Evict? && !a.Arrive?
    ensures a.t in Apply(cfg, s, a).tasks && Counted(s.n, Apply(cfg, s, a).n, s.tasks[a.t].pc, Apply(cfg, s, a).tasks[a.t].pc)
  {
    if a.Lookup? {
      LookupCounted(cfg, s, a.t);
      hide Recv, LookupOutcome, Counted, Provenance.ProvInv;
    } else {
      hide Apply, Enabled, Counted, Provenance.ProvInv;
      if a.Receive? || a.AwaitRefresh? || a.Timer? {
        WaitCounted(cfg, s, a);
      } else if a.Join? || a.Publish? || a.Stamp? || a.Finish? || a.Drop? {
        PcCounted(cfg, s, a);
      } else {
        ClaimCounted(cfg, s, a);
      }
    }
  }

  lemma AmbientCounted(cfg: Config, s: State, a: Step)
    requires CountInv(s) && Enabled(s, a) && (a.Tick? || a.Evict? || a.Arrive?)
    ensures CountInv(Apply(cfg, s, a))
  {
    var s' := Apply(cfg, s, a);
    assert Pending(s', Claiming) == Pending(s, Claiming);
    assert Pending(s', HoldingStale) == Pending(s, HoldingStale);
  }

  lemma StepKeepsCounts(cfg: Config, s: State, a: Step)
    requires CountInv(s) && Provenance.ProvInv(cfg, s) && Enabled(s, a)
    ensures CountInv(Apply(cfg, s, a))
  {
    hide Apply, Enabled, Pending, Moved, Provenance.ProvInv;
    if a.Tick? || a.Evict? || a.Arrive? {
      hide CountInv;
      AmbientCounted(cfg, s, a);
    } else {
      StepCounted(cfg, s, a);
      StepMoves(cfg, s, a);
      PendingMoved(s, Apply(cfg, s, a), a.t, Claiming);
      PendingMoved(s, Apply(cfg, s, a), a.t, HoldingStale);
    }
  }

  lemma InitCounts()
    ensures CountInv(INIT)
  {
    assert Pending(INIT, Claiming) == {} && Pending(INIT, HoldingStale) == {};
  }

  lemma {:induction false} RunCounts(cfg: Config, states: seq<State>, steps: seq<Step>, i: nat)
    requires Run(cfg, states, steps) && i < |states|
    ensures CountInv(states[i])
  {
    hide CountInv, Provenance.ProvInv, Apply, Enabled;
    if i == 0 {
      InitCounts();
    } else {
      RunCounts(cfg, states, steps, i - 1);
      Provenance.RunProvenance(cfg, states, steps, i - 1);
      StepKeepsCounts(cfg, states[i - 1], steps[i - 1]);
      assert states[i - 1 + 1] == states[i];
    }
  }

  /** In every run: cacheable lookups are hits plus misses plus stale lookups, prefetches
      are at most the hits, stale answers served at most the stale lookups, and negative
      hits, which count stale ones too, at most the hits and stale lookups. */
  lemma LookupsAddUp(cfg: Config, states: seq<State>, steps: seq<Step>, i: nat)
    requires Run(cfg, states, steps) && i < |states|
    ensures var n := states[i].n;
      && n.lookups == n.hits + n.misses + n.staleLookups
      && n.prefetches <= n.hits && n.servedStale <= n.staleLookups
      && n.negativeHits <= n.hits + n.staleLookups
  {
    RunCounts(cfg, states, steps, i);
  }

  /** Where a lookup leads, and what it counts, by the age of the entry: a hit up to the
      deadline, in the last tenth of its life one that goes on to prefetch; stale through
      the window; else a miss. */
  ghost predicate LedByAge(cfg: Config, e: Entry, now: nat, k': Task, n: Counters, n': Counters) {
    if now <= e.validUntil then
      && n' == n.(lookups := n.lookups + 1, hits := n.hits + 1, negativeHits := n.negativeHits + One(e.answers == []))
      && if now >= e.validUntil - (e.validUntil - e.fetchedAt) / 10 then k'.pc.HitClaim? else k'.pc.Replied? && k'.pc.status == Hit
    else if now <= e.validUntil + cfg.staleWindow then
      && n' == n.(lookups := n.lookups + 1, staleLookups := n.staleLookups + 1, negativeHits := n.negativeHits + One(e.answers == []))
      && k'.pc.StaleClaim?
    else n' == n.(lookups := n.lookups + 1, misses := n.misses + 1) && k'.pc == Joining
  }

  /** In every run: a cacheable lookup that finds an entry goes by the entry's age alone,
      and one that finds none is a miss. */
  lemma LookupsGoByAge(cfg: Config, states: seq<State>, steps: seq<Step>, i: nat, t: TaskId)
    requires Run(cfg, states, steps) && i < |steps| && steps[i] == Lookup(t)
    requires t in states[i].tasks && states[i].tasks[t].key.Some?
    ensures var s, s' := states[i], states[i + 1]; var q := s.tasks[t].key.value;
      && t in s'.tasks
      && if q in s.cache then LedByAge(cfg, s.cache[q], s.now, s'.tasks[t], s.n, s'.n)
         else s'.tasks[t].pc == Joining && s'.n == s.n.(lookups := s.n.lookups + 1, misses := s.n.misses + 1)
  {
    var s := states[i];
    var q := s.tasks[t].key.value;
    assert states[i + 1] == AfterLookup(cfg, s, t);
    if q in s.cache {
      Provenance.CacheIsUpstreams(cfg, states, steps, i, q);
      hide Run, Apply;
      OutcomeByAge(cfg, s, s.tasks[t]);
    }
  }

  lemma OutcomeByAge(cfg: Config, s: State, k: Task)
    requires k.key.Some? && k.key.value in s.cache && SoundEntry(s.cache[k.key.value])
    requires var l := LookupEntry(s.cache[k.key.value], s.now, cfg.staleWindow);
      l.Some? ==> BuildCached(k.key.value, l.value.snapshot).Some?
    ensures var (n', k') := LookupOutcome(cfg, s, k); LedByAge(cfg, s.cache[k.key.value], s.now, k', s.n, n')
  {
    LookupPhases(s.cache[k.key.value], s.now, cfg.staleWindow);
    SnapshotNegative(s.cache[k.key.value], s.now, cfg.staleWindow);
    hide LookupEntry, BuildCached;
  }

  lemma SnapshotNegative(e: Entry, now: nat, window: nat)
    ensures var l := LookupEntry(e, now, window); l.Some? ==> l.value.snapshot.negative == (e.answers == [])
  {
  }

  // ---------------------------------------------------------------- failures

  /** Where a task stands once its own resolution has come back. */
  predicate Asked(pc: Pc) {
    (HasWork(pc) && !pc.work.Asking?) || pc.Closing? || pc.Replied? || pc.Dropped? || pc.Freed? || pc.Finished?
  }

  /** The resolutions that found every upstream failing. */
  function Failures(s: State): set<LogEntry> {
    set e | e in s.log && e.reply.None?
  }

  /** Only a task that has asked is in the log, and the counter counts the failures there. */
  ghost predicate FailureInv(s: State) {
    && (forall e :: e in s.log ==> e.task in s.tasks && Asked(s.tasks[e.task].pc))
    && s.n.upstreamFailed == |Failures(s)|
  }

  lemma OneMoreLogged(s: State, s': State, e: LogEntry)
    requires e !in s.log && s'.log == s.log + {e}
    ensures |Failures(s')| == |Failures(s)| + One(e.reply.None?)
  {
    assert Failures(s') == if e.reply.None? then Failures(s) + {e} else Failures(s);
  }

  lemma LoggerAsked(s: State, s': State, t: TaskId, e: LogEntry)
    requires FailureInv(s) && Moved(s, s', t) && s'.log == s.log + {e} && e.task == t && Asked(s'.tasks[t].pc)
    ensures forall x :: x in s'.log ==> x.task in s'.tasks && Asked(s'.tasks[x.task].pc)
  {
    hide Asked;
  }

  lemma ReplyKeepsFailures(s: State, t: TaskId, reply: Option<Response>)
    requires FailureInv(s) && Enabled(s, UpstreamReply(t, reply))
    ensures FailureInv(AfterReply(s, t, reply))
  {
    hide AfterReply, Moved, ChannelsKept, Failures;
    ReplyEffect(s, t, reply);
    var s', e := AfterReply(s, t, reply), LogEntry(t, s.tasks[t].key, s.tasks[t].query.checkingDisabled, reply);
    assert e !in s.log;
    OneMoreLogged(s, s', e);
    assert Asked(s'.tasks[t].pc);
    hide Asked;
    LoggerAsked(s, s', t, e);
  }

  /** A step that logs nothing and counts no failure, of a task that does not go back. */
  lemma QuietFailures(s: State, s': State, t: TaskId)
    requires FailureInv(s) && Moved(s, s', t) && s'.log == s.log && s'.n.upstreamFailed == s.n.upstreamFailed
    requires Asked(s.tasks[t].pc) ==> Asked(s'.tasks[t].pc)
    ensures FailureInv(s')
  {
    assert Failures(s') == Failures(s);
  }

  lemma LookupQuiet(cfg: Config, s: State, t: TaskId)
    requires Enabled(s, Lookup(t))
    ensures var s' := AfterLookup(cfg, s, t); s'.log == s.log && s'.n.upstreamFailed == s.n.upstreamFailed
  {
    hide LookupEntry, BuildCached;
  }

  lemma WaitQuiet(cfg: Config, s: State, a: Step)
    requires Enabled(s, a) && (a.Lookup? || a.ClaimPrefetch? || a.ClaimStale? || a.Receive? || a.AwaitRefresh? || a.Timer?)
    ensures var s' := Apply(cfg, s, a);
      && s'.log == s.log && s'.n.upstreamFailed == s.n.upstreamFailed && !Asked(s.tasks[a.t].pc)
  {
    hide AfterLookup, AfterClaimPrefetch, AfterClaimStale, AfterReceive, AfterAwaitRefresh, ServeStale, Recv,
      ChannelsKept, Moved, LookedUp;
    if a.Lookup? {
      LookupQuiet(cfg, s, a.t);
    } else if a.ClaimPrefetch? {
      PrefetchEffect(s, a.t, a.r);
    } else if a.ClaimStale? {
      StaleClaimEffect(s, a.t, a.r);
    } else if a.Receive? {
      ReceiveEffect(s, a.t);
    } else if a.AwaitRefresh? {
      AwaitEffect(s, a.t);
    } else {
      ServeStaleEffect(s, a.t, s.tasks[a.t].pc.stale);
    }
  }

  lemma WorkQuiet(cfg: Config, s: State, a: Step)
    requires Enabled(s, a) && (a.Join? || a.Stamp? || a.Write? || a.Settle? || a.Publish? || a.Finish? || a.Drop?)
    ensures var s' := Apply(cfg, s, a);
      && s'.log == s.log && s'.n.upstreamFailed == s.n.upstreamFailed
      && a.t in s'.tasks && (Asked(s.tasks[a.t].pc) ==> Asked(s'.tasks[a.t].pc))
  {
    hide AfterJoin, AfterWrite, AfterSettle, AfterPublish, ChannelsKept, Moved, SetPc;
    if a.Join? {
      JoinEffect(s, a.t);
    } else if a.Write? {
      WriteEffect(s, a.t);
    } else if a.Settle? {
      SettleEffect(s, a.t);
    } else if a.Publish? {
      PublishEffect(s, a.t);
    } else if a.Stamp? {
      PcEffect(s, a.t, WithWork(s.tasks[a.t].pc, Stamped(s.tasks[a.t].pc.work.resp, s.now)));
    } else if a.Finish? {
      PcEffect(s, a.t, Finished(s.tasks[a.t].pc.value));
    } else {
      PcEffect(s, a.t, Dropped);
    }
  }

  lemma AmbientFailures(cfg: Config, s: State, a: Step)
    requires FailureInv(s) && Enabled(s, a) && (a.Tick? || a.Evict? || a.Arrive?)
    ensures FailureInv(Apply(cfg, s, a))
  {
    assert Failures(Apply(cfg, s, a)) == Failures(s);
  }

  lemma StepKeepsFailures(cfg: Config, s: State, a: Step)
    requires FailureInv(s) && Enabled(s, a)
    ensures FailureInv(Apply(cfg, s, a))
  {
    if a.UpstreamReply? {
      hide FailureInv, AfterReply;
      ReplyKeepsFailures(s, a.t, a.reply);
    } else {
      hide FailureInv, Apply, Enabled, Moved, Asked;
      if a.Tick? || a.Evict? || a.Arrive? {
        AmbientFailures(cfg, s, a);
      } else {
        StepMoves(cfg, s, a);
        if a.Lookup? || a.ClaimPrefetch? || a.ClaimStale? || a.Receive? || a.AwaitRefresh? || a.Timer? {
          WaitQuiet(cfg, s, a);
        } else {
          WorkQuiet(cfg, s, a);
        }
        QuietFailures(s, Apply(cfg, s, a), a.t);
      }
    }
  }

  /** In every run: the failure counter is the number of resolutions that found every
      upstream failing. */
  lemma {:induction false} FailuresAddUp(cfg: Config, states: seq<State>, steps: seq<Step>, i: nat)
    requires Run(cfg, states, steps) && i < |states|
    ensures FailureInv(states[i])
  {
    if i == 0 {
      assert Failures(INIT) == {};
    } else {
      FailuresAddUp(cfg, states, steps, i - 1);
      hide FailureInv, Apply, Enabled;
      StepKeepsFailures(cfg, states[i - 1], steps[i - 1]);
      assert states[i - 1 + 1] == states[i];
    }
  }
}
