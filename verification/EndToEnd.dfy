/** The handler over runs of the pool: lifetimes from upstream through the cache into
    synthesized records, and verdicts on cached answers. */
module EndToEnd {
  import opened Text
  import opened Dns
  import opened Decision
  import opened Cache
  import opened Pool
  import opened Providers
  import opened Chain
  import opened Handler
  import Addresses
  import HandlerLaws
  import Provenance
  import Scenarios

  // ================================================================ what backs a reply

  /** An answer given at `at` carries the records of an upstream answer fetched at that time,
      and none of its TTLs, counted from when it was given, ends later than upstream's,
      counted from the fetch. */
  ghost predicate BackedBy(reply: Response, up: Response, fetchedAt: nat, at: nat) {
    && fetchedAt <= at && |reply.answers| == |up.answers|
    && forall i :: 0 <= i < |reply.answers| ==>
      reply.answers[i].data == up.answers[i].data && Outlives(fetchedAt, up.answers[i].ttl, at, reply.answers[i].ttl)
  }

  /** A hit, read off an entry stored for an upstream answer: counted from the entry's own
      fetch time and from the lookup. */
  ghost predicate HitBacked(s: State, k: Task, u: TaskId, up: Response) {
    && k.key.Some? && k.seen.Some? && k.pc.Replied? && k.pc.reply.Some?
    && Provenance.Source(s.log, k.key.value, k.seen.value.entry, u, up)
    && BackedBy(k.pc.reply.value, up, k.seen.value.entry.fetchedAt, k.seen.value.at)
  }

  /** In every run, a hit with answers is backed, from the fetch time of the very entry that
      was served; and a miss hands on upstream's own answer, records and TTLs. */
  lemma RepliesBacked(cfg: Config, states: seq<State>, steps: seq<Step>, i: nat, t: TaskId)
    requires Run(cfg, states, steps) && i < |states| && t in states[i].tasks && states[i].tasks[t].pc.Replied?
    ensures var s := states[i]; var k := s.tasks[t]; var reply := k.pc.reply;
      && (k.pc.status == Hit && reply.Some? && reply.value.answers != [] ==> exists u, up :: HitBacked(s, k, u, up))
      && (k.pc.status == Miss ==> k.key.Some? && Provenance.Logged(s, k.via, k.key, reply))
  {
    var s, k := states[i], states[i].tasks[t];
    Provenance.RepliesAccountedFor(cfg, states, steps, i, t);
    if k.pc.status == Hit && k.pc.reply.Some? && k.pc.reply.value.answers != [] {
      Provenance.HitsOutliveNothing(cfg, states, steps, i, t);
      hide Run, EntryOf;
      var u, up :| Provenance.WithinUpstream(s, k, k.key.value, u, up);
      WithinIsBacked(s, k, u, up);
      assert HitBacked(s, k, u, up);
    }
  }

  lemma WithinIsBacked(s: State, k: Task, u: TaskId, up: Response)
    requires k.seen.Some? && k.key.Some? && k.pc.Replied? && k.pc.reply.Some? && k.pc.reply.value.answers != []
    requires Provenance.WithinUpstream(s, k, k.key.value, u, up)
    ensures BackedBy(k.pc.reply.value, up, k.seen.value.entry.fetchedAt, k.seen.value.at)
  {
    var e := k.seen.value.entry;
    assert e.answers != [];
    PositiveAnswers(up, e);
    hide EntryOf, Outlives;
  }

  lemma PositiveAnswers(up: Response, e: Entry)
    requires EntryOf(up, e.fetchedAt) == Some(e) && e.answers != []
    ensures e.answers == up.answers
  {
  }

  // ================================================================ the lifetime of a TTL

  /** The records a TTL is derived from: the AAAA or the A records. */
  predicate Derives(r: Record, aaaa: bool) {
    if aaaa then r.data.AaaaData? else r.data.AData?
  }

  /** At most the TTL of every such record of the answer. */
  predicate Below(r: Response, ttl: nat, aaaa: bool) {
    forall i :: 0 <= i < |r.answers| && Derives(r.answers[i], aaaa) ==> ttl <= r.answers[i].ttl
  }

  /** Counted from `at`, it ends no later than any such record of an upstream answer, counted
      from its fetch. */
  ghost predicate EndsWithin(up: Response, fetchedAt: nat, at: nat, ttl: nat, aaaa: bool) {
    forall i :: 0 <= i < |up.answers| && Derives(up.answers[i], aaaa) ==> Outlives(fetchedAt, up.answers[i].ttl, at, ttl)
  }

  /** What a TTL derived from a client's reply is worth, by how the reply was sourced: of a
      hit, it ends within the upstream answer its entry was stored for, counted from that
      entry's fetch and from the lookup; of a miss, an uncached reply or a refresh, it is at
      most upstream's own TTLs, counted from the delivery; of a stale entry, it is at most the
      serve-stale TTL. */
  ghost predicate Lifetime(cfg: Config, s: State, t: TaskId, ttl: nat, aaaa: bool)
  {
    && t in s.tasks && s.tasks[t].pc.Replied? && s.tasks[t].pc.reply.Some?
    && var k := s.tasks[t]; var r := k.pc.reply.value;
      match k.pc.status
      case Uncached => Provenance.LoggedOwn(s, t, k, Some(r)) && Below(r, ttl, aaaa)
      case Miss => k.key.Some? && Provenance.Logged(s, k.via, k.key, Some(r)) && Below(r, ttl, aaaa)
      case Hit => r.answers != [] ==> exists u, up :: HitEnds(s, k, u, up, ttl, aaaa)
      case StaleHit =>
        || (k.key.Some? && Provenance.Logged(s, k.via, k.key, Some(r)) && Below(r, ttl, aaaa))
        || (Provenance.StaleOf(cfg, s, k, r) && StaleEnds(r, ttl, aaaa))
  }

  ghost predicate HitEnds(s: State, k: Task, u: TaskId, up: Response, ttl: nat, aaaa: bool) {
    HitBacked(s, k, u, up) && EndsWithin(up, k.seen.value.entry.fetchedAt, k.seen.value.at, ttl, aaaa)
  }

  predicate StaleEnds(r: Response, ttl: nat, aaaa: bool) {
    (exists i :: 0 <= i < |r.answers| && Derives(r.answers[i], aaaa)) ==> ttl <= STALE_SERVE_TTL
  }

  lemma StaleStamps(cfg: Config, q: Question, e: Entry, at: nat, r: Response)
    requires StaleAnswer(cfg, q, e, at, r)
    ensures forall i :: 0 <= i < |r.answers| ==> r.answers[i].ttl == STALE_SERVE_TTL
  {
  }

  lemma HitEndsWithin(s: State, k: Task, u: TaskId, up: Response, ttl: nat, aaaa: bool)
    requires HitBacked(s, k, u, up) && Below(k.pc.reply.value, ttl, aaaa)
    ensures HitEnds(s, k, u, up, ttl, aaaa)
  {
    var r, f, at := k.pc.reply.value, k.seen.value.entry.fetchedAt, k.seen.value.at;
    hide Provenance.Source, Outlives;
    forall i | 0 <= i < |up.answers| && Derives(up.answers[i], aaaa) ensures Outlives(f, up.answers[i].ttl, at, ttl) {
      ShorterOutlives(f, up.answers[i].ttl, at, r.answers[i].ttl, ttl);
    }
  }

  /** In every run, a TTL that stays below a reply's has that reply's lifetime. */
  lemma BelowReply(cfg: Config, states: seq<State>, steps: seq<Step>, i: nat, t: TaskId, ttl: nat, aaaa: bool)
    requires Run(cfg, states, steps) && i < |states| && t in states[i].tasks
    requires var pc := states[i].tasks[t].pc; pc.Replied? && pc.reply.Some? && Below(pc.reply.value, ttl, aaaa)
    ensures Lifetime(cfg, states[i], t, ttl, aaaa)
  {
    var s, k := states[i], states[i].tasks[t];
    var r := k.pc.reply.value;
    Provenance.RepliesAccountedFor(cfg, states, steps, i, t);
    RepliesBacked(cfg, states, steps, i, t);
    hide Run;
    match k.pc.status
    case Hit =>
      if r.answers != [] {
        hide HitBacked, HitEnds, Below;
        var u, up :| HitBacked(s, k, u, up);
        HitEndsWithin(s, k, u, up, ttl, aaaa);
      }
    case StaleHit =>
      hide StaleAnswer, Provenance.Derived;
      if Provenance.StaleOf(cfg, s, k, r) {
        StaleStamps(cfg, k.key.value, k.seen.value.entry, k.seen.value.at, r);
      }
    case _ =>
  }

  // ================================================================ synthesized records

  lemma {:induction false} AaaaHas(records: seq<Record>, i: nat)
    requires i < |records| && records[i].data.AaaaData?
    ensures exists k :: 0 <= k < |AaaaRecords(records)| && AaaaRecords(records)[k].1 == records[i].ttl
  {
    var rest := AaaaRecords(records[1..]);
    if i == 0 {
      assert AaaaRecords(records)[0].1 == records[0].ttl;
    } else {
      AaaaHas(records[1..], i - 1);
      var k :| 0 <= k < |rest| && rest[k].1 == records[1..][i - 1].ttl;
      assert AaaaRecords(records)[if records[0].data.AaaaData? then k + 1 else k] == rest[k];
    }
  }

  lemma {:induction false} AHas(records: seq<Record>, i: nat)
    requires i < |records| && records[i].data.AData?
    ensures exists k :: 0 <= k < |ARecords(records)| && ARecords(records)[k].1 == records[i].ttl
  {
    var rest := ARecords(records[1..]);
    if i == 0 {
      assert ARecords(records)[0].1 == records[0].ttl;
    } else {
      AHas(records[1..], i - 1);
      var k :| 0 <= k < |rest| && rest[k].1 == records[1..][i - 1].ttl;
      assert ARecords(records)[if records[0].data.AData? then k + 1 else k] == rest[k];
    }
  }

  lemma {:induction false} GatheredHas(answers: Answers, n: nat, j: nat, m: nat)
    requires j < n && m < |ResolveAaaa(answers(j))|
    ensures exists k :: 0 <= k < |Gathered(answers, n)| && Gathered(answers, n)[k] == ResolveAaaa(answers(j))[m]
  {
    hide ResolveAaaa;
    var before := Gathered(answers, n - 1);
    if j == n - 1 {
      assert Gathered(answers, n)[|before| + m] == ResolveAaaa(answers(j))[m];
    } else {
      GatheredHas(answers, n - 1, j, m);
      var k :| 0 <= k < |before| && before[k] == ResolveAaaa(answers(j))[m];
      assert Gathered(answers, n)[k] == before[k];
    }
  }

  /** A synthesized TTL is bounded by that of every AAAA record of every reference answer. */
  lemma BelowReference(plan: Plan, ctx: Context, cap: Option<u32>, answers: Answers, r: Record, j: nat, i: nat)
    requires SoundRecord(r, ctx, cap, Gathered(answers, |plan.resolve|))
    requires j < |plan.resolve| && answers(j).Some? && answers(j).value.rcode == NoError
    requires i < |answers(j).value.answers| && answers(j).value.answers[i].data.AaaaData?
    ensures r.ttl <= answers(j).value.answers[i].ttl
  {
    var records := answers(j).value.answers;
    AaaaHas(records, i);
    var m :| 0 <= m < |AaaaRecords(records)| && AaaaRecords(records)[m].1 == records[i].ttl;
    GatheredHas(answers, |plan.resolve|, j, m);
  }

  /** Shorter lives end no later. */
  lemma ShorterOutlives(fetchedAt: nat, recordTtl: nat, at: nat, ttl: nat, ttl': nat)
    requires Outlives(fetchedAt, recordTtl, at, ttl) && ttl' <= ttl
    ensures Outlives(fetchedAt, recordTtl, at, ttl')
  {
    assert ttl' * SEC <= ttl * SEC;
  }

  /** A reference lookup's client, answered in the run for that very name. */
  ghost predicate AnsweredBy(s: State, t: TaskId, query: Query, reply: Option<Response>) {
    t in s.tasks && s.tasks[t].query == query && s.tasks[t].pc.Replied? && s.tasks[t].pc.reply == reply
  }

  /** In every run: a record synthesized from a plan's references has, for each of them that
      a client of the run was answered for, the lifetime of that client's reply; and the
      client's key is the AAAA question of the reference. */
  lemma SynthesizedWithinUpstream(cfg: Config, states: seq<State>, steps: seq<Step>, i: nat, t: TaskId,
    plan: Plan, ctx: Context, cap: Option<u32>, answers: Answers, j: nat, x: nat)
    requires Run(cfg, states, steps) && i < |states| && j < |plan.resolve|
    requires AnsweredBy(states[i], t, Reference(plan.resolve[j]), answers(j))
    requires answers(j).Some? && answers(j).value.rcode == NoError
    requires PlanRecords(plan, ctx, cap, answers).Some? && x < |PlanRecords(plan, ctx, cap, answers).value|
    ensures Lifetime(cfg, states[i], t, PlanRecords(plan, ctx, cap, answers).value[x].ttl, true)
    ensures states[i].tasks[t].key == if cfg.cacheEnabled then Some(Question(plan.resolve[j], AAAA, CLASS_IN)) else None
  {
    var r := PlanRecords(plan, ctx, cap, answers).value[x];
    PlanRecordsSound(plan, ctx, cap, answers);
    Scenarios.RunKeys(cfg, states, steps, i);
    hide Run, PlanRecords, Gathered, SoundRecord, Lifetime;
    var up := answers(j).value;
    forall m | 0 <= m < |up.answers| && Derives(up.answers[m], true) ensures r.ttl <= up.answers[m].ttl {
      BelowReference(plan, ctx, cap, answers, r, j, m);
    }
    BelowReply(cfg, states, steps, i, t, r.ttl, true);
  }

  /** And where no reference answered, the lifetime of the reply that gave the A records. */
  lemma EmbeddedWithinUpstream(cfg: Config, states: seq<State>, steps: seq<Step>, i: nat, t: TaskId,
    plan: Plan, ctx: Context, cap: Option<u32>, answers: Answers, a: Option<Response>, x: nat)
    requires Run(cfg, states, steps) && i < |states| && t in states[i].tasks
    requires AnsweredBy(states[i], t, states[i].tasks[t].query, a) && ctx.aRecords == LookupA(a) && ctx.aRecords != []
    requires Gathered(answers, |plan.resolve|) == []
    requires PlanRecords(plan, ctx, cap, answers).Some? && x < |PlanRecords(plan, ctx, cap, answers).value|
    ensures Lifetime(cfg, states[i], t, PlanRecords(plan, ctx, cap, answers).value[x].ttl, false)
  {
    var r := PlanRecords(plan, ctx, cap, answers).value[x];
    PlanRecordsSound(plan, ctx, cap, answers);
    hide Run, PlanRecords, Gathered, Lifetime;
    forall m | 0 <= m < |a.value.answers| && Derives(a.value.answers[m], false) ensures r.ttl <= a.value.answers[m].ttl {
      AHas(a.value.answers, m);
    }
    BelowReply(cfg, states, steps, i, t, r.ttl, false);
  }

  // ================================================================ the handler over a run

  /** The pool clients of one DNS64 request: for the question, for the A question beside it,
      and for every reference. */
  datatype Clients = Clients(first: TaskId, a: TaskId, references: (nat, nat) -> TaskId)

  /** The chain comes to ask for the references of synthesizer `i`. */
  ghost predicate ComesTo(c: Chain, ctx: Context, answers: AllAnswers, i: nat) {
    i < |c.synths| && Detect(c.synths[i], ctx).Some? && forall m :: 0 <= m < i ==> Yield(c, ctx, answers, m).None?
  }

  /** The replies the handler works on are those of clients of the run that asked what the
      handler asks. */
  ghost predicate ServedByRun(s: State, setup: Setup, req: Request, w: Replies, c: Clients)
    requires |req.questions| == 1
  {
    && AnsweredBy(s, c.first, Upstream(req, req.questions[0]), w.first)
    && AnsweredBy(s, c.a, Upstream(req, Question(req.questions[0].name, A, CLASS_IN)), w.a)
    && (w.first.Some? ==> forall i, j :: ReferenceOf(setup, req, w, i, j) ==>
      AnsweredBy(s, c.references(i, j), ReferenceQuery(setup, req, w, i, j), w.references(i, j)))
  }

  ghost predicate ReferenceOf(setup: Setup, req: Request, w: Replies, i: nat, j: nat)
    requires |req.questions| == 1 && w.first.Some?
  {
    var ctx := ContextOf(req, w.first.value, w.a);
    ComesTo(setup.chain, ctx, w.references, i) && j < |Detect(setup.chain.synths[i], ctx).value.resolve|
  }

  ghost function ReferenceQuery(setup: Setup, req: Request, w: Replies, i: nat, j: nat): Query
    requires |req.questions| == 1 && w.first.Some? && ReferenceOf(setup, req, w, i, j)
  {
    Reference(Detect(setup.chain.synths[i], ContextOf(req, w.first.value, w.a)).value.resolve[j])
  }

  /** The lifetime of the x-th record of a result won by synthesizer `m`: of the winner's own,
      that of every reference that answered, or of the A reply if none did; of the appended
      one, that of the A reply. */
  ghost predicate RecordLives(cfg: Config, s: State, setup: Setup, ctx: Context, w: Replies, c: Clients, m: nat, ttl: nat, own: bool)
    requires m < |setup.chain.synths| && Detect(setup.chain.synths[m], ctx).Some?
  {
    var plan := Detect(setup.chain.synths[m], ctx).value;
    if own then
      && (forall j :: 0 <= j < |plan.resolve| ==> ReferenceLives(cfg, s, w, c, m, j, ttl))
      && (Gathered(Of(w.references, m), |plan.resolve|) == [] && ctx.aRecords != [] ==> Lifetime(cfg, s, c.a, ttl, false))
    else Lifetime(cfg, s, c.a, ttl, false)
  }

  ghost predicate ReferenceLives(cfg: Config, s: State, w: Replies, c: Clients, m: nat, j: nat, ttl: nat) {
    w.references(m, j).Some? && w.references(m, j).value.rcode == NoError ==> Lifetime(cfg, s, c.references(m, j), ttl, true)
  }

  lemma OwnLives(cfg: Config, states: seq<State>, steps: seq<Step>, n: nat, setup: Setup, req: Request, w: Replies, c: Clients, m: nat, x: nat)
    requires Run(cfg, states, steps) && n < |states| && |req.questions| == 1 && w.first.Some?
    requires ServedByRun(states[n], setup, req, w, c)
    requires var ctx := ContextOf(req, w.first.value, w.a);
      Wins(setup.chain, ctx, w.references, m) && x < |Yield(setup.chain, ctx, w.references, m).value|
    ensures var ctx := ContextOf(req, w.first.value, w.a);
      && Detect(setup.chain.synths[m], ctx).Some?
      && RecordLives(cfg, states[n], setup, ctx, w, c, m, Yield(setup.chain, ctx, w.references, m).value[x].ttl, true)
  {
    var ctx, chain := ContextOf(req, w.first.value, w.a), setup.chain;
    hide Run, Detect, PlanRecords, Gathered, Lifetime, LookupA;
    var plan := Detect(chain.synths[m], ctx).value;
    var own := Yield(chain, ctx, w.references, m).value;
    forall j | 0 <= j < |plan.resolve| ensures ReferenceLives(cfg, states[n], w, c, m, j, own[x].ttl) {
      assert ReferenceOf(setup, req, w, m, j);
      if w.references(m, j).Some? && w.references(m, j).value.rcode == NoError {
        assert Of(w.references, m)(j) == w.references(m, j);
        SynthesizedWithinUpstream(cfg, states, steps, n, c.references(m, j), plan, ctx, chain.ttlCap, Of(w.references, m), j, x);
      }
    }
    if Gathered(Of(w.references, m), |plan.resolve|) == [] && ctx.aRecords != [] {
      EmbeddedWithinUpstream(cfg, states, steps, n, c.a, plan, ctx, chain.ttlCap, Of(w.references, m), w.a, x);
    }
  }

  lemma ExtraLives(cfg: Config, states: seq<State>, steps: seq<Step>, n: nat, setup: Setup, req: Request, w: Replies, c: Clients, winner: Synth)
    requires Run(cfg, states, steps) && n < |states| && |req.questions| == 1 && w.first.Some?
    requires ServedByRun(states[n], setup, req, w, c)
    requires Extra(setup.chain, ContextOf(req, w.first.value, w.a), winner) != []
    ensures |Extra(setup.chain, ContextOf(req, w.first.value, w.a), winner)| == 1
    ensures Lifetime(cfg, states[n], c.a, Extra(setup.chain, ContextOf(req, w.first.value, w.a), winner)[0].ttl, false)
  {
    var ctx, chain := ContextOf(req, w.first.value, w.a), setup.chain;
    var plan := DetectNat64(chain.nat64Fallback.value, ctx).value;
    assert plan.resolve == [] && Gathered(NOTHING, 0) == [] && ctx.aRecords != [];
    hide Run, DetectNat64, PlanRecords, Gathered, Lifetime, LookupA;
    EmbeddedWithinUpstream(cfg, states, steps, n, c.a, plan, ctx, chain.ttlCap, NOTHING, w.a, 0);
  }

  /** End to end, in every run of the pool and for every request answered by synthesis over
      it: each record sent has the lifetime of the replies it derives from, which reaches back
      to upstream. */
  lemma SentWithinUpstream(cfg: Config, states: seq<State>, steps: seq<Step>, n: nat, setup: Setup, req: Request, w: Replies,
    c: Clients, v: Verdict, x: nat)
    requires Run(cfg, states, steps) && n < |states| && |req.questions| == 1
    requires UsableSetup(setup) && Deserves(setup, req, w, v) && v.Synthesized64? && x < |v.records|
    requires ServedByRun(states[n], setup, req, w, c)
    ensures w.first.Some?
    ensures exists m :: SentLives(cfg, states[n], setup, ContextOf(req, w.first.value, w.a), w, c, m, v.records[x].ttl, x)
  {
    var s, chain := states[n], setup.chain;
    hide Run, Addresses.Allows, NameBlocked, ServedByRun, RecordLives, Yield, Extra;
    var ctx := ContextOf(req, w.first.value, w.a);
    hide ContextOf, Decide;
    var m: nat :| Wins(chain, ctx, w.references, m) && Result(chain, ctx, w.references, m, v.records, v.id);
    var own, extra := Yield(chain, ctx, w.references, m).value, Extra(chain, ctx, chain.synths[m]);
    assert v.records == own + extra;
    if x < |own| {
      OwnLives(cfg, states, steps, n, setup, req, w, c, m, x);
    } else {
      ExtraLives(cfg, states, steps, n, setup, req, w, c, chain.synths[m]);
      ExtraRecordLives(cfg, s, setup, ctx, w, c, m, v.records[x].ttl);
    }
    assert SentLives(cfg, s, setup, ctx, w, c, m, v.records[x].ttl, x);
  }

  lemma ExtraRecordLives(cfg: Config, s: State, setup: Setup, ctx: Context, w: Replies, c: Clients, m: nat, ttl: nat)
    requires Wins(setup.chain, ctx, w.references, m) && Lifetime(cfg, s, c.a, ttl, false)
    ensures Detect(setup.chain.synths[m], ctx).Some? && RecordLives(cfg, s, setup, ctx, w, c, m, ttl, false)
  {
    hide Lifetime, Detect, PlanRecords;
  }

  ghost predicate SentLives(cfg: Config, s: State, setup: Setup, ctx: Context, w: Replies, c: Clients, m: nat, ttl: nat, x: nat) {
    && Wins(setup.chain, ctx, w.references, m) && Detect(setup.chain.synths[m], ctx).Some?
    && RecordLives(cfg, s, setup, ctx, w, c, m, ttl, x < |Yield(setup.chain, ctx, w.references, m).value|)
  }

  // ================================================================ verdicts on hits

  /** Upstream answers whose decision the cache keeps. */
  ghost predicate DecisionKept(up: Response) {
    if up.rcode == NXDomain then !HasAaaa(up.answers)
    else up.answers == [] || HasAaaa(up.answers) || SignalsOf(up.authority) == NO_SIGNALS
  }

  /** The verdicts relay, synthesize or stay empty alike, with the same records. */
  predicate Alike(v: Verdict, v': Verdict) {
    && (v.Relayed64? <==> v'.Relayed64?) && (v.Empty64? <==> v'.Empty64?)
    && (v.Synthesized64? || v'.Synthesized64? ==> v == v')
  }

  /** End to end, in every run: a request whose AAAA side was a hit gets the verdict the
      upstream answer behind the hit deserves, synthesized records included, unless that
      answer is one whose decision the cache does not keep. */
  lemma HitsKeepTheVerdict(cfg: Config, states: seq<State>, steps: seq<Step>, n: nat, setup: Setup, req: Request, w: Replies,
    t: TaskId, v: Verdict)
    requires Run(cfg, states, steps) && n < |states| && |req.questions| == 1
    requires UsableSetup(setup) && Deserves(setup, req, w, v) && Answer64(v)
    requires AnsweredBy(states[n], t, Upstream(req, req.questions[0]), w.first) && states[n].tasks[t].pc.status == Hit
    ensures exists u, up :: VerdictOf(states[n], setup, req, w, t, v, u, up)
  {
    var s, k := states[n], states[n].tasks[t];
    Provenance.RepliesAccountedFor(cfg, states, steps, n, t);
    Scenarios.RunKeys(cfg, states, steps, n);
    var q, e, at, r := k.key.value, k.seen.value.entry, k.seen.value.at, k.pc.reply.value;
    assert q == req.questions[0];
    var u, up :| Provenance.Source(s.log, q, e, u, up);
    hide Run, EntryOf, LookupEntry, BuildCached, UsableSetup, Deserves;
    assert ServedFrom(q, up, e.fetchedAt, at, cfg.staleWindow, r);
    hide ServedFrom;
    forall v' | DecisionKept(up) && Deserves(setup, req, w.(first := Some(up)), v') ensures Alike(v, v') {
      VerdictKept(cfg, setup, req, w, up, r, e.fetchedAt, at, v, v');
    }
    assert VerdictOf(s, setup, req, w, t, v, u, up);
  }

  ghost predicate VerdictOf(s: State, setup: Setup, req: Request, w: Replies, t: TaskId, v: Verdict, u: TaskId, up: Response)
    requires UsableSetup(setup)
  {
    && t in s.tasks && s.tasks[t].key.Some? && s.tasks[t].seen.Some?
    && Provenance.Source(s.log, s.tasks[t].key.value, s.tasks[t].seen.value.entry, u, up)
    && forall v' :: DecisionKept(up) && Deserves(setup, req, w.(first := Some(up)), v') ==> Alike(v, v')
  }

  lemma VerdictKept(cfg: Config, setup: Setup, req: Request, w: Replies, up: Response, served: Response, fetchedAt: nat, at: nat,
    v: Verdict, v': Verdict)
    requires UsableSetup(setup) && |req.questions| == 1 && w.first == Some(served) && DecisionKept(up)
    requires ServedFrom(req.questions[0], up, fetchedAt, at, cfg.staleWindow, served)
    requires Deserves(setup, req, w, v) && Answer64(v) && Deserves(setup, req, w.(first := Some(up)), v')
    ensures Alike(v, v')
  {
    AnswersAlike(setup, req, w, w.(first := Some(up)), v, v');
    hide Deserves, UsableSetup, ServedFrom, SignalsOf, HasAaaa, Answer64;
    var w' := w.(first := Some(up));
    assert w == w'.(first := Some(served));
    HandlerLaws.CacheKeepsVerdict(setup, req, w', w, v', v, up, served, fetchedAt, at, cfg.staleWindow);
  }

  /** Both requests reach the DNS64 path if one does. */
  lemma AnswersAlike(setup: Setup, req: Request, w: Replies, w': Replies, v: Verdict, v': Verdict)
    requires UsableSetup(setup) && |req.questions| == 1
    requires Deserves(setup, req, w, v) && Answer64(v) && Deserves(setup, req, w', v')
    ensures Answer64(v')
  {
    hide Addresses.Allows, NameBlocked, Synthesized, Decide, ContextOf;
  }
}
