/** What the counters add up to over any set of completed requests, however their bumps were
    interleaved. */
module Accounts {
  import opened Text
  import opened Dns
  import opened Decision
  import opened Addresses
  import opened Rewrites
  import opened Providers
  import opened Chain
  import opened Metrics
  import opened Handler
  import opened HandlerLaws

  // ---------------------------------------------------------------- books

  /** The books a bump is entered in: RCODEs recorded; query types not yet put on a path;
      NODATA answers not yet decided; hits without a synthesized answer; DNS64 queries
      without a branch. */
  datatype Book = Rcoded | Unsplit | Undecided | Loose | Branchless

  function Entry(b: Bump, k: Book): int {
    match k
    case Rcoded => if b.RcodeOf? then 1 else 0
    case Unsplit => if b.QtypeOf? then 1 else if b.QueriesDns64? || b.QueriesPassthrough? || b.BlockedQuery? then -1 else 0
    case Undecided => if b.NodataSeen? then 1 else if b.SynthesizedAnswer? || b.EmptyAnswer? then -1 else 0
    case Loose => if b.HitOf? then 1 else if b.SynthesizedAnswer? then -1 else 0
    case Branchless => if b.QueriesDns64? then 1 else if b.NativeAaaa? || b.Nxdomain64? || b.NodataSeen? then -1 else 0
  }

  /** The balance of a book over a trace, bump by bump. */
  function Weigh(t: seq<Bump>, k: Book): int {
    if |t| == 0 then 0 else Entry(t[0], k) + Weigh(t[1..], k)
  }

  /** The balance the counters show, families summed over their buckets. */
  function Shown(h: multiset<Bump>, n: nat, k: Book): int {
    match k
    case Rcoded => Total(h, Rcodes, RCODES)
    case Unsplit => Total(h, Qtypes, QTYPES) as int - h[QueriesDns64] - h[QueriesPassthrough] - h[BlockedQuery]
    case Undecided => h[NodataSeen] as int - h[SynthesizedAnswer] - h[EmptyAnswer]
    case Loose => Total(h, Hits, n) as int - h[SynthesizedAnswer]
    case Branchless => h[QueriesDns64] as int - h[NativeAaaa] - h[Nxdomain64] - h[NodataSeen]
  }

  lemma ShownAdds(g: multiset<Bump>, h: multiset<Bump>, n: nat, k: Book)
    ensures Shown(g + h, n, k) == Shown(g, n, k) + Shown(h, n, k)
  {
    TotalAdds(g, h, Rcodes, RCODES);
    TotalAdds(g, h, Qtypes, QTYPES);
    TotalAdds(g, h, Hits, n);
    hide Total;
  }

  /** Bucket numbers are in range. */
  predicate InRange(b: Bump, n: nat) {
    (b.RcodeOf? ==> b.code < RCODES) && (b.QtypeOf? ==> b.qtype < QTYPES) && (b.HitOf? ==> b.place < n)
  }

  lemma ShownOne(b: Bump, n: nat, k: Book)
    requires InRange(b, n)
    ensures Shown(multiset{b}, n, k) == Entry(b, k)
  {
    match k
    case Rcoded =>
      TotalSingle(multiset{b}, Rcodes, RCODES, if b.RcodeOf? then b.code else RCODES);
      hide Total;
    case Unsplit =>
      TotalSingle(multiset{b}, Qtypes, QTYPES, if b.QtypeOf? then b.qtype else QTYPES);
      hide Total;
    case Loose =>
      TotalSingle(multiset{b}, Hits, n, if b.HitOf? then b.place else n);
      hide Total;
    case _ =>
  }

  lemma ShownNone(n: nat, k: Book)
    ensures Shown(multiset{}, n, k) == 0
  {
    TotalSingle(multiset{}, Rcodes, RCODES, RCODES);
    TotalSingle(multiset{}, Qtypes, QTYPES, QTYPES);
    TotalSingle(multiset{}, Hits, n, n);
    hide Total;
  }

  /** What the counters show does not depend on the order of the bumps. */
  lemma {:induction false} ShownIsWeighed(t: seq<Bump>, n: nat, k: Book)
    requires AllInRange(t, n)
    ensures Shown(multiset(t), n, k) == Weigh(t, k)
  {
    if |t| == 0 {
      ShownNone(n, k);
    } else {
      ShownIsWeighed(t[1..], n, k);
      ShownOne(t[0], n, k);
      ShownAdds(multiset{t[0]}, multiset(t[1..]), n, k);
      assert t == [t[0]] + t[1..];
      assert multiset(t) == multiset{t[0]} + multiset(t[1..]);
    }
  }

  lemma WeighCons(b: Bump, t: seq<Bump>, k: Book)
    ensures Weigh([b] + t, k) == Entry(b, k) + Weigh(t, k)
  {
    assert ([b] + t)[1..] == t;
  }

  lemma WeighOne(a: Bump, k: Book)
    ensures Weigh([a], k) == Entry(a, k)
  {
    WeighCons(a, [], k);
    assert [a] + [] == [a];
    hide Entry;
  }

  lemma WeighTwo(a: Bump, b: Bump, k: Book)
    ensures Weigh([a, b], k) == Entry(a, k) + Entry(b, k)
  {
    hide Weigh, Entry;
    WeighOne(b, k);
    WeighCons(a, [b], k);
    assert [a] + [b] == [a, b];
  }

  lemma WeighThree(a: Bump, b: Bump, c: Bump, k: Book)
    ensures Weigh([a, b, c], k) == Entry(a, k) + Entry(b, k) + Entry(c, k)
  {
    hide Weigh, Entry;
    WeighTwo(b, c, k);
    WeighCons(a, [b, c], k);
    assert [a] + [b, c] == [a, b, c];
  }

  // ---------------------------------------------------------------- one request

  /** What each book holds after that many requests and local refusals: nothing is left
      undecided or loose, and only error answers are without a branch. */
  predicate Balance(k: Book, x: int, requests: nat, refusals: nat) {
    match k
    case Rcoded => x == requests
    case Unsplit => x == refusals
    case Branchless => x >= 0
    case _ => x == 0
  }

  ghost predicate AllInRange(t: seq<Bump>, n: nat) {
    forall i :: 0 <= i < |t| ==> InRange(t[i], n)
  }

  /** The shape every verdict of the handler has. */
  predicate Fits(ids: seq<string>, req: Request, v: Verdict) {
    && (v.NotImplemented? || v.Malformed? || |req.questions| == 1)
    && (v.Malformed? ==> |req.questions| != 1)
    && (v.Synthesized64? ==> Idx(ids, v.id) >= 0)
  }

  lemma RcodeBucket(code: Rcode)
    ensures R(code).RcodeOf? && R(code).code < RCODES
  {
  }

  /** A book over the DNS64 path behind its first bump. */
  predicate AnswerBalance(k: Book, x: int) {
    match k
    case Rcoded => x == 1
    case Branchless => x >= -1
    case _ => x == 0
  }

  lemma RelayedAccounts(ids: seq<string>, r: Response, n: nat, k: Book)
    ensures var t := AnswerBumps(ids, Relayed64(r)); AllInRange(t, n) && AnswerBalance(k, Weigh(t, k))
  {
    RcodeBucket(r.rcode);
    var c := R(r.rcode);
    hide HasAaaa, R, Weigh;
    if HasAaaa(r.answers) {
      assert AnswerBumps(ids, Relayed64(r)) == [NativeAaaa, c];
      WeighTwo(NativeAaaa, c, k);
    } else if r.rcode == NXDomain {
      assert AnswerBumps(ids, Relayed64(r)) == [Nxdomain64, c];
      WeighTwo(Nxdomain64, c, k);
    } else {
      assert AnswerBumps(ids, Relayed64(r)) == [c];
      WeighOne(c, k);
    }
  }

  lemma SynthesizedAccounts(hit: Bump, n: nat, k: Book)
    requires hit.HitOf? && hit.place < n
    ensures var t := [NodataSeen] + [hit] + [SynthesizedAnswer, R(NoError)]; AllInRange(t, n) && AnswerBalance(k, Weigh(t, k))
  {
    RcodeBucket(NoError);
    var c := R(NoError);
    hide R, Weigh;
    WeighThree(hit, SynthesizedAnswer, c, k);
    WeighCons(NodataSeen, [hit, SynthesizedAnswer, c], k);
    assert [NodataSeen] + [hit, SynthesizedAnswer, c] == [NodataSeen] + [hit] + [SynthesizedAnswer, c];
  }

  lemma EmptyAccounts(c: Bump, n: nat, k: Book)
    requires c.RcodeOf? && c.code < RCODES
    ensures AllInRange([NodataSeen, EmptyAnswer, c], n) && AnswerBalance(k, Weigh([NodataSeen, EmptyAnswer, c], k))
    ensures AllInRange([c], n) && AnswerBalance(k, Weigh([c], k))
  {
    hide Weigh;
    WeighThree(NodataSeen, EmptyAnswer, c, k);
    WeighOne(c, k);
  }

  lemma AnswerAccounts(ids: seq<string>, req: Request, v: Verdict, k: Book)
    requires Fits(ids, req, v) && Answer64(v)
    ensures var t := AnswerBumps(ids, v); AllInRange(t, |ids|) && AnswerBalance(k, Weigh(t, k))
  {
    hide HasAaaa, Idx, Weigh, AllInRange, BranchBumps, AnswerBalance, RcodeIndex;
    match v
    case Relayed64(r) =>
      hide AnswerBumps;
      RelayedAccounts(ids, r, |ids|, k);
    case Synthesized64(_, id) =>
      SynthesizedAccounts(HitOf(Idx(ids, id)), |ids|, k);
    case Empty64(r) =>
      RcodeBucket(r.rcode);
      EmptyAccounts(R(r.rcode), |ids|, k);
    case Failed64 =>
      RcodeBucket(ServFail);
      EmptyAccounts(R(ServFail), |ids|, k);
  }

  /** A path's bumps, with the query type that stands before them, balance. */
  ghost predicate PathBalanced(t: seq<Bump>, n: nat, refusals: nat, k: Book) {
    AllInRange(t, n) && Balance(k, Weigh(t, k) + (if k.Unsplit? then 1 else 0), 1, refusals)
  }

  lemma EarlyAccounts(c: Bump, n: nat, k: Book)
    requires c.RcodeOf? && c.code < RCODES
    ensures PathBalanced([c], n, 1, k) && PathBalanced([BlockedQuery, c], n, 0, k) && PathBalanced([QueriesPassthrough, c], n, 0, k)
  {
    WeighOne(c, k);
    WeighTwo(BlockedQuery, c, k);
    WeighTwo(QueriesPassthrough, c, k);
    hide Weigh;
  }

  lemma Dns64Accounts(t: seq<Bump>, n: nat, k: Book)
    requires AllInRange(t, n) && AnswerBalance(k, Weigh(t, k))
    ensures PathBalanced([QueriesDns64] + t, n, 0, k)
  {
    WeighCons(QueriesDns64, t, k);
    hide Weigh;
  }

  lemma PathAccounts(ids: seq<string>, req: Request, v: Verdict, k: Book)
    requires Fits(ids, req, v) && !v.NotImplemented? && !v.Malformed?
    ensures PathBalanced(PathBumps(ids, v), |ids|, One(v.RefusedClient?), k)
  {
    var c := R(ReplyOf(v).rcode);
    RcodeBucket(ReplyOf(v).rcode);
    EarlyAccounts(c, |ids|, k);
    hide R, AnswerBumps, PathBalanced, Weigh, AllInRange, AnswerBalance, Relay, Idx;
    if Answer64(v) {
      AnswerAccounts(ids, req, v, k);
      Dns64Accounts(AnswerBumps(ids, v), |ids|, k);
    }
  }

  lemma TypedAccounts(q: Bump, t: seq<Bump>, n: nat, refusals: nat, k: Book)
    requires q.QtypeOf? && q.qtype < QTYPES && PathBalanced(t, n, refusals, k)
    ensures Balance(k, Shown(multiset([q] + t), n, k), 1, refusals)
  {
    WeighCons(q, t, k);
    hide Weigh, Shown;
    ShownIsWeighed([q] + t, n, k);
  }

  lemma ErrorAccounts(c: Bump, n: nat, k: Book)
    requires c.RcodeOf? && c.code < RCODES
    ensures Balance(k, Shown(multiset([c]), n, k), 1, 0)
  {
    WeighOne(c, k);
    hide Weigh, Shown;
    ShownIsWeighed([c], n, k);
  }

  /** The bumps of one request balance by themselves, in every book. */
  lemma RequestAccounts(ids: seq<string>, req: Request, v: Verdict, k: Book)
    requires Fits(ids, req, v)
    ensures Balance(k, Shown(multiset(Bumps(ids, req, v)), |ids|, k), 1, One(v.RefusedClient?))
  {
    RcodeBucket(NotImp);
    RcodeBucket(FormErr);
    hide R, Shown, Balance, PathBumps, PathBalanced, Idx;
    if v.NotImplemented? {
      ErrorAccounts(R(NotImp), |ids|, k);
    } else if v.Malformed? {
      ErrorAccounts(R(FormErr), |ids|, k);
    } else {
      PathAccounts(ids, req, v, k);
      TypedAccounts(QtypeOf(QtypeIndex(req.questions[0].qtype)), PathBumps(ids, v), |ids|, One(v.RefusedClient?), k);
    }
  }

  // ---------------------------------------------------------------- all requests

  /** A completed request, with what the pool answered it and its verdict. */
  datatype Served = Served(req: Request, w: Replies, v: Verdict)

  /** All bumps of a set of completed requests, in no order. */
  function Bag(ids: seq<string>, served: seq<Served>): multiset<Bump> {
    if |served| == 0 then multiset{}
    else multiset(Bumps(ids, served[0].req, served[0].v)) + Bag(ids, served[1..])
  }

  function Refusals(served: seq<Served>): nat {
    if |served| == 0 then 0 else One(served[0].v.RefusedClient?) + Refusals(served[1..])
  }

  lemma {:induction false} BagBalances(ids: seq<string>, served: seq<Served>, k: Book)
    requires forall i :: 0 <= i < |served| ==> Fits(ids, served[i].req, served[i].v)
    ensures Balance(k, Shown(Bag(ids, served), |ids|, k), |served|, Refusals(served))
  {
    hide Bumps, Shown, Fits;
    if |served| == 0 {
      ShownNone(|ids|, k);
    } else {
      BagBalances(ids, served[1..], k);
      RequestAccounts(ids, served[0].req, served[0].v, k);
      ShownAdds(multiset(Bumps(ids, served[0].req, served[0].v)), Bag(ids, served[1..]), |ids|, k);
    }
  }

  /** Metrics set up with the configured ids hold exactly those of an accepted chain. */
  lemma SharedIds(c: Chain, ids: seq<string>, prefix: V6, cap: Option<u32>, fallback: bool, cloudfront: seq<Range>)
    requires BuiltFrom(c, ids, prefix, cap, fallback, cloudfront)
    ensures Filter(KnownId, ids) == ids
    ensures forall ctx, answers, r :: Synthesized(c, ctx, answers, r) && r.Some? ==> Idx(ids, r.value.1) >= 0
  {
    forall id | id in ids ensures KnownId(id) {
      var k: nat :| k < |ids| && ids[k] == id;
      KnownIdsAreMakeable(id, prefix, cloudfront);
    }
    FilterAll(KnownId, ids);
    forall ctx, answers, r | Synthesized(c, ctx, answers, r) && r.Some? ensures Idx(ids, r.value.1) >= 0 {
      var w: nat :| Wins(c, ctx, answers, w) && Result(c, ctx, answers, w, r.value.0, r.value.1);
      MadeForId(ids[w], prefix, cloudfront);
      hide Make, Id, Idx;
      IdxIsFirst(ids, Id(c.synths[w]));
    }
  }

  /** A synthesized verdict names a synthesizer of the chain. */
  lemma WinnerCounted(s: Setup, ids: seq<string>, prefix: V6, cap: Option<u32>, fallback: bool, cloudfront: seq<Range>, x: Served)
    requires UsableSetup(s) && BuiltFrom(s.chain, ids, prefix, cap, fallback, cloudfront)
    requires |x.req.questions| == 1 && x.w.first.Some? && Deserves64(s, x.req, x.w.first.value, x.w, x.v)
    ensures x.v.Synthesized64? ==> Idx(ids, x.v.id) >= 0
  {
    hide BuiltFrom, Synthesized, Idx, HasAaaa, UsableSetup, ContextOf;
    SharedIds(s.chain, ids, prefix, cap, fallback, cloudfront);
    if x.v.Synthesized64? {
      var r := Some((x.v.records, x.v.id));
      assert Synthesized(s.chain, ContextOf(x.req, x.w.first.value, x.w.a), x.w.references, r);
    }
  }

  lemma DeservedFits(s: Setup, ids: seq<string>, prefix: V6, cap: Option<u32>, fallback: bool, cloudfront: seq<Range>, x: Served)
    requires UsableSetup(s) && BuiltFrom(s.chain, ids, prefix, cap, fallback, cloudfront)
    requires Deserves(s, x.req, x.w, x.v)
    ensures Fits(ids, x.req, x.v)
  {
    hide BuiltFrom, Idx, Allows, NameBlocked, Synthesized, Decide, ContextOf, UsableSetup;
    if x.v.Synthesized64? {
      WinnerCounted(s, ids, prefix, cap, fallback, cloudfront, x);
    }
  }

  /** Over every set of completed requests, in any interleaving of their bumps: the RCODE
      counters sum to the requests; the query-type counters, one per single-question
      request, split into DNS64, passthrough, blocked and refused ones; NODATA answers are
      the synthesized and the empty ones; and the synthesizers' hits sum to the synthesized
      answers, when chain and counters are set up with the same ids. */
  lemma CountersAddUp(s: Setup, ids: seq<string>, prefix: V6, cap: Option<u32>, fallback: bool, cloudfront: seq<Range>,
    served: seq<Served>, m: Metrics)
    requires UsableSetup(s) && BuiltFrom(s.chain, ids, prefix, cap, fallback, cloudfront)
    requires forall k :: 0 <= k < |served| ==> Deserves(s, served[k].req, served[k].w, served[k].v)
    requires m.Valid() && m.synthIds == Filter(KnownId, ids) && multiset(m.trace) == Bag(m.synthIds, served)
    ensures Sum(m.rcode) == |served|
    ensures Sum(m.qtype) == m.queriesDns64 + m.queriesPassthrough + m.blocked + Refusals(served)
    ensures m.nodata == m.synthesized + m.empty
    ensures m.nativeAaaa + m.nxdomain64 + m.nodata <= m.queriesDns64
    ensures Sum(m.synthHits) == m.synthesized
  {
    AllFit(s, ids, prefix, cap, fallback, cloudfront, served);
    hide UsableSetup, BuiltFrom, Deserves, Fits, Synthesized;
    ReadOff(m, served);
  }

  lemma AllFit(s: Setup, ids: seq<string>, prefix: V6, cap: Option<u32>, fallback: bool, cloudfront: seq<Range>, served: seq<Served>)
    requires UsableSetup(s) && BuiltFrom(s.chain, ids, prefix, cap, fallback, cloudfront)
    requires forall k :: 0 <= k < |served| ==> Deserves(s, served[k].req, served[k].w, served[k].v)
    ensures Filter(KnownId, ids) == ids
    ensures forall k :: 0 <= k < |served| ==> Fits(ids, served[k].req, served[k].v)
  {
    SharedIds(s.chain, ids, prefix, cap, fallback, cloudfront);
    hide BuiltFrom, Deserves, Fits, Synthesized;
    forall k | 0 <= k < |served| ensures Fits(ids, served[k].req, served[k].v) {
      DeservedFits(s, ids, prefix, cap, fallback, cloudfront, served[k]);
    }
  }

  lemma ReadOff(m: Metrics, served: seq<Served>)
    requires forall k :: 0 <= k < |served| ==> Fits(m.synthIds, served[k].req, served[k].v)
    requires m.Valid() && multiset(m.trace) == Bag(m.synthIds, served)
    ensures Sum(m.rcode) == |served|
    ensures Sum(m.qtype) == m.queriesDns64 + m.queriesPassthrough + m.blocked + Refusals(served)
    ensures m.nodata == m.synthesized + m.empty
    ensures m.nativeAaaa + m.nxdomain64 + m.nodata <= m.queriesDns64
    ensures Sum(m.synthHits) == m.synthesized
  {
    hide Fits, Total, Sum, Bag, Refusals;
    BagBalances(m.synthIds, served, Rcoded);
    BagBalances(m.synthIds, served, Unsplit);
    BagBalances(m.synthIds, served, Undecided);
    BagBalances(m.synthIds, served, Loose);
    BagBalances(m.synthIds, served, Branchless);
    m.ReadTotals();
  }

  /** Serving one more request, as the handler counts it, keeps the history one of completed
      requests. */
  lemma ServedOneMore(ids: seq<string>, served: seq<Served>, x: Served, trace: seq<Bump>)
    requires multiset(trace) == Bag(ids, served)
    ensures multiset(trace + Bumps(ids, x.req, x.v)) == Bag(ids, served + [x])
  {
    BagAppend(ids, served, x);
  }

  lemma {:induction false} BagAppend(ids: seq<string>, served: seq<Served>, x: Served)
    ensures Bag(ids, served + [x]) == Bag(ids, served) + multiset(Bumps(ids, x.req, x.v))
  {
    hide Bumps;
    if |served| == 0 {
      assert served + [x] == [x];
    } else {
      assert (served + [x])[1..] == served[1..] + [x];
      BagAppend(ids, served[1..], x);
    }
  }

  // ---------------------------------------------------------------- what each counter counts

  /** A kind of completed request. */
  type Kind = Served -> bool

  const DNS64: Kind := (x: Served) => Answer64(x.v)
  const PASSED: Kind := (x: Served) => x.v.Passed?
  const BLOCKED: Kind := (x: Served) => x.v.BlockedName?
  const SYNTHESIZED: Kind := (x: Served) => x.v.Synthesized64?
  const EMPTY: Kind := (x: Served) => x.v.Empty64?
  const NODATA: Kind := (x: Served) => x.v.Synthesized64? || x.v.Empty64?
  const NATIVE: Kind := (x: Served) => x.v.Relayed64? && HasAaaa(x.v.resp.answers)
  const NO_NAME: Kind := (x: Served) => x.v.Relayed64? && !HasAaaa(x.v.resp.answers) && x.v.resp.rcode == NXDomain

  /** Replied with one of those codes. */
  function Replied(code: Rcode): Kind { (x: Served) => ReplyOf(x.v).rcode == code }

  const OTHER_REPLY: Kind := (x: Served) => ReplyOf(x.v).rcode.OtherCode?

  /** Asked one question, of that type. */
  function Asked(rt: RecordType): Kind {
    (x: Served) => x.req.standardQuery && |x.req.questions| == 1 && x.req.questions[0].qtype == rt
  }

  const OTHER_ASKED: Kind := (x: Served) => x.req.standardQuery && |x.req.questions| == 1 && x.req.questions[0].qtype.OtherType?

  /** Synthesized by that synthesizer. */
  function WonBy(id: string): Kind { (x: Served) => x.v.Synthesized64? && x.v.id == id }

  /** A bump that requests of one kind make once, and no others, is made as often as there are
      requests of that kind. */
  lemma {:induction false} BumpsOfKind(ids: seq<string>, served: seq<Served>, b: Bump, kind: Kind)
    requires forall i :: 0 <= i < |served| ==> Makes(ids, served[i], b) == One(kind(served[i]))
    ensures Bag(ids, served)[b] == |Filter(kind, served)|
  {
    hide Bumps;
    if |served| > 0 {
      BumpsOfKind(ids, served[1..], b, kind);
    }
  }

  /** How often a request makes a bump. */
  function Makes(ids: seq<string>, x: Served, b: Bump): nat { multiset(Bumps(ids, x.req, x.v))[b] }

  /** How often a request of that verdict should make a bump: at most once. */
  predicate Ticks(ids: seq<string>, req: Request, v: Verdict, b: Bump) {
    match b
    case QueriesDns64 => Answer64(v)
    case QueriesPassthrough => v.Passed?
    case BlockedQuery => v.BlockedName?
    case NativeAaaa => v.Relayed64? && HasAaaa(v.resp.answers)
    case Nxdomain64 => v.Relayed64? && !HasAaaa(v.resp.answers) && v.resp.rcode == NXDomain
    case NodataSeen => v.Synthesized64? || v.Empty64?
    case SynthesizedAnswer => v.Synthesized64?
    case EmptyAnswer => v.Empty64?
    case RcodeOf(i) => i == RcodeIndex(ReplyOf(v).rcode)
    case QtypeOf(i) => !v.NotImplemented? && |req.questions| == 1 && i == QtypeIndex(req.questions[0].qtype)
    case HitOf(k) => v.Synthesized64? && k == Idx(ids, v.id)
  }

  lemma OnceEach(a: Bump, b: Bump, c: Bump, d: Bump, x: Bump)
    requires a != b && a != c && a != d && b != c && b != d && c != d
    ensures multiset([d])[x] == One(x == d)
    ensures multiset([a] + [d])[x] == One(x == a || x == d)
    ensures multiset([a, c, d])[x] == One(x == a || x == c || x == d)
    ensures multiset([a] + [b] + [c, d])[x] == One(x == a || x == b || x == c || x == d)
  {
    assert [a] + [b] + [c, d] == [a, b, c, d] && [a] + [d] == [a, d];
  }

  /** The bumps of an answer, as a set. */
  predicate AnswerBump(ids: seq<string>, v: Verdict, b: Bump) {
    || b == R(ReplyOf(v).rcode)
    || (v.Relayed64? && HasAaaa(v.resp.answers) && b == NativeAaaa)
    || (v.Relayed64? && !HasAaaa(v.resp.answers) && v.resp.rcode == NXDomain && b == Nxdomain64)
    || ((v.Synthesized64? || v.Empty64?) && b == NodataSeen)
    || (v.Synthesized64? && (b == SynthesizedAnswer || (b.HitOf? && b.place == Idx(ids, v.id))))
    || (v.Empty64? && b == EmptyAnswer)
  }

  lemma AnswerTicked(ids: seq<string>, req: Request, v: Verdict, b: Bump)
    requires Fits(ids, req, v) && Answer64(v)
    ensures AnswerBump(ids, v, b) <==> !b.QueriesDns64? && !b.QtypeOf? && Ticks(ids, req, v, b)
  {
    hide HasAaaa, Idx, RcodeIndex, QtypeIndex, ReplyOf;
  }

  lemma RelayedTicks(ids: seq<string>, v: Verdict, b: Bump)
    requires v.Relayed64?
    ensures multiset(AnswerBumps(ids, v))[b] == One(AnswerBump(ids, v, b))
  {
    var c := R(v.resp.rcode);
    assert ReplyOf(v).rcode == v.resp.rcode;
    hide HasAaaa, RcodeIndex, Idx, ReplyOf;
    if HasAaaa(v.resp.answers) {
      OnceEach(NativeAaaa, BlockedQuery, EmptyAnswer, c, b);
    } else if v.resp.rcode == NXDomain {
      OnceEach(Nxdomain64, BlockedQuery, EmptyAnswer, c, b);
    } else {
      assert AnswerBumps(ids, v) == [c];
    }
  }

  lemma SynthesizedTicks(ids: seq<string>, v: Verdict, b: Bump)
    requires v.Synthesized64? && Idx(ids, v.id) >= 0
    ensures multiset(AnswerBumps(ids, v))[b] == One(AnswerBump(ids, v, b))
  {
    var c, hit := R(NoError), HitOf(Idx(ids, v.id));
    assert AnswerBumps(ids, v) == [NodataSeen] + [hit] + [SynthesizedAnswer, c];
    assert AnswerBump(ids, v, b) <==> b == NodataSeen || b == hit || b == SynthesizedAnswer || b == c;
    assert c.RcodeOf?;
    hide Idx, HasAaaa, AnswerBumps, AnswerBump, R;
    OnceEach(NodataSeen, hit, SynthesizedAnswer, c, b);
  }

  lemma EmptyTicks(ids: seq<string>, v: Verdict, b: Bump)
    requires v.Empty64? || v.Failed64?
    ensures multiset(AnswerBumps(ids, v))[b] == One(AnswerBump(ids, v, b))
  {
    var c := R(ReplyOf(v).rcode);
    assert AnswerBumps(ids, v) == if v.Empty64? then [NodataSeen, EmptyAnswer, c] else [c];
    assert AnswerBump(ids, v, b) <==> b == c || (v.Empty64? && (b == NodataSeen || b == EmptyAnswer));
    assert c.RcodeOf?;
    hide Idx, HasAaaa, AnswerBumps, AnswerBump, ReplyOf, R;
    OnceEach(NodataSeen, BlockedQuery, EmptyAnswer, c, b);
  }

  lemma AnswerTicks(ids: seq<string>, req: Request, v: Verdict, b: Bump)
    requires Fits(ids, req, v) && Answer64(v)
    ensures multiset(AnswerBumps(ids, v))[b] == if b.QueriesDns64? || b.QtypeOf? then 0 else One(Ticks(ids, req, v, b))
  {
    hide AnswerBumps, Ticks, AnswerBump, Idx;
    AnswerTicked(ids, req, v, b);
    if v.Relayed64? {
      RelayedTicks(ids, v, b);
    } else if v.Synthesized64? {
      SynthesizedTicks(ids, v, b);
    } else {
      EmptyTicks(ids, v, b);
    }
  }

  lemma PathTicks(ids: seq<string>, req: Request, v: Verdict, b: Bump)
    requires Fits(ids, req, v) && !v.NotImplemented? && !v.Malformed?
    ensures multiset(PathBumps(ids, v))[b] == if b.QtypeOf? then 0 else One(Ticks(ids, req, v, b))
  {
    hide HasAaaa, Idx, RcodeIndex, QtypeIndex, AnswerBumps;
    if Answer64(v) {
      AnswerTicks(ids, req, v, b);
    }
  }

  lemma RequestTicks(ids: seq<string>, x: Served, b: Bump)
    requires Fits(ids, x.req, x.v)
    ensures Makes(ids, x, b) == One(Ticks(ids, x.req, x.v, b))
  {
    hide HasAaaa, Idx, RcodeIndex, QtypeIndex, PathBumps;
    if !x.v.NotImplemented? && !x.v.Malformed? {
      PathTicks(ids, x.req, x.v, b);
    }
  }

  /** The order the counters are shown in. */
  const CODES: seq<Rcode> := [NoError, NXDomain, ServFail, NotImp, FormErr, Refused]
  const TYPES: seq<RecordType> := [A, AAAA, CNAME, MX, TXT, NS, PTR, SOA, SRV, CAA, HTTPS, SVCB, DS, DNSKEY, NAPTR, ANY]

  lemma CodeBuckets(code: Rcode, i: nat)
    requires i < 6
    ensures i == RcodeIndex(code) <==> code == CODES[i]
    ensures RcodeIndex(code) == 6 <==> code.OtherCode?
  {
  }

  lemma TypeBuckets(rt: RecordType, i: nat)
    requires i < 16
    ensures i == QtypeIndex(rt) <==> rt == TYPES[i]
    ensures QtypeIndex(rt) == 16 <==> rt.OtherType?
  {
  }

  /** The served requests fit their verdicts, and only non-queries are not implemented. */
  ghost predicate AllFitting(ids: seq<string>, served: seq<Served>) {
    forall i :: 0 <= i < |served| ==> Fits(ids, served[i].req, served[i].v) && (served[i].v.NotImplemented? <==> !served[i].req.standardQuery)
  }

  lemma ScalarCounts(ids: seq<string>, served: seq<Served>)
    requires AllFitting(ids, served)
    ensures var bag := Bag(ids, served);
      && bag[QueriesDns64] == |Filter(DNS64, served)| && bag[QueriesPassthrough] == |Filter(PASSED, served)|
      && bag[BlockedQuery] == |Filter(BLOCKED, served)| && bag[NativeAaaa] == |Filter(NATIVE, served)|
      && bag[Nxdomain64] == |Filter(NO_NAME, served)| && bag[NodataSeen] == |Filter(NODATA, served)|
      && bag[SynthesizedAnswer] == |Filter(SYNTHESIZED, served)| && bag[EmptyAnswer] == |Filter(EMPTY, served)|
  {
    hide HasAaaa, Filter, Bag, Fits, Makes, Idx;
    forall i, b | 0 <= i < |served| ensures Makes(ids, served[i], b) == One(Ticks(ids, served[i].req, served[i].v, b)) {
      RequestTicks(ids, served[i], b);
    }
    BumpsOfKind(ids, served, QueriesDns64, DNS64);
    BumpsOfKind(ids, served, QueriesPassthrough, PASSED);
    BumpsOfKind(ids, served, BlockedQuery, BLOCKED);
    BumpsOfKind(ids, served, NativeAaaa, NATIVE);
    BumpsOfKind(ids, served, Nxdomain64, NO_NAME);
    BumpsOfKind(ids, served, NodataSeen, NODATA);
    BumpsOfKind(ids, served, SynthesizedAnswer, SYNTHESIZED);
    BumpsOfKind(ids, served, EmptyAnswer, EMPTY);
  }

  lemma CodeCounts(ids: seq<string>, served: seq<Served>, i: nat)
    requires AllFitting(ids, served) && i <= 6
    ensures Bag(ids, served)[RcodeOf(i)] == |Filter(if i < 6 then Replied(CODES[i]) else OTHER_REPLY, served)|
  {
    hide HasAaaa, Filter, Bag, Fits, Makes, RcodeIndex, Idx;
    var kind := if i < 6 then Replied(CODES[i]) else OTHER_REPLY;
    forall k | 0 <= k < |served| ensures Makes(ids, served[k], RcodeOf(i)) == One(kind(served[k])) {
      RequestTicks(ids, served[k], RcodeOf(i));
      CodeBuckets(ReplyOf(served[k].v).rcode, if i < 6 then i else 0);
    }
    BumpsOfKind(ids, served, RcodeOf(i), kind);
  }

  lemma TypeCounts(ids: seq<string>, served: seq<Served>, i: nat)
    requires AllFitting(ids, served) && i <= 16
    ensures Bag(ids, served)[QtypeOf(i)] == |Filter(if i < 16 then Asked(TYPES[i]) else OTHER_ASKED, served)|
  {
    hide HasAaaa, Filter, Bag, Makes, QtypeIndex, Idx;
    var kind := if i < 16 then Asked(TYPES[i]) else OTHER_ASKED;
    forall k | 0 <= k < |served| ensures Makes(ids, served[k], QtypeOf(i)) == One(kind(served[k])) {
      RequestTicks(ids, served[k], QtypeOf(i));
      if |served[k].req.questions| == 1 {
        TypeBuckets(served[k].req.questions[0].qtype, if i < 16 then i else 0);
      }
    }
    BumpsOfKind(ids, served, QtypeOf(i), kind);
  }

  lemma HitCounts(ids: seq<string>, served: seq<Served>, i: nat)
    requires AllFitting(ids, served) && i < |ids| && ids[i] !in ids[..i]
    ensures Bag(ids, served)[HitOf(i)] == |Filter(WonBy(ids[i]), served)|
  {
    hide HasAaaa, Filter, Bag, Makes, Idx;
    forall k | 0 <= k < |served| ensures Makes(ids, served[k], HitOf(i)) == One(WonBy(ids[i])(served[k])) {
      RequestTicks(ids, served[k], HitOf(i));
      if served[k].v.Synthesized64? {
        FirstPlace(ids, served[k].v.id, i);
      }
    }
    BumpsOfKind(ids, served, HitOf(i), WonBy(ids[i]));
  }

  lemma FirstPlace(ids: seq<string>, id: string, i: nat)
    requires i < |ids| && ids[i] !in ids[..i] && Idx(ids, id) >= 0
    ensures Idx(ids, id) == i <==> id == ids[i]
  {
    forall j | 0 <= j < i ensures ids[j] != ids[i] {
      assert ids[..i][j] == ids[j];
    }
    IdxIsFirst(ids, id);
    IdxIsFirst(ids, ids[i]);
    hide Idx;
  }

  /** Over every set of completed requests, in any interleaving of their bumps, each counter
      reads the number of requests of its kind, by their verdict, the code they were sent,
      the type they asked for, and the synthesizer that answered them. */
  lemma EveryCounterCounts(s: Setup, ids: seq<string>, prefix: V6, cap: Option<u32>, fallback: bool, cloudfront: seq<Range>,
    served: seq<Served>, m: Metrics)
    requires UsableSetup(s) && BuiltFrom(s.chain, ids, prefix, cap, fallback, cloudfront)
    requires forall k :: 0 <= k < |served| ==> Deserves(s, served[k].req, served[k].w, served[k].v)
    requires m.Valid() && m.synthIds == Filter(KnownId, ids) && multiset(m.trace) == Bag(m.synthIds, served)
    ensures m.queriesDns64 == |Filter(DNS64, served)| && m.queriesPassthrough == |Filter(PASSED, served)|
    ensures m.blocked == |Filter(BLOCKED, served)| && m.nativeAaaa == |Filter(NATIVE, served)|
    ensures m.nxdomain64 == |Filter(NO_NAME, served)| && m.nodata == |Filter(NODATA, served)|
    ensures m.synthesized == |Filter(SYNTHESIZED, served)| && m.empty == |Filter(EMPTY, served)|
    ensures |m.rcode| == 7 && m.rcode[6] == |Filter(OTHER_REPLY, served)|
    ensures forall i :: 0 <= i < 6 ==> m.rcode[i] == |Filter(Replied(CODES[i]), served)|
    ensures |m.qtype| == 17 && m.qtype[16] == |Filter(OTHER_ASKED, served)|
    ensures forall i :: 0 <= i < 16 ==> m.qtype[i] == |Filter(Asked(TYPES[i]), served)|
    ensures m.synthIds == ids && |m.synthHits| == |ids|
    ensures forall i :: 0 <= i < |ids| && ids[i] !in ids[..i] ==> m.synthHits[i] == |Filter(WonBy(ids[i]), served)|
  {
    AllFit(s, ids, prefix, cap, fallback, cloudfront, served);
    forall k | 0 <= k < |served| ensures served[k].v.NotImplemented? <==> !served[k].req.standardQuery {
      VerdictByRequest(s, served[k].req, served[k].w, served[k].v);
    }
    hide UsableSetup, BuiltFrom, Deserves, Fits, Filter, Bag, DNS64, PASSED, BLOCKED, NATIVE, NO_NAME, NODATA, SYNTHESIZED, EMPTY;
    hide OTHER_REPLY, OTHER_ASKED, Replied, Asked, WonBy, CODES, TYPES;
    ScalarCounts(ids, served);
    forall i: nat | i <= 6 ensures Bag(ids, served)[RcodeOf(i)] == |Filter(if i < 6 then Replied(CODES[i]) else OTHER_REPLY, served)| {
      CodeCounts(ids, served, i);
    }
    forall i: nat | i <= 16 ensures Bag(ids, served)[QtypeOf(i)] == |Filter(if i < 16 then Asked(TYPES[i]) else OTHER_ASKED, served)| {
      TypeCounts(ids, served, i);
    }
    forall i: nat | i < |ids| && ids[i] !in ids[..i] ensures Bag(ids, served)[HitOf(i)] == |Filter(WonBy(ids[i]), served)| {
      HitCounts(ids, served, i);
    }
  }
}
