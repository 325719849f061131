/** What the handler's verdicts guarantee, across chain, cache and access rules. */
module HandlerLaws {
  import opened Text
  import opened Dns
  import opened Decision
  import opened Addresses
  import opened Providers
  import opened Chain
  import opened ChainLaws
  import opened Handler
  import Blocklist
  import Cache

  /** A request gets one verdict: the decision is a function of setup, request and replies. */
  lemma OneVerdict(s: Setup, req: Request, w: Replies, v: Verdict, v': Verdict)
    requires UsableSetup(s) && Deserves(s, req, w, v) && Deserves(s, req, w, v')
    ensures v == v'
  {
    hide Allows, NameBlocked, Synthesized, Decide, ContextOf, WellFormed;
    if req.standardQuery && |req.questions| == 1 && w.first.Some? && (v.Synthesized64? || v.Empty64?) && (v'.Synthesized64? || v'.Empty64?) {
      OneResult(s.chain, ContextOf(req, w.first.value, w.a), w.references, ResultOf(v), ResultOf(v'));
    }
  }

  function ResultOf(v: Verdict): Option<(seq<Record>, string)> {
    match v case Synthesized64(records, id) => Some((records, id)) case _ => None
  }

  // ---------------------------------------------------------------- what decides the verdict

  /** Which requests are turned away or passed through, on the request's own fields: only an
      AAAA question of class IN with CD clear reaches synthesis, and every other question of
      an admitted client is passed on. */
  lemma VerdictByRequest(s: Setup, req: Request, w: Replies, v: Verdict)
    requires UsableSetup(s) && Deserves(s, req, w, v)
    ensures v.NotImplemented? <==> !req.standardQuery
    ensures v.Malformed? <==> req.standardQuery && |req.questions| != 1
    ensures v.RefusedClient? <==> req.standardQuery && |req.questions| == 1 && !Allows(s.acl, req.client)
    ensures v.BlockedName? <==> req.standardQuery && |req.questions| == 1 && Allows(s.acl, req.client) && NameListed(s, req.questions[0].name)
    ensures Admitted(s, req) ==>
      (v == Passed(w.first) <==> req.questions[0].qtype != AAAA || req.questions[0].qclass != 1 || req.checkingDisabled)
    ensures Answer64(v) <==>
      Admitted(s, req) && req.questions[0].qtype == AAAA && req.questions[0].qclass == 1 && !req.checkingDisabled
    ensures v.Synthesized64? ==>
      |req.questions| == 1 && req.questions[0].qtype == AAAA && req.questions[0].qclass == 1 && !req.checkingDisabled
  {
    hide Allows, Blocklist.Suffix, Synthesized, WellFormed, Decide, ContextOf;
  }

  /** Some suffix of the name is blocked and none is excepted. */
  ghost predicate NameListed(s: Setup, name: Name) {
    && s.blocklist.Some?
    && (exists k :: 0 <= k < |name| && Blocklist.Suffix(name, k) in s.blocklist.value.block)
    && (forall k :: 0 <= k < |name| ==> Blocklist.Suffix(name, k) !in s.blocklist.value.allow)
  }

  /** A standard query with one question, neither refused nor blocked. */
  ghost predicate Admitted(s: Setup, req: Request)
    requires UsableSetup(s)
  {
    req.standardQuery && |req.questions| == 1 && Allows(s.acl, req.client) && !NameListed(s, req.questions[0].name)
  }

  /** How the upstream answer decides between relaying, synthesis and failure. */
  lemma VerdictByAnswer(s: Setup, req: Request, w: Replies, v: Verdict)
    requires UsableSetup(s) && Deserves(s, req, w, v) && Answer64(v) && |req.questions| == 1
    ensures v.Failed64? <==> w.first.None?
    ensures v.Relayed64? <==> w.first.Some? && (w.first.value.rcode != NoError || AnyAaaa(w.first.value))
    ensures v.Relayed64? ==> v.resp == w.first.value
    ensures v.Synthesized64? ==> Synthesized(s.chain, ContextOf(req, w.first.value, w.a), w.references, Some((v.records, v.id)))
    ensures v.Empty64? ==> v.resp == w.first.value && Synthesized(s.chain, ContextOf(req, w.first.value, w.a), w.references, None)
  {
    hide Allows, NameBlocked, Synthesized, WellFormed, ContextOf;
  }

  ghost predicate AnyAaaa(r: Response) { exists i :: 0 <= i < |r.answers| && r.answers[i].data.AaaaData? }

  /** What synthesis works from: the queried name, the targets of the CNAME records of the
      AAAA answer, the A records of a NOERROR answer to the A lookup, and the first SOA. */
  lemma ContextByRecords(req: Request, aaaa: Response, a: Option<Response>)
    requires |req.questions| == 1
    ensures var ctx := ContextOf(req, aaaa, a); var cnames := Filter(IsCname, aaaa.answers);
      && ctx.name == req.questions[0].name
      && |ctx.cnameTargets| == |cnames|
      && (forall k :: 0 <= k < |cnames| ==> cnames[k].data.CnameData? && ctx.cnameTargets[k] == cnames[k].data.target)
      && (a.None? || a.value.rcode != NoError ==> ctx.aRecords == [])
      && (a.Some? && a.value.rcode == NoError ==> AddressesOf(ctx.aRecords, Filter(IsA, a.value.answers)))
      && ((forall i :: 0 <= i < |aaaa.authority| ==> !aaaa.authority[i].data.SoaData?) ==> ctx.authority == Authority(None, None))
      && (forall i :: 0 <= i < |aaaa.authority| && FirstSoa(aaaa.authority, i) ==>
        ctx.authority == Authority(Some(aaaa.authority[i].data.rname), Some(aaaa.authority[i].owner)))
  {
    TargetsByIndex(aaaa.answers);
    LookupAByIndex(a);
    SignalsByIndex(aaaa.authority);
    hide CnameTargets, LookupA, SignalsOf, Filter, FirstSoa;
  }

  // ---------------------------------------------------------------- what is sent and asked

  /** The reply is the upstream response, section by section, AD bit and RCODE included. */
  ghost predicate Repeats(reply: Reply, r: Response) {
    && reply.rcode == r.rcode && reply.authenticData == r.authenticData
    && reply.answers == r.answers && reply.authority == r.authority && reply.additionals == r.additionals
  }

  /** An answer without records that nobody vouches for. */
  ghost predicate Bare(reply: Reply, rcode: Rcode) {
    reply.rcode == rcode && !reply.authenticData && reply.answers == [] && reply.authority == [] && reply.additionals == []
  }

  /** Requests that are turned away get an error answer without records, never an upstream's. */
  lemma TurnedAway(s: Setup, req: Request, w: Replies, v: Verdict)
    requires UsableSetup(s) && Deserves(s, req, w, v)
    ensures !req.standardQuery ==> Bare(ReplyOf(v), NotImp)
    ensures req.standardQuery && |req.questions| != 1 ==> Bare(ReplyOf(v), FormErr)
    ensures req.standardQuery && |req.questions| == 1 && !Allows(s.acl, req.client) ==> Bare(ReplyOf(v), Refused)
    ensures req.standardQuery && |req.questions| == 1 && Allows(s.acl, req.client) && NameListed(s, req.questions[0].name) ==>
      Bare(ReplyOf(v), NXDomain)
  {
    hide Allows, Blocklist.Suffix, Synthesized, WellFormed, Decide, ContextOf;
  }

  /** What the pool is asked: nothing for a request that is turned away; the client's own
      question; on the way to synthesis also the A question at the same name, at the same
      time. Both carry the client's own DO and CD bits. Reference lookups, DO and CD clear,
      come behind them, and only for a NODATA answer. */
  lemma AskedOfThePool(s: Setup, req: Request, w: Replies, v: Verdict, calls: seq<Query>)
    requires UsableSetup(s) && Deserves(s, req, w, v) && CallsOf(s, req, w, v, calls)
    ensures !Admitted(s, req) ==> calls == []
    ensures Admitted(s, req) ==> |calls| >= 1 && Carries(calls[0], req) && calls[0].questions == req.questions
    ensures Admitted(s, req) && (req.questions[0].qtype != AAAA || req.questions[0].qclass != 1 || req.checkingDisabled) ==> |calls| == 1
    ensures Answer64(v) ==> |calls| >= 2 && Carries(calls[1], req) && calls[1].questions == [Question(req.questions[0].name, A, 1)]
    ensures Answer64(v) && |calls| > 2 ==> w.first.Some? && w.first.value.rcode == NoError && !AnyAaaa(w.first.value)
    ensures forall k :: 2 <= k < |calls| ==> AaaaReference(calls[k])
  {
    VerdictByRequest(s, req, w, v);
    hide Deserves, UsableSetup, NameListed, Allows, AnyAaaa;
    if Answer64(v) {
      VerdictByAnswer(s, req, w, v);
      OnlyReferences(s, req, w, v, calls);
    }
    hide Searched;
  }

  lemma OnlyReferences(s: Setup, req: Request, w: Replies, v: Verdict, calls: seq<Query>)
    requires CallsOf(s, req, w, v, calls) && Answer64(v)
    ensures forall k :: 2 <= k < |calls| ==> AaaaReference(calls[k])
  {
    hide ContextOf, Wins;
    if v.Synthesized64? || v.Empty64? {
      if |req.questions| == 1 {
        var ctx := ContextOf(req, w.first.value, w.a);
        forall n: nat | n <= |s.chain.synths| ensures AllReferences(Lookups(s.chain, ctx, n)) {
          LookupsRefer(s.chain, ctx, n);
        }
        assert AllReferences(calls[2..]) by { hide AllReferences, Lookups; WinnerInChain(s.chain, ctx, w.references); }
        assert forall k :: 2 <= k < |calls| ==> calls[2..][k - 2] == calls[k];
      }
    }
  }

  lemma WinnerInChain(c: Chain, ctx: Context, answers: AllAnswers)
    ensures forall n: nat :: Wins(c, ctx, answers, n) ==> n < |c.synths|
  {
  }

  ghost predicate AllReferences(calls: seq<Query>) { forall k :: 0 <= k < |calls| ==> AaaaReference(calls[k]) }

  lemma {:induction false} LookupsRefer(c: Chain, ctx: Context, n: nat)
    requires n <= |c.synths|
    ensures AllReferences(Lookups(c, ctx, n))
  {
    hide Detect;
    if n > 0 {
      LookupsRefer(c, ctx, n - 1);
    }
  }

  ghost predicate Carries(q: Query, req: Request) {
    q.dnssecOk == req.dnssecOk && q.checkingDisabled == req.checkingDisabled
  }

  ghost predicate AaaaReference(q: Query) {
    && |q.questions| == 1 && q.questions[0].qtype == AAAA && q.questions[0].qclass == 1 && !q.dnssecOk && !q.checkingDisabled
  }

  // ---------------------------------------------------------------- synthesis

  /** Synthesis never masks anything: only a NOERROR answer without AAAA to a plain AAAA
      question with CD clear is replaced, and then by unauthenticated, servable AAAA
      records at the queried name. Every other answer of the pool is relayed as it is, and
      no answer at all becomes SERVFAIL. */
  lemma SynthesisMasksNothing(s: Setup, req: Request, w: Replies, v: Verdict)
    requires UsableSetup(s) && Deserves(s, req, w, v) && |req.questions| == 1
    requires v.Passed? || Answer64(v)
    ensures v.Synthesized64? ==> Replaceable(req, w) && ServableReply(s, req, w, ReplyOf(v))
    ensures !v.Synthesized64? ==>
      match w.first case Some(r) => Repeats(ReplyOf(v), r) case None => Bare(ReplyOf(v), ServFail)
  {
    VerdictByRequest(s, req, w, v);
    hide Allows, NameBlocked, WellFormed, Synthesized, ServableReply, NameListed;
    if v.Synthesized64? {
      var ctx := ContextOf(req, w.first.value, w.a);
      hide ContextOf, CnameTargets, LookupA, SignalsOf;
      Served64(s, req, w, v);
    }
  }

  ghost predicate Replaceable(req: Request, w: Replies)
    requires |req.questions| == 1
  {
    && req.questions[0].qtype == AAAA && req.questions[0].qclass == 1 && !req.checkingDisabled
    && w.first.Some? && w.first.value.rcode == NoError && !AnyAaaa(w.first.value)
  }

  ghost predicate ServableReply(s: Setup, req: Request, w: Replies, reply: Reply)
    requires |req.questions| == 1 && w.first.Some?
  {
    && reply.rcode == NoError && !reply.authenticData && reply.authority == [] && reply.additionals == []
    && |reply.answers| > 0
    && forall i :: 0 <= i < |reply.answers| ==> Servable(reply.answers[i], ContextOf(req, w.first.value, w.a), s.chain.ttlCap)
  }

  lemma Served64(s: Setup, req: Request, w: Replies, v: Verdict)
    requires |req.questions| == 1 && w.first.Some? && v.Synthesized64?
    requires Synthesized(s.chain, ContextOf(req, w.first.value, w.a), w.references, Some((v.records, v.id)))
    ensures ServableReply(s, req, w, ReplyOf(v))
  {
    hide ContextOf, Synthesized, Servable;
    var ctx := ContextOf(req, w.first.value, w.a);
    ResultsAreServable(s.chain, ctx, w.references, Some((v.records, v.id)));
  }

  /** With an accepted translator in the chain, an AAAA question that comes back NODATA is
      answered whenever some A address is eligible, however every reference lookup went. */
  lemma TranslatorAnswers(s: Setup, ids: seq<string>, prefix: V6, cap: Option<u32>, fallback: bool, cloudfront: seq<Range>,
    req: Request, w: Replies, v: Verdict)
    requires UsableSetup(s) && BuiltFrom(s.chain, ids, prefix, cap, fallback, cloudfront)
    requires AcceptedPrefix(prefix) && "nat64" in ids
    requires Deserves(s, req, w, v) && |req.questions| == 1 && Answer64(v) && Replaceable(req, w)
    requires var ctx := ContextOf(req, w.first.value, w.a); Eligible(ctx.name, ctx.AAddrs()) != []
    ensures v.Synthesized64?
  {
    var ctx := ContextOf(req, w.first.value, w.a);
    OnPath(s, req, w.first.value, w, v);
    hide Deserves, UsableSetup, Synthesized, Eligible, AcceptedPrefix, BuiltFrom, ContextOf;
    TranslatorAlwaysSome(s.chain, ids, prefix, cap, fallback, cloudfront, ctx, w.references);
  }

  lemma TranslatorAlwaysSome(c: Chain, ids: seq<string>, prefix: V6, cap: Option<u32>, fallback: bool, cloudfront: seq<Range>,
    ctx: Context, answers: AllAnswers)
    requires BuiltFrom(c, ids, prefix, cap, fallback, cloudfront) && AcceptedPrefix(prefix)
    requires "nat64" in ids && Eligible(ctx.name, ctx.AAddrs()) != []
    ensures !Synthesized(c, ctx, answers, None)
  {
    hide BuiltFrom, AcceptedPrefix, Eligible;
    if Synthesized(c, ctx, answers, None) {
      TranslatorNeverFails(c, ids, prefix, cap, fallback, cloudfront, ctx, answers, None);
    }
  }

  /** Answering the AAAA side from the cache changes nothing about the verdict, synthesized
      records included, as long as the cache kept the decision. */
  lemma CachedAaaaSameVerdict(s: Setup, req: Request, w: Replies, w': Replies, v: Verdict, v': Verdict,
    resp: Response, served: Response)
    requires UsableSetup(s) && |req.questions| == 1
    requires w.first == Some(resp) && w' == w.(first := Some(served)) && Decide(served) == Decide(resp)
    requires Deserves(s, req, w, v) && Deserves(s, req, w', v') && Answer64(v)
    ensures v.Relayed64? <==> v'.Relayed64?
    ensures v.Synthesized64? || v'.Synthesized64? ==> v == v'
    ensures v.Empty64? <==> v'.Empty64?
  {
    hide Deserves, UsableSetup, Admitted, Deserves64;
    VerdictByRequest(s, req, w, v);
    VerdictByRequest(s, req, w', v');
    OnPath(s, req, resp, w, v);
    OnPath(s, req, served, w', v');
    if Decide(resp).Nodata? {
      SameContext(req, resp, served, w.a);
    }
    BranchOnPath(s, req, resp, w, v);
    BranchOnPath(s, req, served, w', v');
    hide Decide, ContextOf, Synthesized;
    if Decide(resp).Nodata? {
      OneResult(s.chain, ContextOf(req, resp, w.a), w.references, ResultOf(v), ResultOf(v'));
    }
  }

  lemma SameContext(req: Request, resp: Response, served: Response, a: Option<Response>)
    requires |req.questions| == 1 && Decide(served) == Decide(resp) && Decide(resp).Nodata?
    ensures ContextOf(req, served, a) == ContextOf(req, resp, a)
  {
  }

  lemma BranchOnPath(s: Setup, req: Request, aaaa: Response, w: Replies, v: Verdict)
    requires |req.questions| == 1 && Deserves64(s, req, aaaa, w, v)
    ensures v.Relayed64? <==> !Decide(aaaa).Nodata?
    ensures v.Synthesized64? || v.Empty64? <==> Decide(aaaa).Nodata?
    ensures Decide(aaaa).Nodata? ==> Synthesized(s.chain, ContextOf(req, aaaa, w.a), w.references, ResultOf(v))
  {
    hide Synthesized, ContextOf, Decide;
  }

  /** A verdict of the DNS64 path on an answer is the one the answer's branch calls for. */
  lemma OnPath(s: Setup, req: Request, aaaa: Response, w: Replies, v: Verdict)
    requires UsableSetup(s) && |req.questions| == 1 && w.first == Some(aaaa)
    requires Deserves(s, req, w, v) && Answer64(v)
    ensures Deserves64(s, req, aaaa, w, v)
  {
    hide Allows, NameBlocked, WellFormed, Deserves64;
  }

  /** ... which it does exactly for answers that are not an NXDOMAIN with AAAA records, nor
      a positive one without AAAA that carried an SOA. */
  lemma CacheKeepsVerdict(s: Setup, req: Request, w: Replies, w': Replies, v: Verdict, v': Verdict,
    resp: Response, served: Response, fetchedAt: nat, now: nat, window: nat)
    requires UsableSetup(s) && |req.questions| == 1
    requires Cache.ServedFrom(req.questions[0], resp, fetchedAt, now, window, served)
    requires w.first == Some(resp) && w' == w.(first := Some(served))
    requires Deserves(s, req, w, v) && Deserves(s, req, w', v') && Answer64(v)
    requires if resp.rcode == NXDomain then !HasAaaa(resp.answers)
      else resp.answers == [] || HasAaaa(resp.answers) || SignalsOf(resp.authority) == NO_SIGNALS
    ensures (v.Relayed64? <==> v'.Relayed64?) && (v.Empty64? <==> v'.Empty64?)
    ensures v.Synthesized64? || v'.Synthesized64? ==> v == v'
  {
    hide Deserves, UsableSetup, Cache.ServedFrom, Decide;
    Cache.CacheKeepsDecision(req.questions[0], resp, fetchedAt, now, window, served);
    CachedAaaaSameVerdict(s, req, w, w', v, v', resp, served);
  }
}
