/** The DNS64 request handler: one decision per request, what it answers, what it asks the
    pool, and what it counts (section 5.1 of RFC 6147). */
module Handler {
  import opened Text
  import opened Dns
  import opened Decision
  import opened Addresses
  import opened Providers
  import opened Chain
  import opened ChainLaws
  import opened Metrics
  import Blocklist

  /** A client request, as far as the handler reads it. */
  datatype Request = Request(
    standardQuery: bool,
    questions: seq<Question>,
    checkingDisabled: bool,
    dnssecOk: bool,
    client: Client)

  /** What the pool answers: to the client's own question, to the A question beside it, and
      to the reference lookups of synthesis. */
  datatype Replies = Replies(first: Option<Response>, a: Option<Response>, references: AllAnswers)

  /** What the client is sent, besides header fields copied from the request. */
  datatype Reply = Reply(rcode: Rcode, authenticData: bool, answers: seq<Record>, authority: seq<Record>, additionals: seq<Record>)

  datatype Verdict =
    | NotImplemented
    | Malformed
    | RefusedClient
    | BlockedName
    | Passed(passed: Option<Response>)
    | Failed64
    | Relayed64(resp: Response)
    | Synthesized64(records: seq<Record>, id: string)
    | Empty64(resp: Response)

  /** What a handler is set up with. */
  datatype Setup = Setup(chain: Chain, acl: seq<Net6>, blocklist: Option<Blocklist.Blocklist>)

  ghost predicate UsableSetup(s: Setup) { WellFormed(s.acl) }

  // ---------------------------------------------------------------- the decision

  /** A query the DNS64 path is for: AAAA, class IN, CD clear. */
  predicate IsDns64(req: Request)
    requires |req.questions| == 1
  {
    req.questions[0].qtype == AAAA && req.questions[0].qclass == CLASS_IN && !req.checkingDisabled
  }

  ghost predicate NameBlocked(s: Setup, req: Request)
    requires |req.questions| == 1
  {
    s.blocklist.Some? && Blocklist.Blocked(s.blocklist.value, req.questions[0].name)
  }

  function ContextOf(req: Request, aaaa: Response, a: Option<Response>): Context
    requires |req.questions| == 1
  {
    Context(req.questions[0].name, CnameTargets(aaaa.answers), LookupA(a), SignalsOf(aaaa.authority))
  }

  /** The verdict a request deserves. */
  ghost predicate Deserves(s: Setup, req: Request, w: Replies, v: Verdict)
    requires UsableSetup(s)
  {
    if !req.standardQuery then v == NotImplemented
    else if |req.questions| != 1 then v == Malformed
    else if !Allows(s.acl, req.client) then v == RefusedClient
    else if NameBlocked(s, req) then v == BlockedName
    else if !IsDns64(req) then v == Passed(w.first)
    else match w.first
      case None => v == Failed64
      case Some(aaaa) => Deserves64(s, req, aaaa, w, v)
  }

  /** The DNS64 verdict on an AAAA response, by the branch the response is on. */
  ghost predicate Deserves64(s: Setup, req: Request, aaaa: Response, w: Replies, v: Verdict)
    requires |req.questions| == 1
  {
    match Decide(aaaa)
    case Nodata(_, _) =>
      (match v
       case Synthesized64(records, id) => Synthesized(s.chain, ContextOf(req, aaaa, w.a), w.references, Some((records, id)))
       case Empty64(r) => r == aaaa && Synthesized(s.chain, ContextOf(req, aaaa, w.a), w.references, None)
       case _ => false)
    case _ => v == Relayed64(aaaa)
  }

  function ErrorReply(code: Rcode): Reply { Reply(code, false, [], [], []) }

  function Relay(r: Response): Reply { Reply(r.rcode, r.authenticData, r.answers, r.authority, r.additionals) }

  function ReplyOf(v: Verdict): Reply {
    match v
    case NotImplemented => ErrorReply(NotImp)
    case Malformed => ErrorReply(FormErr)
    case RefusedClient => ErrorReply(Refused)
    case BlockedName => ErrorReply(NXDomain)
    case Passed(resp) => (match resp case Some(r) => Relay(r) case None => ErrorReply(ServFail))
    case Failed64 => ErrorReply(ServFail)
    case Relayed64(r) => Relay(r)
    case Synthesized64(records, _) => Reply(NoError, false, records, [], [])
    case Empty64(r) => Relay(r)
  }

  // ---------------------------------------------------------------- what is counted

  function R(code: Rcode): Bump { RcodeOf(RcodeIndex(code)) }

  /** The counter of a relayed DNS64 answer's branch. */
  function BranchBumps(r: Response): seq<Bump> {
    if HasAaaa(r.answers) then [NativeAaaa] else if r.rcode == NXDomain then [Nxdomain64] else []
  }

  /** The bumps of a request with that verdict, in order. */
  function Bumps(ids: seq<string>, req: Request, v: Verdict): seq<Bump> {
    if v.NotImplemented? then [R(NotImp)]
    else if v.Malformed? || |req.questions| != 1 then [R(FormErr)]
    else [QtypeOf(QtypeIndex(req.questions[0].qtype))] + PathBumps(ids, v)
  }

  function PathBumps(ids: seq<string>, v: Verdict): seq<Bump> {
    match v
    case BlockedName => [BlockedQuery, R(NXDomain)]
    case Passed(resp) => [QueriesPassthrough, R(ReplyOf(v).rcode)]
    case RefusedClient => [R(Refused)]
    case _ => [QueriesDns64] + AnswerBumps(ids, v)
  }

  /** The bumps of the DNS64 path behind its first. */
  function AnswerBumps(ids: seq<string>, v: Verdict): seq<Bump> {
    match v
    case Relayed64(r) => BranchBumps(r) + [R(r.rcode)]
    case Synthesized64(_, id) => [NodataSeen] + HitBump(ids, id) + [SynthesizedAnswer, R(NoError)]
    case Empty64(r) => [NodataSeen, EmptyAnswer, R(r.rcode)]
    case _ => [R(ServFail)]
  }

  // ---------------------------------------------------------------- the handler

  /** The query sent on: the client's CD and DO bits with it. */
  function Upstream(req: Request, q: Question): Query { Query([q], req.dnssecOk, req.checkingDisabled) }

  /** What is asked of the pool on the way to a verdict: the client's question; on the DNS64
      path the A question beside it; and for a NODATA answer what the chain looks up. */
  ghost predicate CallsOf(s: Setup, req: Request, w: Replies, v: Verdict, calls: seq<Query>) {
    if v.NotImplemented? || v.Malformed? || v.RefusedClient? || v.BlockedName? || |req.questions| != 1 then calls == []
    else if v.Passed? then calls == [Upstream(req, req.questions[0])]
    else
      && |calls| >= 2 && calls[0] == Upstream(req, req.questions[0])
      && calls[1] == Upstream(req, Question(req.questions[0].name, A, CLASS_IN))
      && match v
         case Synthesized64(_, _) => w.first.Some? && Searched(s.chain, ContextOf(req, w.first.value, w.a), w.references, true, calls[2..])
         case Empty64(_) => w.first.Some? && Searched(s.chain, ContextOf(req, w.first.value, w.a), w.references, false, calls[2..])
         case _ => |calls| == 2
  }

  /** Every branch but NODATA relays. */
  lemma RelayedVerdict(s: Setup, req: Request, aaaa: Response, w: Replies)
    requires |req.questions| == 1
    ensures Decide(aaaa).Nodata? <==> !HasAaaa(aaaa.answers) && aaaa.rcode == NoError
    ensures !Decide(aaaa).Nodata? ==> Deserves64(s, req, aaaa, w, Relayed64(aaaa))
  {
  }

  function NodataVerdict(aaaa: Response, result: Option<(seq<Record>, string)>): Verdict {
    match result case Some((records, id)) => Synthesized64(records, id) case None => Empty64(aaaa)
  }

  lemma NodataDeserved(s: Setup, req: Request, aaaa: Response, w: Replies, result: Option<(seq<Record>, string)>)
    requires |req.questions| == 1 && Decide(aaaa).Nodata?
    requires Synthesized(s.chain, ContextOf(req, aaaa, w.a), w.references, result)
    ensures Deserves64(s, req, aaaa, w, NodataVerdict(aaaa, result))
    ensures ContextOf(req, aaaa, w.a) == Context(req.questions[0].name, CnameTargets(aaaa.answers), LookupA(w.a), SignalsOf(aaaa.authority))
  {
  }

  lemma NodataCounted(t: seq<Bump>, ids: seq<string>, aaaa: Response, result: Option<(seq<Record>, string)>)
    ensures result.Some? ==>
      t + [NodataSeen] + HitBump(ids, result.value.1) + [SynthesizedAnswer] + [R(NoError)]
      == t + AnswerBumps(ids, NodataVerdict(aaaa, result))
    ensures result.None? ==> t + [NodataSeen] + [EmptyAnswer] + [R(aaaa.rcode)] == t + AnswerBumps(ids, NodataVerdict(aaaa, result))
    ensures ReplyOf(NodataVerdict(aaaa, result)) ==
      match result case Some((records, _)) => Reply(NoError, false, records, [], []) case None => Relay(aaaa)
    ensures NodataVerdict(aaaa, result) == match result case Some((records, id)) => Synthesized64(records, id) case None => Empty64(aaaa)
  {
    hide HitBump, R;
  }

  lemma RelayCounted(t: seq<Bump>, ids: seq<string>, aaaa: Response)
    ensures var all := t + AnswerBumps(ids, Relayed64(aaaa));
      if HasAaaa(aaaa.answers) then t + [NativeAaaa] + [R(aaaa.rcode)] == all
      else if aaaa.rcode == NXDomain then t + [Nxdomain64] + [R(NXDomain)] == all
      else t + [R(aaaa.rcode)] == all
    ensures t + [R(ServFail)] == t + AnswerBumps(ids, Failed64)
    ensures ReplyOf(Relayed64(aaaa)) == Relay(aaaa)
  {
    hide HasAaaa, R;
  }

  predicate Answer64(v: Verdict) { v.Failed64? || v.Relayed64? || v.Synthesized64? || v.Empty64? }

  lemma PathCounted(t: seq<Bump>, ids: seq<string>, v: Verdict)
    ensures t + [R(Refused)] == t + PathBumps(ids, RefusedClient)
    ensures t + [BlockedQuery] + [R(NXDomain)] == t + PathBumps(ids, BlockedName)
    ensures Answer64(v) ==> t + [QueriesDns64] + AnswerBumps(ids, v) == t + PathBumps(ids, v)
    ensures ReplyOf(RefusedClient) == ErrorReply(Refused) && ReplyOf(BlockedName) == ErrorReply(NXDomain)
  {
    hide R, AnswerBumps;
  }

  class Handler {
    const setup: Setup
    const metrics: Metrics

    constructor (setup: Setup, metrics: Metrics)
      ensures this.setup == setup && this.metrics == metrics
    {
      this.setup := setup;
      this.metrics := metrics;
    }

    method HandleDns64(req: Request, w: Replies) returns (v: Verdict, reply: Reply, calls: seq<Query>)
      requires UsableSetup(setup) && metrics.Valid()
      requires |req.questions| == 1 && IsDns64(req)
      modifies metrics
      ensures metrics.Valid()
      ensures if w.first.None? then v == Failed64 else Deserves64(setup, req, w.first.value, w, v)
      ensures reply == ReplyOf(v) && CallsOf(setup, req, w, v, calls)
      ensures Answer64(v)
      ensures metrics.trace == old(metrics.trace) + AnswerBumps(metrics.synthIds, v)
    {
      hide Metrics.Valid, Synthesized, CnameTargets, SignalsOf, LookupA, HasAaaa, RcodeIndex, HitBump, Deserves64,
        AnswerBumps, Searched, Decide;
      ghost var before := metrics.trace;
      var q := req.questions[0];
      calls := [Upstream(req, q), Upstream(req, Question(q.name, A, CLASS_IN))];
      if w.first.None? {
        RelayCounted(before, metrics.synthIds, Response(ServFail, false, [], [], [], []));
        metrics.RecordRcode(ServFail);
        return Failed64, ErrorReply(ServFail), calls;
      }
      var aaaa := w.first.value;
      RelayedVerdict(setup, req, aaaa, w);
      RelayCounted(before, metrics.synthIds, aaaa);
      if HasAaaa(aaaa.answers) {
        metrics.IncNativeAaaa();
        metrics.RecordRcode(aaaa.rcode);
        return Relayed64(aaaa), Relay(aaaa), calls;
      }
      if aaaa.rcode == NXDomain {
        metrics.IncNxdomain64();
        metrics.RecordRcode(NXDomain);
        return Relayed64(aaaa), Relay(aaaa), calls;
      }
      if aaaa.rcode != NoError {
        metrics.RecordRcode(aaaa.rcode);
        return Relayed64(aaaa), Relay(aaaa), calls;
      }
      v, reply, calls := AnswerNodata(req, aaaa, w, calls);
    }

    /** AAAA is NODATA: synthesize, or relay the empty answer. */
    method AnswerNodata(req: Request, aaaa: Response, w: Replies, asked: seq<Query>) returns (v: Verdict, reply: Reply, calls: seq<Query>)
      requires metrics.Valid() && |req.questions| == 1 && Decide(aaaa).Nodata?
      modifies metrics
      ensures metrics.Valid()
      ensures Deserves64(setup, req, aaaa, w, v) && (v.Synthesized64? || v.Empty64?)
      ensures reply == ReplyOf(v)
      ensures |calls| >= |asked| && calls[..|asked|] == asked
      ensures Searched(setup.chain, ContextOf(req, aaaa, w.a), w.references, v.Synthesized64?, calls[|asked|..])
      ensures metrics.trace == old(metrics.trace) + AnswerBumps(metrics.synthIds, v)
    {
      hide Metrics.Valid, Synthesized, HasAaaa, RcodeIndex, HitBump, Deserves64, CnameTargets, LookupA, SignalsOf,
        Searched, Decide, AnswerBumps, ReplyOf, NodataVerdict, RcodeIndex;
      ghost var before := metrics.trace;
      metrics.IncNodata();
      var signals := ExtractAuthority(aaaa);
      var ctx := Context(req.questions[0].name, CnameTargets(aaaa.answers), LookupA(w.a), signals);
      var result, more := Synthesize(setup.chain, ctx, w.references);
      calls := asked + more;
      NodataDeserved(setup, req, aaaa, w, result);
      NodataCounted(before, metrics.synthIds, aaaa, result);
      if result.Some? {
        metrics.SynthHit(result.value.1);
        metrics.IncSynthesized();
        metrics.RecordRcode(NoError);
        v := Synthesized64(result.value.0, result.value.1);
        reply := Reply(NoError, false, result.value.0, [], []);
      } else {
        metrics.IncEmpty();
        metrics.RecordRcode(aaaa.rcode);
        v := Empty64(aaaa);
        reply := Relay(aaaa);
      }
    }

    /** Every request gets the verdict it deserves, the reply of that verdict, and is counted
        by the bumps of that verdict, once each. */
    method HandleRequest(req: Request, w: Replies) returns (v: Verdict, reply: Reply, calls: seq<Query>)
      requires UsableSetup(setup) && metrics.Valid()
      requires forall k :: 0 <= k < |req.questions| ==> ValidName(req.questions[k].name)
      modifies metrics
      ensures metrics.Valid()
      ensures Deserves(setup, req, w, v)
      ensures reply == ReplyOf(v) && CallsOf(setup, req, w, v, calls)
      ensures metrics.trace == old(metrics.trace) + Bumps(metrics.synthIds, req, v)
    {
      hide Metrics.Valid, Blocklist.Blocked, Allows, RcodeIndex, PathBumps, Deserves64, ValidName, Searched, ContextOf;
      if !req.standardQuery {
        metrics.RecordRcode(NotImp);
        return NotImplemented, ErrorReply(NotImp), [];
      }
      if |req.questions| != 1 {
        metrics.RecordRcode(FormErr);
        return Malformed, ErrorReply(FormErr), [];
      }
      metrics.RecordQtype(req.questions[0].qtype);
      v, reply, calls := Dispatch(req, w);
    }

    /** A standard query with one question: refuse, block, or resolve it. */
    method Dispatch(req: Request, w: Replies) returns (v: Verdict, reply: Reply, calls: seq<Query>)
      requires UsableSetup(setup) && metrics.Valid()
      requires req.standardQuery && |req.questions| == 1 && ValidName(req.questions[0].name)
      modifies metrics
      ensures metrics.Valid()
      ensures Deserves(setup, req, w, v)
      ensures reply == ReplyOf(v) && CallsOf(setup, req, w, v, calls) && !v.NotImplemented? && !v.Malformed?
      ensures metrics.trace == old(metrics.trace) + PathBumps(metrics.synthIds, v)
    {
      hide Metrics.Valid, Blocklist.Blocked, Allows, RcodeIndex, AnswerBumps, PathBumps, Deserves64, ValidName, WellFormed, Searched, ContextOf, ReplyOf;
      ghost var before := metrics.trace;
      var refused := !Allows(setup.acl, req.client);
      var blocked := false;
      if setup.blocklist.Some? {
        blocked := Blocklist.IsBlocked(setup.blocklist.value, req.questions[0].name);
      }
      if refused {
        metrics.RecordRcode(Refused);
        v, reply, calls := RefusedClient, ErrorReply(Refused), [];
        PathCounted(before, metrics.synthIds, v);
      } else if blocked {
        metrics.IncBlocked();
        metrics.RecordRcode(NXDomain);
        v, reply, calls := BlockedName, ErrorReply(NXDomain), [];
        PathCounted(before, metrics.synthIds, v);
      } else if IsDns64(req) {
        metrics.IncQueriesDns64();
        v, reply, calls := HandleDns64(req, w);
        PathCounted(before, metrics.synthIds, v);
      } else {
        v, reply, calls := PassThrough(req, w);
      }
    }

    /** Forward the exact query and relay the response. */
    method PassThrough(req: Request, w: Replies) returns (v: Verdict, reply: Reply, calls: seq<Query>)
      requires metrics.Valid() && |req.questions| == 1
      modifies metrics
      ensures metrics.Valid() && v == Passed(w.first) && reply == ReplyOf(v) && CallsOf(setup, req, w, v, calls)
      ensures metrics.trace == old(metrics.trace) + PathBumps(metrics.synthIds, v)
    {
      hide Metrics.Valid, Searched, ContextOf, RcodeIndex;
      metrics.IncQueriesPassthrough();
      v, calls := Passed(w.first), [Upstream(req, req.questions[0])];
      match w.first
      case Some(r) =>
        metrics.RecordRcode(r.rcode);
        reply := Relay(r);
      case None =>
        metrics.RecordRcode(ServFail);
        reply := ErrorReply(ServFail);
    }
  }
}
