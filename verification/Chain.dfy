/** The synthesizer chain: a first-match interpreter of plans over the pool's answers, with
    filtering, TTL capping and an appended NAT64 fallback. */
module Chain {
  import opened Text
  import opened Dns
  import opened Decision
  import opened Addresses
  import opened Rewrites
  import opened Providers

  const DEFAULT_SYNTH_TTL: u32 := 300

  datatype Chain = Chain(synths: seq<Synth>, ttlCap: Option<u32>, nat64Fallback: Option<V6>)

  // ================================================================ building

  const PRECEDES: seq<(string, string)> := [("shopify", "cloudflare"), ("webflow", "cloudflare")]

  datatype BuildError = Misordered(specific: string, generic: string) | UnknownId(id: string)

  /** The first `a` stands before the first `b`, if both are there. */
  predicate InOrder(ids: seq<string>, a: string, b: string) {
    Idx(ids, a) >= 0 && Idx(ids, b) >= 0 ==> Idx(ids, a) <= Idx(ids, b)
  }

  predicate Ordered(ids: seq<string>) {
    forall k :: 0 <= k < |PRECEDES| ==> InOrder(ids, PRECEDES[k].0, PRECEDES[k].1)
  }

  method ValidateOrder(ids: seq<string>) returns (r: Option<BuildError>)
    ensures r.None? <==> Ordered(ids)
    ensures r.Some? ==> exists k :: 0 <= k < |PRECEDES| && r == Some(Misordered(PRECEDES[k].0, PRECEDES[k].1)) && !InOrder(ids, PRECEDES[k].0, PRECEDES[k].1)
  {
    for k := 0 to |PRECEDES|
      invariant forall j :: 0 <= j < k ==> InOrder(ids, PRECEDES[j].0, PRECEDES[j].1)
    {
      var ia, ib := Idx(ids, PRECEDES[k].0), Idx(ids, PRECEDES[k].1);
      if ia >= 0 && ib >= 0 && ia > ib {
        return Some(Misordered(PRECEDES[k].0, PRECEDES[k].1));
      }
    }
    return None;
  }

  /** A chain holds, in order, the synthesizer of every id, and the fallback exactly when
      it is asked for and the chain has a translator. */
  ghost predicate BuiltFrom(c: Chain, ids: seq<string>, prefix: V6, cap: Option<u32>, fallback: bool, cloudfront: seq<Range>) {
    && Ordered(ids) && |c.synths| == |ids| && c.ttlCap == cap
    && (forall i :: 0 <= i < |ids| ==> Make(ids[i], prefix, cloudfront) == Some(c.synths[i]))
    && c.nat64Fallback == if fallback && "nat64" in ids then Some(prefix) else None
  }

  method Build(ids: seq<string>, prefix: V6, cap: Option<u32>, fallback: bool, cloudfront: seq<Range>)
    returns (r: Either<Chain, BuildError>)
    ensures r.Left? <==> Ordered(ids) && forall i :: 0 <= i < |ids| ==> KnownId(ids[i])
    ensures r.Left? ==> BuiltFrom(r.l, ids, prefix, cap, fallback, cloudfront)
    ensures r.Right? && Ordered(ids) ==> r.r.UnknownId? && r.r.id in ids && !KnownId(r.r.id)
  {
    var order := ValidateOrder(ids);
    if order.Some? {
      return Right(order.value);
    }
    hide Make, KnownId;
    var synths: seq<Synth> := [];
    for i := 0 to |ids|
      invariant |synths| == i
      invariant forall k :: 0 <= k < i ==> KnownId(ids[k]) && Make(ids[k], prefix, cloudfront) == Some(synths[k])
    {
      KnownIdsAreMakeable(ids[i], prefix, cloudfront);
      match Make(ids[i], prefix, cloudfront)
      case Some(s) => synths := synths + [s];
      case None => return Right(UnknownId(ids[i]));
    }
    var nat64InChain := exists k :: 0 <= k < |ids| && ids[k] == "nat64";
    r := Left(Chain(synths, cap, if fallback && nat64InChain then Some(prefix) else None));
  }

  // ================================================================ running a plan

  /** The AAAA data of a reference lookup. */
  function AaaaRecords(records: seq<Record>): seq<(V6, u32)> {
    if |records| == 0 then []
    else (if records[0].data.AaaaData? then [(records[0].data.v6, records[0].ttl)] else []) + AaaaRecords(records[1..])
  }

  function ResolveAaaa(resp: Option<Response>): seq<(V6, u32)> {
    match resp
    case Some(r) => if r.rcode == NoError then AaaaRecords(r.answers) else []
    case None => []
  }

  /** The pool's answers to the names of one plan, and to those of every plan. */
  type Answers = nat -> Option<Response>
  type AllAnswers = (nat, nat) -> Option<Response>

  /** Everything the first `n` reference lookups yield. */
  function Gathered(answers: Answers, n: nat): seq<(V6, u32)> {
    if n == 0 then [] else Gathered(answers, n - 1) + ResolveAaaa(answers(n - 1))
  }

  function First(p: (V6, u32)): V6 { p.0 }
  function Second(p: (V6, u32)): u32 { p.1 }

  function LeastTtl(ttls: seq<u32>): (m: u32)
    requires |ttls| > 0
    ensures m in ttls && forall i :: 0 <= i < |ttls| ==> m <= ttls[i]
  {
    if |ttls| == 1 then ttls[0]
    else
      var rest := LeastTtl(ttls[1..]);
      assert forall i :: 1 <= i < |ttls| ==> ttls[i] == ttls[1..][i - 1];
      if ttls[0] <= rest then ttls[0] else rest
  }

  function ATtls(ctx: Context): (r: seq<u32>)
    ensures |r| == |ctx.aRecords| && forall i :: 0 <= i < |r| ==> r[i] == ctx.aRecords[i].1
  {
    seq(|ctx.aRecords|, i requires 0 <= i < |ctx.aRecords| => ctx.aRecords[i].1)
  }

  function CappedTtl(ttl: u32, cap: Option<u32>): u32 {
    match cap case Some(c) => (if ttl <= c then ttl else c) case None => ttl
  }

  function BaseTtl(resolved: seq<u32>, a: seq<u32>): u32 {
    if resolved != [] then LeastTtl(resolved) else if a != [] then LeastTtl(a) else DEFAULT_SYNTH_TTL
  }

  function OnlyGlobal(v6: seq<V6>): seq<V6> { Filter((ip: V6) => IsGlobalUnicast(ip), v6) }

  function RecordsAt(name: Name, ttl: u32, v6: seq<V6>): (r: seq<Record>)
    ensures |r| == |v6| && forall i :: 0 <= i < |r| ==> r[i] == Record(name, ttl, AaaaData(v6[i]))
  {
    seq(|v6|, i requires 0 <= i < |v6| => Record(name, ttl, AaaaData(v6[i])))
  }

  function PlanRecords(plan: Plan, ctx: Context, cap: Option<u32>, answers: Answers): Option<seq<Record>> {
    var got := Gathered(answers, |plan.resolve|);
    var out := OnlyGlobal(plan.combine(Map(First, got), ctx.AAddrs()));
    if out == [] then None
    else Some(RecordsAt(ctx.name, CappedTtl(BaseTtl(Map(Second, got), ATtls(ctx)), cap), out))
  }

  /** The query of a reference lookup: DNSSEC-OK and CD clear, so the cache applies. */
  function Reference(name: Name): Query { Query([Question(name, AAAA, CLASS_IN)], false, false) }

  method RunPlan(plan: Plan, ctx: Context, cap: Option<u32>, answers: Answers) returns (r: Option<seq<Record>>, calls: seq<Query>)
    ensures r == PlanRecords(plan, ctx, cap, answers)
    ensures calls == Map(Reference, plan.resolve)
  {
    hide ResolveAaaa, LeastTtl, OnlyGlobal, CappedTtl;
    calls := [];
    var baseTtl := if ctx.aRecords != [] then LeastTtl(ATtls(ctx)) else DEFAULT_SYNTH_TTL;
    var resolved: seq<V6>, ttls: seq<u32> := [], [];
    for j := 0 to |plan.resolve|
      invariant calls == Map(Reference, plan.resolve[..j])
      invariant resolved == Map(First, Gathered(answers, j)) && ttls == Map(Second, Gathered(answers, j))
    {
      calls := calls + [Reference(plan.resolve[j])];
      var got := ResolveAaaa(answers(j));
      for k := 0 to |got|
        invariant resolved == Map(First, Gathered(answers, j) + got[..k])
        invariant ttls == Map(Second, Gathered(answers, j) + got[..k])
      {
        resolved := resolved + [got[k].0];
        ttls := ttls + [got[k].1];
        PushOne(Gathered(answers, j), got, k);
      }
      assert got[..|got|] == got;
      assert plan.resolve[..j + 1] == plan.resolve[..j] + [plan.resolve[j]];
    }
    assert plan.resolve[..|plan.resolve|] == plan.resolve;
    if ttls != [] {
      baseTtl := LeastTtl(ttls);
    }
    var out := OnlyGlobal(plan.combine(resolved, ctx.AAddrs()));
    if out == [] {
      return None, calls;
    }
    var ttl := CappedTtl(baseTtl, cap);
    r := Some(RecordsAt(ctx.name, ttl, out));
  }

  lemma PushOne(before: seq<(V6, u32)>, got: seq<(V6, u32)>, k: nat)
    requires k < |got|
    ensures Map(First, before + got[..k + 1]) == Map(First, before + got[..k]) + [got[k].0]
    ensures Map(Second, before + got[..k + 1]) == Map(Second, before + got[..k]) + [got[k].1]
  {
    assert before + got[..k + 1] == (before + got[..k]) + [got[k]];
  }

  /** Every record a plan yields is at the queried name, global unicast, and lives no longer
      than the cap and every TTL it derives from: the resolved references' if there are
      any, else the A records'. */
  lemma PlanRecordsSound(plan: Plan, ctx: Context, cap: Option<u32>, answers: Answers)
    requires PlanRecords(plan, ctx, cap, answers).Some?
    ensures var rs := PlanRecords(plan, ctx, cap, answers).value; var got := Gathered(answers, |plan.resolve|);
      && |rs| > 0
      && forall i :: 0 <= i < |rs| ==> SoundRecord(rs[i], ctx, cap, got)
  {
    var got := Gathered(answers, |plan.resolve|);
    hide Gathered, IsGlobalUnicast;
    var out := OnlyGlobal(plan.combine(Map(First, got), ctx.AAddrs()));
    assert forall i :: 0 <= i < |out| ==> out[i] in out;
    assert forall i :: 0 <= i < |got| ==> Map(Second, got)[i] == got[i].1;
  }

  ghost predicate SoundRecord(r: Record, ctx: Context, cap: Option<u32>, got: seq<(V6, u32)>) {
    && r.owner == ctx.name && r.data.AaaaData? && IsGlobalUnicast(r.data.v6)
    && (cap.Some? ==> r.ttl <= cap.value)
    && (forall i :: 0 <= i < |got| ==> r.ttl <= got[i].1)
    && (got == [] ==> forall i :: 0 <= i < |ctx.aRecords| ==> r.ttl <= ctx.aRecords[i].1)
  }

  // ================================================================ synthesizing

  function Of(answers: AllAnswers, i: nat): Answers { (j: nat) => answers(i, j) }

  const NOTHING: Answers := (j: nat) => None

  /** What the synthesizer at one place yields. */
  function Yield(c: Chain, ctx: Context, answers: AllAnswers, i: nat): Option<seq<Record>>
    requires i < |c.synths|
  {
    match Detect(c.synths[i], ctx)
    case None => None
    case Some(plan) => PlanRecords(plan, ctx, c.ttlCap, Of(answers, i))
  }

  /** The NAT64 record appended behind another synthesizer's. */
  function Extra(c: Chain, ctx: Context, winner: Synth): seq<Record> {
    if Id(winner) == "nat64" || c.nat64Fallback.None? then []
    else match DetectNat64(c.nat64Fallback.value, ctx)
      case None => []
      case Some(plan) =>
        match PlanRecords(plan, ctx, c.ttlCap, NOTHING)
        case None => []
        case Some(rs) => if rs == [] then [] else [rs[0]]
  }

  /** `w` is the first synthesizer that yields anything. */
  ghost predicate Wins(c: Chain, ctx: Context, answers: AllAnswers, w: nat) {
    && w < |c.synths| && Yield(c, ctx, answers, w).Some?
    && forall j :: 0 <= j < w ==> Yield(c, ctx, answers, j).None?
  }

  /** A result of the chain: the winner's records and the fallback, under the winner's id;
      or nothing, when nothing yields. */
  ghost predicate Synthesized(c: Chain, ctx: Context, answers: AllAnswers, r: Option<(seq<Record>, string)>) {
    match r
    case None => forall i :: 0 <= i < |c.synths| ==> Yield(c, ctx, answers, i).None?
    case Some((records, id)) => exists w :: Wins(c, ctx, answers, w) && Result(c, ctx, answers, w, records, id)
  }

  ghost predicate Result(c: Chain, ctx: Context, answers: AllAnswers, w: nat, records: seq<Record>, id: string)
    requires Wins(c, ctx, answers, w)
  {
    id == Id(c.synths[w]) && records == Yield(c, ctx, answers, w).value + Extra(c, ctx, c.synths[w])
  }

  /** The reference lookups of the first `n` synthesizers' plans, in order. */
  function Lookups(c: Chain, ctx: Context, n: nat): seq<Query>
    requires n <= |c.synths|
  {
    if n == 0 then []
    else Lookups(c, ctx, n - 1) + match Detect(c.synths[n - 1], ctx) case None => [] case Some(plan) => Map(Reference, plan.resolve)
  }

  /** What is looked up on the way to a result: the plans up to the winner's and no further, or
      all of them when nothing is found. */
  ghost predicate Searched(c: Chain, ctx: Context, answers: AllAnswers, found: bool, calls: seq<Query>) {
    if found then exists w: nat :: Wins(c, ctx, answers, w) && calls == Lookups(c, ctx, w + 1)
    else calls == Lookups(c, ctx, |c.synths|)
  }

  method Synthesize(c: Chain, ctx: Context, answers: AllAnswers) returns (r: Option<(seq<Record>, string)>, calls: seq<Query>)
    ensures Synthesized(c, ctx, answers, r)
    ensures Searched(c, ctx, answers, r.Some?, calls)
  {
    hide Detect, PlanRecords;
    calls := [];
    for i := 0 to |c.synths|
      invariant forall j :: 0 <= j < i ==> Yield(c, ctx, answers, j).None?
      invariant calls == Lookups(c, ctx, i)
    {
      var plan := Detect(c.synths[i], ctx);
      if plan.Some? {
        var records, asked := RunPlan(plan.value, ctx, c.ttlCap, Of(answers, i));
        calls := calls + asked;
        if records.Some? {
          var all, more := AddFallback(c, ctx, c.synths[i], records.value);
          calls := calls + more;
          assert Wins(c, ctx, answers, i);
          assert Result(c, ctx, answers, i, all, Id(c.synths[i]));
          return Some((all, Id(c.synths[i]))), calls;
        }
      }
    }
    r := None;
  }

  /** The winner's records with the translator's first behind them, if there is a fallback;
      nothing is looked up for it. */
  method AddFallback(c: Chain, ctx: Context, winner: Synth, records: seq<Record>) returns (all: seq<Record>, calls: seq<Query>)
    ensures all == records + Extra(c, ctx, winner) && calls == []
  {
    hide PlanRecords;
    all, calls := records, [];
    if Id(winner) != "nat64" && c.nat64Fallback.Some? {
      var extraPlan := DetectNat64(c.nat64Fallback.value, ctx);
      if extraPlan.Some? {
        var extra, more := RunPlan(extraPlan.value, ctx, c.ttlCap, NOTHING);
        calls := more;
        if extra.Some? && extra.value != [] {
          all := all + [extra.value[0]];
        }
      }
    }
  }

  /** The chain is deterministic in the pool's answers: there is one result. */
  lemma OneResult(c: Chain, ctx: Context, answers: AllAnswers, r: Option<(seq<Record>, string)>, r': Option<(seq<Record>, string)>)
    requires Synthesized(c, ctx, answers, r) && Synthesized(c, ctx, answers, r')
    ensures r == r'
  {
    hide Yield, Extra;
    if r.Some? && r'.Some? {
      var w :| Wins(c, ctx, answers, w) && Result(c, ctx, answers, w, r.value.0, r.value.1);
      var w' :| Wins(c, ctx, answers, w') && Result(c, ctx, answers, w', r'.value.0, r'.value.1);
      assert w == w';
    }
  }
}
