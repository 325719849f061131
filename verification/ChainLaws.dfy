/** What the chain guarantees, for every chain configuration accepts, every context and
    every answer of the pool. */
module ChainLaws {
  import opened Text
  import opened Dns
  import opened Decision
  import opened Addresses
  import opened Rewrites
  import opened Providers
  import opened Chain
  import ProviderLaws

  /** An AAAA at the queried name, global unicast, within the cap. */
  ghost predicate Servable(r: Record, ctx: Context, cap: Option<u32>) {
    r.owner == ctx.name && r.data.AaaaData? && IsGlobalUnicast(r.data.v6) && (cap.Some? ==> r.ttl <= cap.value)
  }

  lemma OwnServable(c: Chain, ctx: Context, answers: AllAnswers, w: nat)
    requires Wins(c, ctx, answers, w)
    ensures var own := Yield(c, ctx, answers, w).value;
      |own| > 0 && forall i :: 0 <= i < |own| ==> Servable(own[i], ctx, c.ttlCap)
  {
    hide Detect, PlanRecords, Gathered, IsGlobalUnicast;
    PlanRecordsSound(Detect(c.synths[w], ctx).value, ctx, c.ttlCap, Of(answers, w));
  }

  /** A result of the chain is never empty, and every record of it can be served. */
  lemma ResultsAreServable(c: Chain, ctx: Context, answers: AllAnswers, r: Option<(seq<Record>, string)>)
    requires Synthesized(c, ctx, answers, r) && r.Some?
    ensures var records := r.value.0;
      |records| > 0 && forall i :: 0 <= i < |records| ==> Servable(records[i], ctx, c.ttlCap)
  {
    var w: nat :| Wins(c, ctx, answers, w) && Result(c, ctx, answers, w, r.value.0, r.value.1);
    OwnServable(c, ctx, answers, w);
    ExtraSound(c, ctx, c.synths[w]);
    BothServable(Yield(c, ctx, answers, w).value, Extra(c, ctx, c.synths[w]), ctx, c.ttlCap);
    hide *;
    hide Yield, Extra, Wins, Servable;
  }

  lemma BothServable(a: seq<Record>, b: seq<Record>, ctx: Context, cap: Option<u32>)
    requires forall i :: 0 <= i < |a| ==> Servable(a[i], ctx, cap)
    requires forall i :: 0 <= i < |b| ==> Servable(b[i], ctx, cap)
    ensures forall i :: 0 <= i < |a + b| ==> Servable((a + b)[i], ctx, cap)
  {
  }

  lemma ExtraSound(c: Chain, ctx: Context, winner: Synth)
    ensures forall i :: 0 <= i < |Extra(c, ctx, winner)| ==> Servable(Extra(c, ctx, winner)[i], ctx, c.ttlCap)
  {
    hide PlanRecords, IsGlobalUnicast;
    if c.nat64Fallback.Some? && DetectNat64(c.nat64Fallback.value, ctx).Some? {
      var plan := DetectNat64(c.nat64Fallback.value, ctx).value;
      assert plan.resolve == [] && Gathered(NOTHING, 0) == [];
      if PlanRecords(plan, ctx, c.ttlCap, NOTHING).Some? {
        PlanRecordsSound(plan, ctx, c.ttlCap, NOTHING);
      }
    }
  }

  /** TTL soundness of the winner's own records: at most the cap, and at most every TTL
      they derive from. */
  lemma WinnersOutliveNothing(c: Chain, ctx: Context, answers: AllAnswers, w: nat, i: nat)
    requires Wins(c, ctx, answers, w) && i < |Yield(c, ctx, answers, w).value|
    ensures Detect(c.synths[w], ctx).Some?
    ensures SoundRecord(Yield(c, ctx, answers, w).value[i], ctx, c.ttlCap,
      Gathered(Of(answers, w), |Detect(c.synths[w], ctx).value.resolve|))
  {
    hide Detect, PlanRecords, Gathered, IsGlobalUnicast;
    PlanRecordsSound(Detect(c.synths[w], ctx).value, ctx, c.ttlCap, Of(answers, w));
  }

  // ================================================================ what is served

  predicate IsAaaa(r: Record) { r.data.AaaaData? }

  predicate SixesOf(got: seq<(V6, u32)>, records: seq<Record>) {
    |got| == |records| && forall k :: 0 <= k < |got| ==> records[k].data.AaaaData? && got[k] == (records[k].data.v6, records[k].ttl)
  }

  lemma {:induction false} AaaaByIndex(records: seq<Record>)
    ensures SixesOf(AaaaRecords(records), Filter(IsAaaa, records))
  {
    if |records| > 0 {
      AaaaByIndex(records[1..]);
    }
  }

  /** A reference lookup yields the AAAA records of a NOERROR answer, in order, and nothing
      of any other answer. */
  lemma ResolvedByIndex(resp: Option<Response>)
    ensures resp.None? || resp.value.rcode != NoError ==> ResolveAaaa(resp) == []
    ensures resp.Some? && resp.value.rcode == NoError ==> SixesOf(ResolveAaaa(resp), Filter(IsAaaa, resp.value.answers))
  {
    if resp.Some? {
      AaaaByIndex(resp.value.answers);
    }
  }

  /** No synthesizer looks up more than one name, so what a plan works on is what its one
      lookup yields, or nothing. */
  lemma OneLookupEach(s: Synth, ctx: Context, answers: Answers)
    requires Detect(s, ctx).Some?
    ensures var n := |Detect(s, ctx).value.resolve|; n <= 1 && Gathered(answers, n) == if n == 1 then ResolveAaaa(answers(0)) else []
  {
    hide FirstRewrite, FirstIn, IpMatches, HostMatches, SoaAdminIs, ResolveAaaa, MsedgePrefix, Labels, HasText, FusePlan;
    assert forall reference, n :: |FusePlan(reference, n).resolve| == 1 by { FusesOne(); }
    assert Gathered(answers, 0) == [];
    assert [] + ResolveAaaa(answers(0)) == ResolveAaaa(answers(0));
  }

  lemma FusesOne()
    ensures forall reference, n :: |FusePlan(reference, n).resolve| == 1
  {
  }

  /** The records of a plan: at the queried name, the global unicast addresses it combines,
      all of them, in order; nothing when there are none. */
  lemma RecordsInOrder(plan: Plan, ctx: Context, cap: Option<u32>, answers: Answers)
    ensures var got := Gathered(answers, |plan.resolve|);
      var out := Filter(GLOBAL, plan.combine(Map(First, got), ctx.AAddrs()));
      var rs := PlanRecords(plan, ctx, cap, answers);
      && (rs.None? <==> out == [])
      && (rs.Some? ==> |rs.value| == |out|)
      && (rs.Some? ==> forall i :: 0 <= i < |out| ==> rs.value[i].owner == ctx.name && rs.value[i].data == AaaaData(out[i]))
  {
    hide Gathered, IsGlobalUnicast, BaseTtl, CappedTtl, Filter;
    var got := Gathered(answers, |plan.resolve|);
    var all := plan.combine(Map(First, got), ctx.AAddrs());
    ProviderLaws.FilterSame((ip: V6) => IsGlobalUnicast(ip), GLOBAL, all);
  }

  const GLOBAL: V6 -> bool := (ip: V6) => IsGlobalUnicast(ip)

  /** Where a record's TTL comes from: it is the cap, or a TTL that was looked up, or an A
      record's when nothing was, or 300 when there is neither. With the upper bounds on it
      this is the least of them. */
  ghost predicate AttainedTtl(ttl: u32, ctx: Context, cap: Option<u32>, got: seq<(V6, u32)>) {
    || cap == Some(ttl)
    || (exists k :: 0 <= k < |got| && got[k].1 == ttl)
    || (got == [] && exists k :: 0 <= k < |ctx.aRecords| && ctx.aRecords[k].1 == ttl)
    || (got == [] && ctx.aRecords == [] && ttl == 300)
  }

  lemma TtlAttained(plan: Plan, ctx: Context, cap: Option<u32>, answers: Answers, i: nat)
    requires PlanRecords(plan, ctx, cap, answers).Some? && i < |PlanRecords(plan, ctx, cap, answers).value|
    ensures AttainedTtl(PlanRecords(plan, ctx, cap, answers).value[i].ttl, ctx, cap, Gathered(answers, |plan.resolve|))
  {
    var got := Gathered(answers, |plan.resolve|);
    hide Gathered, IsGlobalUnicast, OnlyGlobal;
    var ttls, a := Map(Second, got), ATtls(ctx);
    var base := BaseTtl(ttls, a);
    if ttls != [] {
      var k :| 0 <= k < |ttls| && ttls[k] == base;
      assert got[k].1 == base;
    } else if a != [] {
      var k :| 0 <= k < |a| && a[k] == base;
      assert ctx.aRecords[k].1 == base;
    }
  }

  /** Unless the fallback is asked for and a translator is in the chain, or when the
      translator itself wins, the result is the winner's records alone. */
  lemma NothingAppended(c: Chain, ids: seq<string>, prefix: V6, cap: Option<u32>, fallback: bool, cloudfront: seq<Range>,
    ctx: Context, answers: AllAnswers, w: nat, records: seq<Record>, id: string)
    requires BuiltFrom(c, ids, prefix, cap, fallback, cloudfront)
    requires Wins(c, ctx, answers, w) && Result(c, ctx, answers, w, records, id)
    requires !fallback || "nat64" !in ids || id == "nat64"
    ensures records == Yield(c, ctx, answers, w).value
  {
    hide Yield, Ordered, Make;
  }

  /** `a` stands before every `b`. */
  ghost predicate LedBy(ids: seq<string>, a: string, b: string) {
    exists i :: 0 <= i < |ids| && ids[i] == a && forall j :: 0 <= j < i ==> ids[j] != b
  }

  /** The accepted orders: where a specific provider and `cloudflare` are both listed, the
      specific one comes first. */
  lemma OrderedExactly(ids: seq<string>)
    ensures Ordered(ids) <==> ("cloudflare" in ids ==>
      ("shopify" in ids ==> LedBy(ids, "shopify", "cloudflare")) && ("webflow" in ids ==> LedBy(ids, "webflow", "cloudflare")))
  {
    InOrderExactly(ids, "shopify", "cloudflare");
    InOrderExactly(ids, "webflow", "cloudflare");
    hide InOrder, LedBy;
    if Ordered(ids) {
      OrderedPairs(ids);
    }
    assert |PRECEDES| == 2 && PRECEDES[0] == ("shopify", "cloudflare") && PRECEDES[1] == ("webflow", "cloudflare");
  }

  lemma InOrderExactly(ids: seq<string>, a: string, b: string)
    requires a != b
    ensures InOrder(ids, a, b) <==> (a in ids && b in ids ==> LedBy(ids, a, b))
  {
    IdxIsFirst(ids, a);
    IdxIsFirst(ids, b);
    hide Idx;
    if a in ids && b in ids && InOrder(ids, a, b) {
      assert ids[Idx(ids, a)] == a;
    }
  }

  // ================================================================ NAT64

  /** The AAAA records of embedded addresses, in order, with the A records' least TTL. */
  function EmbeddedRecords(prefix: V6, ctx: Context, cap: Option<u32>): seq<Record> {
    RecordsAt(ctx.name, CappedTtl(BaseTtl([], ATtls(ctx)), cap), Embeddings(prefix, Eligible(ctx.name, ctx.AAddrs())))
  }

  /** With an accepted prefix the NAT64 synthesizer answers exactly the eligible A
      addresses, embedded, in order: the global-unicast filter drops none of them. */
  lemma Nat64Yields(prefix: V6, ctx: Context, cap: Option<u32>, answers: Answers)
    requires AcceptedPrefix(prefix) && ctx.aRecords != []
    ensures var plan := DetectNat64(prefix, ctx);
      && plan.Some? && plan.value.resolve == []
      && PlanRecords(plan.value, ctx, cap, answers)
         == if Eligible(ctx.name, ctx.AAddrs()) == [] then None else Some(EmbeddedRecords(prefix, ctx, cap))
  {
    var v4 := Eligible(ctx.name, ctx.AAddrs());
    var v6 := Embeddings(prefix, v4);
    hide Eligible, IsGlobalUnicast, Embed, AcceptedPrefix;
    forall ip | ip in v6 ensures IsGlobalUnicast(ip) {
      var k :| 0 <= k < |v6| && v6[k] == ip;
      EmbedFacts(prefix, v4[k]);
    }
    FilterAll((ip: V6) => IsGlobalUnicast(ip), v6);
    assert Gathered(answers, 0) == [];
    assert Map(Second, []) == [] && Map(First, []) == [];
  }

  /** The eligible addresses come from the A records: none without one. */
  lemma NoneWithoutA(ctx: Context)
    requires ctx.aRecords == []
    ensures Eligible(ctx.name, ctx.AAddrs()) == []
  {
    assert ctx.AAddrs() == [];
  }

  lemma TranslatorAt(c: Chain, ids: seq<string>, prefix: V6, cap: Option<u32>, fallback: bool, cloudfront: seq<Range>, k: nat)
    requires BuiltFrom(c, ids, prefix, cap, fallback, cloudfront) && k < |ids| && ids[k] == "nat64"
    ensures k < |c.synths| && c.synths[k] == Nat64(prefix)
  {
    hide Ordered;
  }

  /** If `nat64` is in an accepted chain and some A address is eligible, the chain always
      answers, however the reference lookups went. */
  lemma TranslatorNeverFails(c: Chain, ids: seq<string>, prefix: V6, cap: Option<u32>, fallback: bool, cloudfront: seq<Range>,
    ctx: Context, answers: AllAnswers, r: Option<(seq<Record>, string)>)
    requires BuiltFrom(c, ids, prefix, cap, fallback, cloudfront) && AcceptedPrefix(prefix)
    requires "nat64" in ids && Eligible(ctx.name, ctx.AAddrs()) != []
    requires Synthesized(c, ctx, answers, r)
    ensures r.Some?
  {
    hide PlanRecords, DetectNat64, Eligible, AcceptedPrefix, BuiltFrom, Wins, Result;
    var k :| 0 <= k < |ids| && ids[k] == "nat64";
    TranslatorAt(c, ids, prefix, cap, fallback, cloudfront, k);
    if ctx.aRecords == [] {
      NoneWithoutA(ctx);
    }
    Nat64Yields(prefix, ctx, c.ttlCap, Of(answers, k));
    assert Yield(c, ctx, answers, k).Some?;
  }

  /** A chain of `nat64` alone answers exactly the eligible A addresses, embedded in order,
      or nothing when there are none. */
  lemma TranslatorAlone(c: Chain, prefix: V6, cap: Option<u32>, fallback: bool, cloudfront: seq<Range>,
    ctx: Context, answers: AllAnswers, r: Option<(seq<Record>, string)>)
    requires BuiltFrom(c, ["nat64"], prefix, cap, fallback, cloudfront) && AcceptedPrefix(prefix)
    requires Synthesized(c, ctx, answers, r)
    ensures r == if Eligible(ctx.name, ctx.AAddrs()) == [] then None else Some((EmbeddedRecords(prefix, ctx, cap), "nat64"))
  {
    hide BuiltFrom, PlanRecords, Eligible, AcceptedPrefix, EmbeddedRecords, Synthesized;
    AloneBuilt(c, prefix, cap, fallback, cloudfront);
    AloneYields(c, prefix, ctx, answers);
    hide Yield;
    OnlyOne(c, ctx, answers, r);
    if Yield(c, ctx, answers, 0).Some? {
      assert Yield(c, ctx, answers, 0).value + [] == Yield(c, ctx, answers, 0).value;
    }
  }

  lemma AloneBuilt(c: Chain, prefix: V6, cap: Option<u32>, fallback: bool, cloudfront: seq<Range>)
    requires BuiltFrom(c, ["nat64"], prefix, cap, fallback, cloudfront)
    ensures c.synths == [Nat64(prefix)] && c.ttlCap == cap
  {
    TranslatorAt(c, ["nat64"], prefix, cap, fallback, cloudfront, 0);
  }

  lemma AloneYields(c: Chain, prefix: V6, ctx: Context, answers: AllAnswers)
    requires c.synths == [Nat64(prefix)] && AcceptedPrefix(prefix)
    ensures Yield(c, ctx, answers, 0) == if Eligible(ctx.name, ctx.AAddrs()) == [] then None else Some(EmbeddedRecords(prefix, ctx, c.ttlCap))
    ensures Extra(c, ctx, c.synths[0]) == [] && Id(c.synths[0]) == "nat64"
  {
    hide PlanRecords, Eligible, AcceptedPrefix, EmbeddedRecords;
    if ctx.aRecords == [] {
      NoneWithoutA(ctx);
    } else {
      Nat64Yields(prefix, ctx, c.ttlCap, Of(answers, 0));
    }
  }

  /** What a chain of one synthesizer answers. */
  lemma OnlyOne(c: Chain, ctx: Context, answers: AllAnswers, r: Option<(seq<Record>, string)>)
    requires |c.synths| == 1 && Synthesized(c, ctx, answers, r)
    ensures r == match Yield(c, ctx, answers, 0) case None => None case Some(own) => Some((own + Extra(c, ctx, c.synths[0]), Id(c.synths[0])))
  {
    hide Yield, Extra;
    if r.Some? {
      var w: nat :| Wins(c, ctx, answers, w) && Result(c, ctx, answers, w, r.value.0, r.value.1);
      assert w == 0;
    }
  }

  /** With the fallback on, a result won by another synthesizer ends in exactly one more
      record, the embedding of the first eligible A address, if there is one; its low 32
      bits are that address and its TTL at most the A records'. */
  lemma FallbackIsOneEmbedding(c: Chain, ids: seq<string>, prefix: V6, cap: Option<u32>, cloudfront: seq<Range>,
    ctx: Context, answers: AllAnswers, r: Option<(seq<Record>, string)>)
    requires BuiltFrom(c, ids, prefix, cap, true, cloudfront) && AcceptedPrefix(prefix) && "nat64" in ids
    requires Synthesized(c, ctx, answers, r) && r.Some? && r.value.1 != "nat64"
    ensures exists w :: Wins(c, ctx, answers, w) && WithFallback(c, prefix, ctx, Yield(c, ctx, answers, w).value, r.value.0)
  {
    var w: nat :| Wins(c, ctx, answers, w) && Result(c, ctx, answers, w, r.value.0, r.value.1);
    assert c.nat64Fallback == Some(prefix);
    hide Yield, BuiltFrom, PlanRecords, WithFallback;
    ExtraIsEmbedding(c, prefix, ctx, c.synths[w]);
    Appended(c, prefix, ctx, Yield(c, ctx, answers, w).value, Extra(c, ctx, c.synths[w]));
  }

  /** The extra record is the embedding of the first eligible address. */
  lemma ExtraIsEmbedding(c: Chain, prefix: V6, ctx: Context, winner: Synth)
    requires c.nat64Fallback == Some(prefix) && AcceptedPrefix(prefix) && Id(winner) != "nat64"
    ensures Extra(c, ctx, winner) ==
      if Eligible(ctx.name, ctx.AAddrs()) == [] then [] else [EmbeddedRecords(prefix, ctx, c.ttlCap)[0]]
  {
    hide PlanRecords, Eligible, AcceptedPrefix;
    if ctx.aRecords == [] {
      NoneWithoutA(ctx);
    } else {
      Nat64Yields(prefix, ctx, c.ttlCap, NOTHING);
    }
  }

  lemma Appended(c: Chain, prefix: V6, ctx: Context, own: seq<Record>, extra: seq<Record>)
    requires extra == if Eligible(ctx.name, ctx.AAddrs()) == [] then [] else [EmbeddedRecords(prefix, ctx, c.ttlCap)[0]]
    ensures WithFallback(c, prefix, ctx, own, own + extra)
  {
    if ctx.aRecords == [] {
      NoneWithoutA(ctx);
    }
    hide Eligible;
    var v4 := Eligible(ctx.name, ctx.AAddrs());
    if v4 != [] {
      EmbedFacts(prefix, v4[0]);
      hide Embed, IsGlobalUnicast;
      assert (own + extra)[..|own|] == own;
    } else {
      assert own + extra == own;
    }
  }

  ghost predicate WithFallback(c: Chain, prefix: V6, ctx: Context, own: seq<Record>, all: seq<Record>) {
    var v4 := Eligible(ctx.name, ctx.AAddrs());
    if v4 == [] then all == own
    else
      && |all| == |own| + 1 && all[..|own|] == own
      && all[|own|].owner == ctx.name && all[|own|].data.AaaaData?
      && all[|own|].data.v6 % LOW32 == v4[0] && all[|own|].data.v6 / LOW32 == prefix / LOW32
      && forall i :: 0 <= i < |ctx.aRecords| ==> all[|own|].ttl <= ctx.aRecords[i].1
  }

  // ================================================================ precedence

  /** A provider that yields whenever it matches: a constant, global unicast address. */
  predicate AlwaysYields(s: Synth) {
    s.MatchConst? && s.cref.None? && IsGlobalUnicast(s.addr)
  }

  lemma ConstantYields(s: Synth, ctx: Context, cap: Option<u32>, answers: Answers)
    requires AlwaysYields(s) && Detect(s, ctx).Some?
    ensures PlanRecords(Detect(s, ctx).value, ctx, cap, answers).Some?
  {
    hide IsGlobalUnicast, HostMatches, IpMatches, Gathered;
    var plan := Detect(s, ctx).value;
    var out := plan.combine(Map(First, Gathered(answers, 0)), ctx.AAddrs());
    assert out == [s.addr];
    FilterAll((ip: V6) => IsGlobalUnicast(ip), out);
  }

  lemma SpecificsAreConstant(prefix: V6, cloudfront: seq<Range>)
    ensures var shopify, webflow := Make("shopify", prefix, cloudfront), Make("webflow", prefix, cloudfront);
      shopify.Some? && webflow.Some? && AlwaysYields(shopify.value) && AlwaysYields(webflow.value)
  {
    SpecificAddresses();
    hide IsGlobalUnicast;
  }

  lemma SpecificAddresses()
    ensures IsGlobalUnicast(0x2620_0127_f00f_0000_0000_0000_0000_0000)
    ensures IsGlobalUnicast(0x2620_00cb_2000_0000_0000_0000_0000_0001)
  {
    GlobalUnicastRanges(0x2620_0127_f00f_0000_0000_0000_0000_0000);
    GlobalUnicastRanges(0x2620_00cb_2000_0000_0000_0000_0000_0001);
    hide IsGlobalUnicast;
  }

  /** In an ordered list, whatever stands at the place of a `b` has an `a` before it. */
  lemma SpecificComesFirst(ids: seq<string>, a: string, b: string, w: nat)
    requires InOrder(ids, a, b) && a in ids && a != b && w < |ids| && ids[w] == b
    ensures 0 <= Idx(ids, a) < w && ids[Idx(ids, a)] == a
  {
    IdxIsFirst(ids, a);
    IdxIsFirst(ids, b);
    hide Idx;
  }

  lemma OrderedPairs(ids: seq<string>)
    requires Ordered(ids)
    ensures InOrder(ids, "shopify", "cloudflare") && InOrder(ids, "webflow", "cloudflare")
  {
    hide InOrder;
    assert InOrder(ids, PRECEDES[0].0, PRECEDES[0].1) && InOrder(ids, PRECEDES[1].0, PRECEDES[1].1);
  }

  /** A context a specific provider of the chain recognises is never answered by
      `cloudflare`, however often and wherever either id is listed. */
  lemma SpecificBeforeGeneric(c: Chain, ids: seq<string>, prefix: V6, cap: Option<u32>, fallback: bool, cloudfront: seq<Range>,
    ctx: Context, answers: AllAnswers, r: Option<(seq<Record>, string)>, specific: string)
    requires BuiltFrom(c, ids, prefix, cap, fallback, cloudfront)
    requires specific == "shopify" || specific == "webflow"
    requires specific in ids && Make(specific, prefix, cloudfront).Some? && Detect(Make(specific, prefix, cloudfront).value, ctx).Some?
    requires Synthesized(c, ctx, answers, r)
    ensures r.Some? && r.value.1 != "cloudflare"
  {
    SpecificsAreConstant(prefix, cloudfront);
    OrderedPairs(ids);
    var k :| 0 <= k < |ids| && ids[k] == specific;
    hide Make, Detect, PlanRecords, AlwaysYields, Ordered, InOrder;
    YieldsAt(c, ctx, answers, k);
    if r.Some? && r.value.1 == "cloudflare" {
      NotCloudflare(c, ids, prefix, cap, fallback, cloudfront, ctx, answers, r, specific);
    }
  }

  lemma NotCloudflare(c: Chain, ids: seq<string>, prefix: V6, cap: Option<u32>, fallback: bool, cloudfront: seq<Range>,
    ctx: Context, answers: AllAnswers, r: Option<(seq<Record>, string)>, specific: string)
    requires BuiltFrom(c, ids, prefix, cap, fallback, cloudfront) && InOrder(ids, specific, "cloudflare")
    requires specific in ids && specific != "cloudflare" && Make(specific, prefix, cloudfront).Some? && AlwaysYields(Make(specific, prefix, cloudfront).value)
    requires Detect(Make(specific, prefix, cloudfront).value, ctx).Some?
    requires Synthesized(c, ctx, answers, r) && r.Some?
    ensures r.value.1 != "cloudflare"
  {
    hide Make, Detect, PlanRecords, AlwaysYields, Ordered, InOrder, Extra, Idx;
    var w: nat :| Wins(c, ctx, answers, w) && Result(c, ctx, answers, w, r.value.0, r.value.1);
    MadeForId(ids[w], prefix, cloudfront);
    if ids[w] == "cloudflare" {
      SpecificComesFirst(ids, specific, "cloudflare", w);
      var k := Idx(ids, specific);
      YieldsAt(c, ctx, answers, k);
    }
  }

  lemma YieldsAt(c: Chain, ctx: Context, answers: AllAnswers, k: nat)
    requires k < |c.synths| && AlwaysYields(c.synths[k]) && Detect(c.synths[k], ctx).Some?
    ensures Yield(c, ctx, answers, k).Some?
  {
    ConstantYields(c.synths[k], ctx, c.ttlCap, Of(answers, k));
    hide PlanRecords;
  }
}
