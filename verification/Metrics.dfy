/** Shared counters. Every update is one atomic bump, so what the counters read is the
    multiset of bumps so far, in whatever order concurrent requests made them. */
module Metrics {
  import opened Text
  import opened Dns
  import opened Rewrites
  import opened Providers

  const RCODES: nat := 7
  const QTYPES: nat := 17

  function RcodeIndex(code: Rcode): (i: nat)
    ensures i < RCODES
  {
    match code
    case NoError => 0
    case NXDomain => 1
    case ServFail => 2
    case NotImp => 3
    case FormErr => 4
    case Refused => 5
    case OtherCode(_) => 6
  }

  function QtypeIndex(rt: RecordType): (i: nat)
    ensures i < QTYPES
  {
    match rt
    case A => 0
    case AAAA => 1
    case CNAME => 2
    case MX => 3
    case TXT => 4
    case NS => 5
    case PTR => 6
    case SOA => 7
    case SRV => 8
    case CAA => 9
    case HTTPS => 10
    case SVCB => 11
    case DS => 12
    case DNSKEY => 13
    case NAPTR => 14
    case ANY => 15
    case OtherType(_) => 16
  }

  datatype Bump =
    | QueriesDns64
    | QueriesPassthrough
    | BlockedQuery
    | NativeAaaa
    | Nxdomain64
    | NodataSeen
    | SynthesizedAnswer
    | EmptyAnswer
    | RcodeOf(code: nat)
    | QtypeOf(qtype: nat)
    | HitOf(place: nat)

  // ---------------------------------------------------------------- reading bumps

  /** The total over the first `n` buckets of a family. */
  function Total(h: multiset<Bump>, bucket: nat -> Bump, n: nat): nat {
    if n == 0 then 0 else Total(h, bucket, n - 1) + h[bucket(n - 1)]
  }

  function Rcodes(i: nat): Bump { RcodeOf(i) }
  function Qtypes(i: nat): Bump { QtypeOf(i) }
  function Hits(i: nat): Bump { HitOf(i) }

  lemma {:induction false} TotalAdds(g: multiset<Bump>, h: multiset<Bump>, bucket: nat -> Bump, n: nat)
    ensures Total(g + h, bucket, n) == Total(g, bucket, n) + Total(h, bucket, n)
  {
    if n > 0 {
      TotalAdds(g, h, bucket, n - 1);
    }
  }

  /** A bag with no bump of a family but, at most, one in bucket `k`. */
  lemma {:induction false} TotalSingle(h: multiset<Bump>, bucket: nat -> Bump, n: nat, k: nat)
    requires forall i: nat :: i < n && i != k ==> h[bucket(i)] == 0
    ensures Total(h, bucket, n) == if k < n then h[bucket(k)] else 0
  {
    if n > 0 {
      TotalSingle(h, bucket, n - 1, k);
    }
  }

  function Sum(s: seq<nat>): nat {
    if |s| == 0 then 0 else Sum(s[..|s| - 1]) + s[|s| - 1]
  }

  lemma {:induction false} SumIsTotal(s: seq<nat>, h: multiset<Bump>, bucket: nat -> Bump)
    requires forall i :: 0 <= i < |s| ==> s[i] == h[bucket(i)]
    ensures Sum(s) == Total(h, bucket, |s|)
  {
    if |s| > 0 {
      SumIsTotal(s[..|s| - 1], h, bucket);
    }
  }

  // ---------------------------------------------------------------- the object

  /** The counter a hit of `id` goes to, if the id is enabled. */
  function HitBump(ids: seq<string>, id: string): seq<Bump> {
    if Idx(ids, id) >= 0 then [HitOf(Idx(ids, id))] else []
  }

  class Metrics {
    var queriesDns64: nat
    var queriesPassthrough: nat
    var blocked: nat
    var nativeAaaa: nat
    var nxdomain64: nat
    var nodata: nat
    var synthesized: nat
    var empty: nat
    var rcode: seq<nat>
    var qtype: seq<nat>
    var synthHits: seq<nat>
    const synthIds: seq<string>
    /** Every bump so far. */
    ghost var trace: seq<Bump>

    /** Each counter reads the number of its bumps. */
    ghost predicate Valid()
      reads this
    {
      var h := multiset(trace);
      && queriesDns64 == h[QueriesDns64] && queriesPassthrough == h[QueriesPassthrough] && blocked == h[BlockedQuery]
      && nativeAaaa == h[NativeAaaa] && nxdomain64 == h[Nxdomain64] && nodata == h[NodataSeen]
      && synthesized == h[SynthesizedAnswer] && empty == h[EmptyAnswer]
      && |rcode| == RCODES && (forall i :: 0 <= i < |rcode| ==> rcode[i] == h[RcodeOf(i)])
      && |qtype| == QTYPES && (forall i :: 0 <= i < |qtype| ==> qtype[i] == h[QtypeOf(i)])
      && |synthHits| == |synthIds| && (forall i :: 0 <= i < |synthHits| ==> synthHits[i] == h[HitOf(i)])
    }

    constructor (enabled: seq<string>)
      ensures Valid() && trace == [] && synthIds == Filter(KnownId, enabled)
    {
      queriesDns64, queriesPassthrough, blocked, nativeAaaa := 0, 0, 0, 0;
      nxdomain64, nodata, synthesized, empty := 0, 0, 0, 0;
      rcode := seq(RCODES, i => 0);
      qtype := seq(QTYPES, i => 0);
      synthIds := Filter(KnownId, enabled);
      synthHits := seq(|Filter(KnownId, enabled)|, i => 0);
      trace := [];
    }

    method IncQueriesDns64()
      requires Valid()
      modifies this
      ensures Valid() && trace == old(trace) + [QueriesDns64]
    {
      queriesDns64 := queriesDns64 + 1;
      trace := trace + [QueriesDns64];
    }

    method IncQueriesPassthrough()
      requires Valid()
      modifies this
      ensures Valid() && trace == old(trace) + [QueriesPassthrough]
    {
      queriesPassthrough := queriesPassthrough + 1;
      trace := trace + [QueriesPassthrough];
    }

    method IncBlocked()
      requires Valid()
      modifies this
      ensures Valid() && trace == old(trace) + [BlockedQuery]
    {
      blocked := blocked + 1;
      trace := trace + [BlockedQuery];
    }

    method IncNativeAaaa()
      requires Valid()
      modifies this
      ensures Valid() && trace == old(trace) + [NativeAaaa]
    {
      nativeAaaa := nativeAaaa + 1;
      trace := trace + [NativeAaaa];
    }

    method IncNxdomain64()
      requires Valid()
      modifies this
      ensures Valid() && trace == old(trace) + [Nxdomain64]
    {
      nxdomain64 := nxdomain64 + 1;
      trace := trace + [Nxdomain64];
    }

    method IncNodata()
      requires Valid()
      modifies this
      ensures Valid() && trace == old(trace) + [NodataSeen]
    {
      nodata := nodata + 1;
      trace := trace + [NodataSeen];
    }

    method IncSynthesized()
      requires Valid()
      modifies this
      ensures Valid() && trace == old(trace) + [SynthesizedAnswer]
    {
      synthesized := synthesized + 1;
      trace := trace + [SynthesizedAnswer];
    }

    method IncEmpty()
      requires Valid()
      modifies this
      ensures Valid() && trace == old(trace) + [EmptyAnswer]
    {
      empty := empty + 1;
      trace := trace + [EmptyAnswer];
    }

    method RecordRcode(code: Rcode)
      requires Valid()
      modifies this
      ensures Valid() && trace == old(trace) + [RcodeOf(RcodeIndex(code))]
    {
      var i := RcodeIndex(code);
      rcode := rcode[i := rcode[i] + 1];
      trace := trace + [RcodeOf(i)];
    }

    method RecordQtype(rt: RecordType)
      requires Valid()
      modifies this
      ensures Valid() && trace == old(trace) + [QtypeOf(QtypeIndex(rt))]
    {
      var i := QtypeIndex(rt);
      qtype := qtype[i := qtype[i] + 1];
      trace := trace + [QtypeOf(i)];
    }

    /** No-op for an id that is not enabled. */
    method SynthHit(id: string)
      requires Valid()
      modifies this
      ensures Valid() && trace == old(trace) + HitBump(synthIds, id)
    {
      var i := Idx(synthIds, id);
      if i >= 0 {
        synthHits := synthHits[i := synthHits[i] + 1];
        trace := trace + [HitOf(i)];
      }
    }

    /** The counter families read off as totals. */
    lemma ReadTotals()
      requires Valid()
      ensures Sum(rcode) == Total(multiset(trace), Rcodes, RCODES)
      ensures Sum(qtype) == Total(multiset(trace), Qtypes, QTYPES)
      ensures Sum(synthHits) == Total(multiset(trace), Hits, |synthIds|)
    {
      SumIsTotal(rcode, multiset(trace), Rcodes);
      SumIsTotal(qtype, multiset(trace), Qtypes);
      SumIsTotal(synthHits, multiset(trace), Hits);
    }
  }
}
