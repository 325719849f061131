/** The synthesizers of the chain: what each recognises in a context, and the plan it
    answers with. All are pure; a plan says what to resolve and how to combine it. */
module Providers {
  import opened Text
  import opened Dns
  import opened Decision
  import opened Addresses
  import opened Rewrites
  import opened ObjectStores

  /** An address range with a prefix length a 32-bit mask can have. */
  type Range = c: Cidr4 | c.prefix <= 32 witness Cidr4(0, 0)

  /** What a synthesizer may look at. */
  datatype Context = Context(
    name: Name,
    cnameTargets: seq<Name>,
    aRecords: seq<(V4, u32)>,
    authority: Authority)
  {
    /** CNAME targets first, then the queried name. */
    function Hostnames(): seq<Name> { cnameTargets + [name] }

    function AAddrs(): (r: seq<V4>)
      ensures |r| == |aRecords| && forall i :: 0 <= i < |r| ==> r[i] == aRecords[i].0
    {
      seq(|aRecords|, i requires 0 <= i < |aRecords| => aRecords[i].0)
    }
  }

  /** Names to resolve, and a transform of the resolved and the original addresses. */
  datatype Plan = Plan(resolve: seq<Name>, combine: (seq<V6>, seq<V4>) -> seq<V6>)

  function PurePlan(combine: (seq<V6>, seq<V4>) -> seq<V6>): Plan { Plan([], combine) }

  datatype RewriteKind = AkamaiNames | S3Names | OssNames | OracleNames | AwsGlbNames | AzureNames

  datatype Synth =
    | Nat64(prefix: V6)
    | MatchConst(cid: string, suffixes: seq<Labelled>, ranges: seq<Range>, addr: V6, cref: Option<Name>)
    | MatchBorrow(bid: string, bsuffixes: seq<Labelled>, branges: seq<Range>, soaAdmin: Option<string>,
        reference: Name, fallback: Option<V6>)
    | MatchRewrite(rid: string, kind: RewriteKind)
    | Cloudflare
    | Fastly
    | Msedge
    | Wpvip
    | CacheFly

  function Id(s: Synth): string {
    match s
    case Nat64(_) => "nat64"
    case MatchConst(id, _, _, _, _) => id
    case MatchBorrow(id, _, _, _, _, _) => id
    case MatchRewrite(id, _) => id
    case Cloudflare => "cloudflare"
    case Fastly => "fastly"
    case Msedge => "msedge"
    case Wpvip => "wpvip"
    case CacheFly => "cachefly"
  }

  // ---------------------------------------------------------------- signals

  predicate HostMatches(ctx: Context, suffixes: seq<Labelled>) {
    exists i, k :: 0 <= i < |ctx.Hostnames()| && 0 <= k < |suffixes| && EndsWith(Labels(ctx.Hostnames()[i]), suffixes[k])
  }

  predicate IpMatches(ctx: Context, ranges: seq<Range>) {
    exists i :: 0 <= i < |ctx.aRecords| && InAny(ctx.aRecords[i].0, ranges)
  }

  predicate SoaAdminIs(ctx: Context, admin: string) {
    ctx.authority.soaAdmin.Some? && Lower(ToAscii(ctx.authority.soaAdmin.value)) == Lower(TrimEnd(admin, '.') + ".")
  }

  predicate Within(c: Range, ip: V4) { InCidr(ip, c) }

  /** First address in a range. */
  function FirstIn(v4: seq<V4>, cs: seq<Range>): Option<V4> {
    if |v4| == 0 then None else if InAny(v4[0], cs) then Some(v4[0]) else FirstIn(v4[1..], cs)
  }

  // ---------------------------------------------------------------- combining

  function Map<T, U>(f: T -> U, xs: seq<T>): (r: seq<U>)
    ensures |r| == |xs| && forall i :: 0 <= i < |xs| ==> r[i] == f(xs[i])
  {
    seq(|xs|, i requires 0 <= i < |xs| => f(xs[i]))
  }

  function BorrowOr(fallback: Option<V6>): (seq<V6>, seq<V4>) -> seq<V6> {
    (resolved: seq<V6>, v4: seq<V4>) =>
      if resolved != [] then resolved else match fallback case Some(a) => [a] case None => []
  }

  function Verbatim(): (seq<V6>, seq<V4>) -> seq<V6> { (resolved: seq<V6>, v4: seq<V4>) => resolved }

  /** The decimal digits of a number, read as hexadecimal. */
  function DigitsAsHex(n: nat): nat {
    if n < 10 then n else DigitsAsHex(n / 10) * 16 + n % 10
  }

  lemma {:induction false} DigitsAsHexBounds(n: nat)
    ensures n < 10 ==> DigitsAsHex(n) < 16
    ensures n < 100 ==> DigitsAsHex(n) < 0x100
    ensures n < 1_000 ==> DigitsAsHex(n) < 0x1000
    ensures n < 10_000 ==> DigitsAsHex(n) < 0x1_0000
  {
    if n >= 10 {
      DigitsAsHexBounds(n / 10);
    }
  }

  /** Different numbers stay different. */
  lemma {:induction false} DigitsAsHexInjective(a: nat, b: nat)
    requires DigitsAsHex(a) == DigitsAsHex(b)
    ensures a == b
  {
    DigitsAsHexDigit(a);
    DigitsAsHexDigit(b);
    if a >= 10 && b >= 10 {
      DigitsAsHexInjective(a / 10, b / 10);
    } else if a >= 10 {
      DigitsAsHexPositive(a / 10);
    } else if b >= 10 {
      DigitsAsHexPositive(b / 10);
    }
  }

  lemma DigitsAsHexDigit(n: nat)
    ensures DigitsAsHex(n) % 16 == n % 10
    ensures n >= 10 ==> DigitsAsHex(n) / 16 == DigitsAsHex(n / 10)
  {
  }

  lemma {:induction false} DigitsAsHexPositive(n: nat)
    requires n >= 1
    ensures DigitsAsHex(n) >= 1
  {
    if n >= 10 {
      DigitsAsHexPositive(n / 10);
    }
  }

  // ---------------------------------------------------------------- Fastly

  const SEGMENT: int := 0x1_0000

  function FastlyHostId(ip: V4, github: bool): nat {
    if github then Octet(ip, 3) else (Octet(ip, 2) % 4) * 256 + Octet(ip, 3)
  }

  /** The host id's digits become the last segment, if they fit it. */
  function FastlyFuse(prefix: V6, hostid: nat): Option<V6> {
    var seg := DigitsAsHex(hostid);
    if seg >= SEGMENT then None else Some(prefix - prefix % SEGMENT + seg)
  }

  function Fused(prefixes: seq<V6>, hostid: nat): seq<V6> {
    if |prefixes| == 0 then []
    else
      (match FastlyFuse(prefixes[0], hostid) case Some(a) => [a] case None => []) + Fused(prefixes[1..], hostid)
  }

  lemma OctetSmall(ip: V4, i: nat)
    requires i < 4
    ensures Octet(ip, i) < 256
  {
    OctetsSpell(ip);
    if i == 0 {
    } else if i == 1 {
    } else if i == 2 {
    } else {
      assert i == 3;
    }
  }

  /** A host id always fits: fusing never drops a borrowed prefix, keeps its first seven
      segments, and tells host ids apart. */
  lemma FuseFits(prefix: V6, ip: V4, ip': V4, github: bool)
    ensures var f := FastlyFuse(prefix, FastlyHostId(ip, github));
      && f.Some? && f.value / SEGMENT == prefix / SEGMENT
      && (f == FastlyFuse(prefix, FastlyHostId(ip', github)) ==> FastlyHostId(ip, github) == FastlyHostId(ip', github))
  {
    OctetSmall(ip, 2);
    OctetSmall(ip, 3);
    OctetSmall(ip', 2);
    OctetSmall(ip', 3);
    var h, h' := FastlyHostId(ip, github), FastlyHostId(ip', github);
    DigitsAsHexBounds(h);
    DigitsAsHexBounds(h');
    if DigitsAsHex(h) == DigitsAsHex(h') {
      DigitsAsHexInjective(h, h');
    }
  }

  // ---------------------------------------------------------------- detection

  function Ip(a: nat, b: nat, c: nat, d: nat): V4
    requires a < 256 && b < 256 && c < 256 && d < 256
  {
    ((a * 256 + b) * 256 + c) * 256 + d
  }

  const FASTLY_RANGES: seq<Range> := [Cidr4(Ip(151, 101, 0, 0), 16), Cidr4(Ip(199, 232, 0, 0), 16), Cidr4(Ip(146, 75, 0, 0), 17)]
  const GITHUB_PAGES_RANGE: Range := Cidr4(Ip(185, 199, 108, 0), 22)
  const CLOUDFLARE_RANGE: Range := Cidr4(Ip(104, 16, 0, 0), 12)
  const WPVIP_RANGE: Range := Cidr4(Ip(192, 0, 66, 0), 24)
  const CACHEFLY_RANGE: Range := Cidr4(Ip(205, 234, 175, 0), 24)

  const CLOUDFLARE_BASE: V6 := 0x2606_4700_0000_0000_0000_0000_0000_0000
  const WPVIP_BASE: V6 := 0x2a04_fa87_fffd_0000_0000_0000_0000_0000
  const CACHEFLY_BASE: V6 := 0x2605_4c40_0000_0000_0000_0000_0000_0000

  /** The 32 address bits behind a base, for the addresses of a range. */
  function EmbedRange(base: V6, range: Range): (seq<V6>, seq<V4>) -> seq<V6> {
    (resolved: seq<V6>, v4: seq<V4>) =>
      Map((ip: V4) => Embed(base, ip), Filter((ip: V4) => Within(range, ip), v4))
  }

  function CacheFlyAddress(ip: V4): V6 {
    OctetSmall(ip, 2);
    OctetSmall(ip, 3);
    DigitsAsHexBounds(Octet(ip, 2));
    DigitsAsHexBounds(Octet(ip, 3));
    CACHEFLY_BASE + DigitsAsHex(Octet(ip, 2)) * SEGMENT + DigitsAsHex(Octet(ip, 3))
  }

  function CacheFlyPlan(): Plan {
    PurePlan((resolved: seq<V6>, v4: seq<V4>) => Map(CacheFlyAddress, Filter((ip: V4) => Within(CACHEFLY_RANGE, ip), v4)))
  }

  function RewriteOf(kind: RewriteKind, name: Name): Option<Name> {
    match kind
    case AkamaiNames => Rewritten(Akamai, name)
    case S3Names => Rewritten(S3, name)
    case OssNames => Rewritten(Oss, name)
    case OracleNames => Rewritten(Oracle, name)
    case AwsGlbNames => Rewritten(AwsGlb, name)
    case AzureNames => Rewritten(Azure, name)
  }

  /** The first host name a rewrite accepts, rewritten. */
  function FirstRewrite(rewrite: Name -> Option<Name>, hosts: seq<Name>): Option<Name> {
    if |hosts| == 0 then None
    else match rewrite(hosts[0])
      case Some(t) => Some(t)
      case None => FirstRewrite(rewrite, hosts[1..])
  }

  function VerbatimOf(target: Option<Name>): Option<Plan> {
    match target
    case Some(t) => Some(Plan([t], Verbatim()))
    case None => None
  }

  function FastlyHost(h: Name): Option<Name> {
    var l := Labels(h);
    if EndsWith(l, ["fastly", "net"]) || EndsWith(l, ["fastlylb", "net"]) then NameFromLabels(["dualstack"] + l) else None
  }

  function FusePlan(reference: Name, hostid: nat): Plan {
    Plan([reference], (resolved: seq<V6>, v4: seq<V4>) => Fused(resolved, hostid))
  }

  function DetectFastly(ctx: Context): Option<Plan> {
    var v4 := ctx.AAddrs();
    var fastlyIp := FirstIn(v4, FASTLY_RANGES);
    var github := FirstIn(v4, [GITHUB_PAGES_RANGE]);
    var chosen := if fastlyIp.Some? then fastlyIp else if v4 != [] then Some(v4[0]) else None;
    if (SoaAdminIs(ctx, "hostmaster.fastly.com") || fastlyIp.Some?) && chosen.Some? then
      Some(FusePlan(["dualstack", "g", "shared", "global", "fastly", "net"], FastlyHostId(chosen.value, false)))
    else if github.Some? then
      Some(FusePlan(["dualstack", "github", "io"], FastlyHostId(github.value, true)))
    else VerbatimOf(FirstRewrite(FastlyHost, ctx.Hostnames()))
  }

  predicate HasText(s: string, sub: string) {
    exists i :: 0 <= i <= |s| && sub <= s[i..]
  }

  /** Prefix by leading letter, and whether it is the one with the odd last octet. */
  function MsedgePrefix(letter: string): Option<(V6, bool)> {
    if letter == "a" then Some((0x2620_01ec_0c11_0000_0000_0000_0000_0000, false))
    else if letter == "b" then Some((0x2620_01ec_0a92_0000_0000_0000_0000_0000, false))
    else if letter == "c" then Some((0x2a01_0111_2003_0000_0000_0000_0000_0000, false))
    else if letter == "l" then Some((0x2620_01ec_0021_0000_0000_0000_0000_0000, false))
    else if letter == "s" then Some((0x2620_01ec_0006_0000_0000_0000_0000_0000, false))
    else if letter == "k" then Some((0x2620_01ec_000c_0000_0000_0000_0000_0000, false))
    else if letter == "t" then Some((0x2620_01ec_0bdf_0000_0000_0000_0000_0000, false))
    else if letter == "spo" then Some((0x2620_01ec_08f8_0000_0000_0000_0000_0000, true))
    else None
  }

  /** The last octet's digits, written behind the prefix. */
  function MsedgeAddress(prefix: V6, spo: bool, ip: V4): V6 {
    var o3 := Octet(ip, 3);
    OctetSmall(ip, 3);
    DigitsAsHexBounds(o3);
    var d := DigitsAsHex(if spo && o3 == 9 then 8 else o3);
    prefix - prefix % SEGMENT + d
  }

  function EdgePlan(prefix: V6, spo: bool): Plan {
    PurePlan((resolved: seq<V6>, v4: seq<V4>) => Map((ip: V4) => MsedgeAddress(prefix, spo, ip), v4))
  }

  function DetectMsedge(ctx: Context): Option<Plan> {
    if ctx.authority.soaZone.None? || !HasText(Lower(ToAscii(ctx.authority.soaZone.value)), "msedge.net") then None
    else
      var l := Labels(if ctx.cnameTargets != [] then ctx.cnameTargets[|ctx.cnameTargets| - 1] else ctx.name);
      if l == [] then None
      else match MsedgePrefix(Split(l[0], '-')[0])
        case None => None
        case Some((prefix, spo)) =>
          Some(EdgePlan(prefix, spo))
  }

  predicate IsIpv4OnlyArpa(name: Name) { Lower(ToAscii(name)) == "ipv4only.arpa." }

  /** The A addresses that may be embedded: the routable ones, or all under the name that
      clients discover the prefix by (RFC 7050). */
  function Eligible(name: Name, v4: seq<V4>): seq<V4> {
    if IsIpv4OnlyArpa(name) then v4 else Filter((ip: V4) => IsGloballyRoutable(ip), v4)
  }

  function Embeddings(prefix: V6, v4: seq<V4>): (r: seq<V6>)
    ensures |r| == |v4| && forall i :: 0 <= i < |v4| ==> r[i] == Embed(prefix, v4[i])
  {
    Map((ip: V4) => Embed(prefix, ip), v4)
  }

  function DetectNat64(prefix: V6, ctx: Context): Option<Plan> {
    if ctx.aRecords == [] then None
    else Some(PurePlan((resolved: seq<V6>, v4: seq<V4>) => Embeddings(prefix, Eligible(ctx.name, v4))))
  }

  function Detect(s: Synth, ctx: Context): Option<Plan> {
    match s
    case Nat64(prefix) => DetectNat64(prefix, ctx)
    case MatchConst(_, suffixes, ranges, addr, cref) =>
      if !(HostMatches(ctx, suffixes) || IpMatches(ctx, ranges)) then None
      else (match cref
            case Some(r) => Some(Plan([r], BorrowOr(Some(addr))))
            case None => Some(PurePlan((resolved: seq<V6>, v4: seq<V4>) => [addr])))
    case MatchBorrow(_, suffixes, ranges, soaAdmin, reference, fallback) =>
      if (soaAdmin.Some? && SoaAdminIs(ctx, soaAdmin.value)) || HostMatches(ctx, suffixes) || IpMatches(ctx, ranges)
      then Some(Plan([reference], BorrowOr(fallback)))
      else None
    case MatchRewrite(_, kind) => VerbatimOf(FirstRewrite((n: Name) => RewriteOf(kind, n), ctx.Hostnames()))
    case Cloudflare =>
      if IpMatches(ctx, [CLOUDFLARE_RANGE]) then Some(PurePlan(EmbedRange(CLOUDFLARE_BASE, CLOUDFLARE_RANGE))) else None
    case Fastly => DetectFastly(ctx)
    case Msedge => DetectMsedge(ctx)
    case Wpvip =>
      if IpMatches(ctx, [WPVIP_RANGE]) then Some(PurePlan(EmbedRange(WPVIP_BASE, WPVIP_RANGE))) else None
    case CacheFly =>
      var target := FirstRewrite(Cachefly, ctx.Hostnames());
      if target.Some? then VerbatimOf(target)
      else if IpMatches(ctx, [CACHEFLY_RANGE]) then Some(CacheFlyPlan())
      else None
  }

  // ---------------------------------------------------------------- registry

  predicate KnownId(id: string) {
    id in ["nat64", "fastly", "akamai", "cloudfront", "cloudflare", "shopify", "webflow", "s3", "oss", "alicdn",
      "oracleobjectstorage", "msedge", "bunnycdn", "blazingcdn", "gcorecdn", "cachefly", "cdn77", "awsglb",
      "weebly", "sucuri", "netlify", "bearblog", "azurewebsites", "wpvip"]
  }

  /** The synthesizer an id names. The long CloudFront range table is a parameter. */
  function Make(id: string, prefix: V6, cloudfront: seq<Range>): Option<Synth> {
    if id == "nat64" then Some(Nat64(prefix))
    else if id == "shopify" then Some(MatchConst(id, [["shopify", "com"], ["myshopify", "com"]],
      [Cidr4(Ip(23, 227, 37, 0), 24), Cidr4(Ip(23, 227, 38, 0), 23), Cidr4(Ip(23, 227, 60, 0), 24), Cidr4(Ip(185, 146, 172, 0), 23)],
      0x2620_0127_f00f_0000_0000_0000_0000_0000, None))
    else if id == "webflow" then Some(MatchConst(id, [["webflow", "com"]],
      [Cidr4(Ip(198, 202, 211, 0), 24), Cidr4(Ip(75, 2, 70, 75), 32), Cidr4(Ip(99, 83, 190, 102), 32)],
      0x2620_00cb_2000_0000_0000_0000_0000_0001, None))
    else if id == "weebly" then Some(MatchConst(id, [["weebly", "com"]], [Cidr4(Ip(199, 34, 228, 0), 22)],
      0x2620_011c_0001_00e4_0000_0000_0000_0036, None))
    else if id == "cloudfront" then
      Some(MatchBorrow(id, [["cloudfront", "net"]], cloudfront, None, ["static", "twitchcdn", "net"], None))
    else if id == "bunnycdn" then Some(MatchBorrow(id, [["b-cdn", "net"]], [], None, ["bunnyfonts", "b-cdn", "net"],
      Some(0x2400_52e0_1e01_0000_0000_0000_0883_0001)))
    else if id == "blazingcdn" then Some(MatchBorrow(id, [["blazingcdn", "net"]], [], None, ["cdn59455242", "blazingcdn", "net"],
      Some(0x2a02_0b48_9000_0000_0000_0000_0000_0001)))
    else if id == "gcorecdn" then Some(MatchBorrow(id, [["gcdn", "co"]], [], None, ["d", "gcdn", "co"], None))
    else if id == "cdn77" then
      Some(MatchBorrow(id, [["cdn77", "org"]], [], Some("admin.cdn77.com"), ["www", "cdn77", "com"], None))
    else if id == "sucuri" then
      Some(MatchBorrow(id, [], [Cidr4(Ip(192, 124, 249, 0), 24)], None, ["sucuri", "net"], None))
    else if id == "netlify" then Some(MatchBorrow(id, [["netlify", "com"]],
      [Cidr4(Ip(75, 2, 60, 5), 32), Cidr4(Ip(99, 83, 231, 61), 32)], None, ["www", "netlify", "com"], None))
    else if id == "bearblog" then
      Some(MatchBorrow(id, [], [Cidr4(Ip(159, 223, 204, 176), 32)], None, ["domain-proxy", "bearblog", "dev"], None))
    else if id == "alicdn" then Some(MatchBorrow(id, [["alicdn", "com"]], [], None, ["t", "alicdn", "com"], None))
    else if id == "akamai" then Some(MatchRewrite(id, AkamaiNames))
    else if id == "s3" then Some(MatchRewrite(id, S3Names))
    else if id == "oss" then Some(MatchRewrite(id, OssNames))
    else if id == "oracleobjectstorage" then Some(MatchRewrite(id, OracleNames))
    else if id == "awsglb" then Some(MatchRewrite(id, AwsGlbNames))
    else if id == "azurewebsites" then Some(MatchRewrite(id, AzureNames))
    else if id == "cloudflare" then Some(Cloudflare)
    else if id == "fastly" then Some(Fastly)
    else if id == "msedge" then Some(Msedge)
    else if id == "wpvip" then Some(Wpvip)
    else if id == "cachefly" then Some(CacheFly)
    else None
  }

  /** Every synthesizer answers to the id it was made for. */
  lemma MadeForId(id: string, prefix: V6, cloudfront: seq<Range>)
    ensures Make(id, prefix, cloudfront).Some? ==> Id(Make(id, prefix, cloudfront).value) == id
  {
  }

  /** The ids listed as known are exactly those a synthesizer exists for. */
  lemma KnownIdsAreMakeable(id: string, prefix: V6, cloudfront: seq<Range>)
    ensures Make(id, prefix, cloudfront).Some? <==> KnownId(id)
  {
  }
}
