/** What each kind of synthesizer recognises and what it makes of the addresses, on the names,
    addresses and digits themselves. */
module ProviderLaws {
  import opened Text
  import opened Dns
  import opened Bits
  import opened Addresses
  import opened Rewrites
  import opened ObjectStores
  import opened Providers
  import opened Chain

  // ---------------------------------------------------------------- digits

  /** The hexadecimal digits that spell a number below ten thousand in decimal. */
  function Spelled(n: nat): nat {
    (n / 1000) * 0x1000 + (n / 100 % 10) * 0x100 + (n / 10 % 10) * 0x10 + n % 10
  }

  lemma LastDigit(n: nat)
    ensures DigitsAsHex(n) == DigitsAsHex(n / 10) * 16 + n % 10
  {
    if n < 10 {
      assert n / 10 == 0;
    }
  }

  lemma DigitsSpell(n: nat)
    requires n < 10_000
    ensures DigitsAsHex(n) == Spelled(n) < 0x1_0000
  {
    assert DigitsAsHex(n / 1000) == n / 1000;
    LastDigit(n);
    LastDigit(n / 10);
    LastDigit(n / 100);
    hide DigitsAsHex;
    assert n / 10 / 10 == n / 100 && n / 100 / 10 == n / 1000;
  }

  /** Fastly's host id is the address modulo 1024, GitHub's modulo 256; its decimal digits are
      the last segment served, behind the seven segments of the borrowed prefix. */
  lemma FusedDigits(prefix: V6, ip: V4, github: bool)
    ensures FastlyFuse(prefix, FastlyHostId(ip, github)) ==
      Some(prefix / 0x1_0000 * 0x1_0000 + Spelled(if github then ip % 256 else ip % 1024))
  {
    HostIdIsRemainder(ip, github);
    DigitsSpell(FastlyHostId(ip, github));
    hide DigitsAsHex, Spelled;
  }

  lemma HostIdIsRemainder(ip: V4, github: bool)
    ensures FastlyHostId(ip, github) == if github then ip % 256 else ip % 1024
  {
    var a := ip / 256;
    QuarterOf(a);
    assert ip == a / 4 * 1024 + a % 4 * 256 + ip % 256;
    Remainder(ip, 1024, a / 4, a % 4 * 256 + ip % 256);
  }

  lemma QuarterOf(a: nat)
    ensures a % 256 % 4 == a % 4
  {
  }

  /** The Edge address: the prefix, and the last octet's digits, 9 read as 8 behind one of the
      prefixes. */
  lemma EdgeDigits(prefix: V6, odd: bool, ip: V4)
    ensures MsedgeAddress(prefix, odd, ip) ==
      prefix / 0x1_0000 * 0x1_0000 + Spelled(if odd && ip % 256 == 9 then 8 else ip % 256)
  {
    DigitsSpell(if odd && ip % 256 == 9 then 8 else ip % 256);
    hide DigitsAsHex, Spelled;
  }

  /** The CacheFly address: the last two octets' digits, a segment each. */
  lemma CacheFlyDigits(ip: V4)
    ensures CacheFlyAddress(ip) == 0x2605_4c40_0000_0000_0000_0000_0000_0000 + Spelled(ip / 256 % 256) * 0x1_0000 + Spelled(ip % 256)
  {
    DigitsSpell(ip / 256 % 256);
    DigitsSpell(ip % 256);
    hide DigitsAsHex, Spelled;
  }

  // ---------------------------------------------------------------- ranges

  /** The aligned block of addresses a range stands for. */
  ghost predicate InBlockOf(ip: V4, c: Range) {
    var size := Pow2(32 - c.prefix);
    c.net - c.net % size <= ip < c.net - c.net % size + size
  }

  /** The first address in one of the blocks, if there is one. */
  ghost predicate FirstAddressIn(v4: seq<V4>, cs: seq<Range>, at: nat) {
    at < |v4| && AnyBlock(v4[at], cs) && forall j :: 0 <= j < at ==> !AnyBlock(v4[j], cs)
  }

  ghost predicate AnyBlock(ip: V4, cs: seq<Range>) {
    exists k :: 0 <= k < |cs| && InBlockOf(ip, cs[k])
  }

  lemma AnyIsBlock(ip: V4, cs: seq<Range>)
    ensures InAny(ip, cs) <==> AnyBlock(ip, cs)
  {
    hide InCidr, InBlockOf;
    forall k | 0 <= k < |cs| ensures InCidr(ip, cs[k]) <==> InBlockOf(ip, cs[k]) {
      WithinIsBlock(ip, cs[k]);
    }
  }

  lemma WithinIsBlock(ip: V4, c: Range)
    ensures Within(c, ip) <==> InBlockOf(ip, c)
  {
    CidrIsInterval(ip, c);
    hide Pow2, InCidr;
  }

  lemma {:induction false} FirstInExactly(v4: seq<V4>, cs: seq<Range>)
    ensures FirstIn(v4, cs).None? <==> forall j :: 0 <= j < |v4| ==> !AnyBlock(v4[j], cs)
    ensures forall at: nat :: FirstAddressIn(v4, cs, at) ==> FirstIn(v4, cs) == Some(v4[at])
  {
    hide AnyBlock, InAny;
    if |v4| > 0 {
      AnyIsBlock(v4[0], cs);
      FirstInExactly(v4[1..], cs);
      assert forall j :: 1 <= j < |v4| ==> v4[j] == v4[1..][j - 1];
      forall at: nat | FirstAddressIn(v4, cs, at) ensures FirstIn(v4, cs) == Some(v4[at]) {
        if at > 0 {
          assert FirstAddressIn(v4[1..], cs, at - 1);
        }
      }
    }
  }

  lemma {:induction false} FilterSame<T(!new)>(p: T -> bool, q: T -> bool, xs: seq<T>)
    requires forall x :: p(x) == q(x)
    ensures Filter(p, xs) == Filter(q, xs)
  {
    if |xs| > 0 {
      FilterSame(p, q, xs[1..]);
    }
  }

  /** Every address of `v4` that `p` accepts, in order, behind a base. */
  ghost predicate Embedded(out: seq<V6>, base: int, p: V4 -> bool, v4: seq<V4>) {
    var hits := Filter(p, v4);
    |out| == |hits| && forall k :: 0 <= k < |out| ==> out[k] == base + hits[k]
  }

  lemma EmbedsBehind(base: V6, ip: V4)
    requires base % LOW32 == 0
    ensures Embed(base, ip) == base + ip
  {
    EmbedFacts(base, ip);
    hide Embed, AcceptedPrefix, IsGlobalUnicast;
  }

  lemma RangeEmbedded(base: V6, range: Range, p: V4 -> bool, resolved: seq<V6>, v4: seq<V4>)
    requires base % LOW32 == 0 && forall ip: V4 :: p(ip) == InBlockOf(ip, range)
    ensures Embedded(EmbedRange(base, range)(resolved, v4), base, p, v4)
  {
    hide InBlockOf, Within, Embed, Filter;
    forall ip ensures Within(range, ip) == p(ip) {
      WithinIsBlock(ip, range);
    }
    FilterSame((ip: V4) => Within(range, ip), p, v4);
    forall ip: V4 ensures Embed(base, ip) == base + ip {
      EmbedsBehind(base, ip);
    }
  }

  const IN_CLOUDFLARE: V4 -> bool := (ip: V4) => 0x6810_0000 <= ip < 0x6820_0000
  const IN_WPVIP: V4 -> bool := (ip: V4) => 0xC000_4200 <= ip < 0xC000_4300
  const IN_CACHEFLY: V4 -> bool := (ip: V4) => 0xCDEA_AF00 <= ip < 0xCDEA_B000

  lemma RangeBounds(ip: V4)
    ensures IN_CLOUDFLARE(ip) == InBlockOf(ip, CLOUDFLARE_RANGE)
    ensures IN_WPVIP(ip) == InBlockOf(ip, WPVIP_RANGE)
    ensures IN_CACHEFLY(ip) == InBlockOf(ip, CACHEFLY_RANGE)
  {
    SmallPowers();
    hide Pow2;
  }

  /** A plan that looks nothing up and embeds the accepted addresses behind a base. */
  ghost predicate EmbedsOnly(plan: Plan, base: int, p: V4 -> bool) {
    plan.resolve == [] && forall resolved, v4 :: Embedded(plan.combine(resolved, v4), base, p, v4)
  }

  lemma RangePlan(ctx: Context, base: V6, range: Range, p: V4 -> bool)
    requires base % LOW32 == 0 && forall ip: V4 :: p(ip) == InBlockOf(ip, range)
    ensures IpMatches(ctx, [range]) <==> exists i :: 0 <= i < |ctx.aRecords| && p(ctx.aRecords[i].0)
    ensures EmbedsOnly(PurePlan(EmbedRange(base, range)), base, p)
  {
    hide InBlockOf, Embedded, InCidr, InAny;
    forall ip ensures p(ip) == InAny(ip, [range]) {
      AnyIsBlock(ip, [range]);
      assert [range][0] == range;
    }
    forall resolved, v4 ensures Embedded(EmbedRange(base, range)(resolved, v4), base, p, v4) {
      RangeEmbedded(base, range, p, resolved, v4);
    }
  }

  /** Cloudflare's addresses are embedded behind its prefix, and WordPress VIP's behind theirs;
      other addresses of the name are left out. */
  lemma EmbeddersExactly(ctx: Context)
    ensures Detect(Cloudflare, ctx).Some? <==> exists i :: 0 <= i < |ctx.aRecords| && IN_CLOUDFLARE(ctx.aRecords[i].0)
    ensures Detect(Cloudflare, ctx).Some? ==> EmbedsOnly(Detect(Cloudflare, ctx).value, 0x2606_4700_0000_0000_0000_0000_0000_0000, IN_CLOUDFLARE)
    ensures Detect(Wpvip, ctx).Some? <==> exists i :: 0 <= i < |ctx.aRecords| && IN_WPVIP(ctx.aRecords[i].0)
    ensures Detect(Wpvip, ctx).Some? ==> EmbedsOnly(Detect(Wpvip, ctx).value, 0x2a04_fa87_fffd_0000_0000_0000_0000_0000, IN_WPVIP)
  {
    hide InBlockOf, Embedded, IN_CLOUDFLARE, IN_WPVIP, IpMatches;
    forall ip ensures IN_CLOUDFLARE(ip) == InBlockOf(ip, CLOUDFLARE_RANGE) && IN_WPVIP(ip) == InBlockOf(ip, WPVIP_RANGE) {
      RangeBounds(ip);
    }
    RangePlan(ctx, CLOUDFLARE_BASE, CLOUDFLARE_RANGE, IN_CLOUDFLARE);
    RangePlan(ctx, WPVIP_BASE, WPVIP_RANGE, IN_WPVIP);
  }

  // ---------------------------------------------------------------- names and mailboxes

  ghost predicate ValidContext(ctx: Context) {
    && ValidName(ctx.name) && (forall k :: 0 <= k < |ctx.cnameTargets| ==> ValidName(ctx.cnameTargets[k]))
    && (ctx.authority.soaAdmin.Some? ==> ValidName(ctx.authority.soaAdmin.value))
  }

  /** The name, or the target of one of the CNAMEs on the way to it. */
  ghost predicate HostOf(ctx: Context, h: Name) { h in ctx.cnameTargets || h == ctx.name }

  /** Some host name is at or under one of the suffixes, in any letter case. */
  ghost predicate HostUnder(ctx: Context, suffixes: seq<Labelled>) {
    exists h, sfx :: HostOf(ctx, h) && sfx in suffixes && Ends(LowerAll(h), sfx)
  }

  ghost predicate AdminIs(ctx: Context, admin: string) {
    ctx.authority.soaAdmin.Some? && Join(LowerAll(ctx.authority.soaAdmin.value), '.') == admin
  }

  lemma EndsExactly(h: Name, sfx: Labelled)
    requires ValidName(h)
    ensures EndsWith(Labels(h), sfx) <==> Ends(LowerAll(h), sfx)
  {
    LabelsAreLowered(h);
    hide LowerAll, Labels;
    var l := LowerAll(h);
    if EndsWith(l, sfx) {
      EndsBack(l, sfx);
    }
    if head :| l == head + sfx {
      EndsAt(head, sfx);
    }
  }

  lemma HostMatchesExactly(ctx: Context, suffixes: seq<Labelled>)
    requires ValidContext(ctx)
    ensures HostMatches(ctx, suffixes) <==> HostUnder(ctx, suffixes)
  {
    var hosts := ctx.Hostnames();
    hide LowerAll, Labels, Ends, EndsWith;
    if i, k :| 0 <= i < |hosts| && 0 <= k < |suffixes| && EndsWith(Labels(hosts[i]), suffixes[k]) {
      assert i < |ctx.cnameTargets| ==> hosts[i] == ctx.cnameTargets[i];
      assert HostOf(ctx, hosts[i]) && suffixes[k] in suffixes;
      EndsExactly(hosts[i], suffixes[k]);
    }
    if h, sfx :| HostOf(ctx, h) && sfx in suffixes && Ends(LowerAll(h), sfx) {
      var i := HostAt(ctx, h);
      var k :| 0 <= k < |suffixes| && suffixes[k] == sfx;
      EndsExactly(h, sfx);
      assert EndsWith(Labels(hosts[i]), suffixes[k]);
    }
  }

  lemma HostAt(ctx: Context, h: Name) returns (i: nat)
    requires HostOf(ctx, h) && ValidContext(ctx)
    ensures i < |ctx.Hostnames()| && ctx.Hostnames()[i] == h && ValidName(h)
  {
    if h == ctx.name {
      i := |ctx.cnameTargets|;
    } else {
      i :| 0 <= i < |ctx.cnameTargets| && ctx.cnameTargets[i] == h;
    }
  }

  lemma AdminExactly(ctx: Context, admin: string)
    requires ValidContext(ctx) && Lower(admin) == admin && (admin != "" ==> admin[|admin| - 1] != '.')
    ensures SoaAdminIs(ctx, admin) <==> AdminIs(ctx, admin)
  {
    if ctx.authority.soaAdmin.Some? {
      var n := ctx.authority.soaAdmin.value;
      LowerJoin(n, '.');
      LowerDotted(Join(n, '.'));
      LowerDotted(admin);
      assert TrimEnd(admin, '.') == admin;
      hide Lower, LowerAll, Join, TrimEnd;
      var a, b := Lower(Join(n, '.')), admin;
      assert (a + ".")[..|a|] == a && (b + ".")[..|b|] == b;
    }
  }

  lemma LowerDotted(s: string)
    ensures Lower(s + ".") == Lower(s) + "."
  {
    assert Lower(s + ".")[|s|] == '.';
  }

  // ---------------------------------------------------------------- constant and borrowing ones

  ghost predicate AddressIn(ctx: Context, ranges: seq<Range>) {
    exists i :: 0 <= i < |ctx.aRecords| && AnyBlock(ctx.aRecords[i].0, ranges)
  }

  lemma IpMatchesExactly(ctx: Context, ranges: seq<Range>)
    ensures IpMatches(ctx, ranges) <==> AddressIn(ctx, ranges)
  {
    hide AnyBlock, InAny;
    forall ip ensures InAny(ip, ranges) <==> AnyBlock(ip, ranges) {
      AnyIsBlock(ip, ranges);
    }
  }

  /** A plan that looks one name up and serves what it yields, or the fallback. */
  ghost predicate Borrows(plan: Plan, reference: Name, fallback: seq<V6>) {
    && plan.resolve == [reference]
    && forall resolved, v4 :: plan.combine(resolved, v4) == if |resolved| > 0 then resolved else fallback
  }

  /** A constant synthesizer serves its address, for the hosts under its suffixes and the
      addresses in its ranges. */
  lemma ConstantExactly(s: Synth, ctx: Context)
    requires s.MatchConst? && s.cref.None? && ValidContext(ctx)
    ensures Detect(s, ctx).Some? <==> HostUnder(ctx, s.suffixes) || AddressIn(ctx, s.ranges)
    ensures Detect(s, ctx).Some? ==> ServesOnly(Detect(s, ctx).value, s.addr)
  {
    HostMatchesExactly(ctx, s.suffixes);
    IpMatchesExactly(ctx, s.ranges);
    hide HostMatches, IpMatches, HostUnder, AddressIn, ValidContext;
  }

  ghost predicate ServesOnly(plan: Plan, addr: V6) {
    plan.resolve == [] && forall resolved, v4 :: plan.combine(resolved, v4) == [addr]
  }

  /** A borrowing one serves what its reference name has, whatever the fallback, and the
      fallback, if any, when that yields nothing. */
  lemma BorrowExactly(s: Synth, ctx: Context)
    requires s.MatchBorrow? && ValidContext(ctx)
    requires s.soaAdmin.Some? ==> Lower(s.soaAdmin.value) == s.soaAdmin.value != "" && s.soaAdmin.value[|s.soaAdmin.value| - 1] != '.'
    ensures Detect(s, ctx).Some? <==>
      (s.soaAdmin.Some? && AdminIs(ctx, s.soaAdmin.value)) || HostUnder(ctx, s.bsuffixes) || AddressIn(ctx, s.branges)
    ensures Detect(s, ctx).Some? ==>
      Borrows(Detect(s, ctx).value, s.reference, if s.fallback.Some? then [s.fallback.value] else [])
  {
    HostMatchesExactly(ctx, s.bsuffixes);
    IpMatchesExactly(ctx, s.branges);
    if s.soaAdmin.Some? {
      AdminExactly(ctx, s.soaAdmin.value);
    }
    hide HostMatches, IpMatches, HostUnder, AddressIn, ValidContext, AdminIs, SoaAdminIs;
  }

  // ---------------------------------------------------------------- rewriting ones

  /** The first host name a rewrite accepts: the CNAME targets in order, then the name. */
  ghost predicate FirstTaken(rewrite: Name -> Option<Name>, hosts: seq<Name>, k: nat) {
    k < |hosts| && rewrite(hosts[k]).Some? && forall j :: 0 <= j < k ==> rewrite(hosts[j]).None?
  }

  lemma {:induction false} FirstRewriteExactly(rewrite: Name -> Option<Name>, hosts: seq<Name>)
    ensures FirstRewrite(rewrite, hosts).None? <==> forall j :: 0 <= j < |hosts| ==> rewrite(hosts[j]).None?
    ensures forall k: nat :: FirstTaken(rewrite, hosts, k) ==> FirstRewrite(rewrite, hosts) == rewrite(hosts[k])
  {
    if |hosts| > 0 {
      FirstRewriteExactly(rewrite, hosts[1..]);
      assert forall j :: 1 <= j < |hosts| ==> hosts[j] == hosts[1..][j - 1];
      forall k: nat | FirstTaken(rewrite, hosts, k) ensures FirstRewrite(rewrite, hosts) == rewrite(hosts[k]) {
        if k > 0 {
          assert FirstTaken(rewrite, hosts[1..], k - 1);
        }
      }
    }
  }

  /** A rewriting synthesizer serves exactly what the first rewritten host name has. */
  lemma RewriterExactly(s: Synth, ctx: Context)
    requires s.MatchRewrite?
    ensures var f := (n: Name) => RewriteOf(s.kind, n); var hosts := ctx.cnameTargets + [ctx.name];
      && (Detect(s, ctx).None? <==> forall j :: 0 <= j < |hosts| ==> f(hosts[j]).None?)
      && (forall k: nat :: FirstTaken(f, hosts, k) ==> Detect(s, ctx).Some? && Borrows(Detect(s, ctx).value, f(hosts[k]).value, []))
  {
    FirstRewriteExactly((n: Name) => RewriteOf(s.kind, n), ctx.cnameTargets + [ctx.name]);
    hide RewriteOf, FirstRewrite;
  }

  // ---------------------------------------------------------------- Fastly

  const IN_FASTLY: V4 -> bool := (ip: V4) =>
    0x9765_0000 <= ip < 0x9766_0000 || 0xC7E8_0000 <= ip < 0xC7E9_0000 || 0x924B_0000 <= ip < 0x924B_8000
  const IN_GITHUB: V4 -> bool := (ip: V4) => 0xB9C7_6C00 <= ip < 0xB9C7_7000

  lemma BlockBounds(ip: V4, c: Range, size: nat)
    requires size == Pow2(32 - c.prefix) && c.net % size == 0
    ensures InBlockOf(ip, c) <==> c.net <= ip < c.net + size
  {
  }

  lemma FastlyPowers()
    ensures Pow2(16) == 0x1_0000 && Pow2(15) == 0x8000 && Pow2(10) == 0x400
  {
    SmallPowers();
    assert Pow2(15) == 0x8000 && Pow2(10) == 0x400;
  }

  lemma FastlyBounds(ip: V4)
    ensures IN_FASTLY(ip) == InAny(ip, FASTLY_RANGES)
  {
    FastlyPowers();
    AnyIsBlock(ip, FASTLY_RANGES);
    hide Pow2, InAny, InBlockOf;
    BlockBounds(ip, FASTLY_RANGES[0], 0x1_0000);
    BlockBounds(ip, FASTLY_RANGES[1], 0x1_0000);
    BlockBounds(ip, FASTLY_RANGES[2], 0x8000);
  }

  lemma GithubBounds(ip: V4)
    ensures IN_GITHUB(ip) == InAny(ip, [GITHUB_PAGES_RANGE])
  {
    FastlyPowers();
    AnyIsBlock(ip, [GITHUB_PAGES_RANGE]);
    hide Pow2, InAny, InBlockOf;
    BlockBounds(ip, [GITHUB_PAGES_RANGE][0], 0x400);
  }

  /** The first address that `p` accepts. */
  ghost predicate FirstOf(v4: seq<V4>, p: V4 -> bool, at: nat) {
    at < |v4| && p(v4[at]) && forall j :: 0 <= j < at ==> !p(v4[j])
  }

  lemma {:induction false} FirstInBy(v4: seq<V4>, cs: seq<Range>, p: V4 -> bool)
    requires forall ip: V4 :: p(ip) == InAny(ip, cs)
    ensures FirstIn(v4, cs).None? <==> forall j :: 0 <= j < |v4| ==> !p(v4[j])
    ensures forall at: nat :: FirstOf(v4, p, at) ==> FirstIn(v4, cs) == Some(v4[at])
  {
    hide InAny;
    if |v4| > 0 {
      FirstInBy(v4[1..], cs, p);
      assert forall j :: 1 <= j < |v4| ==> v4[j] == v4[1..][j - 1];
      forall at: nat | FirstOf(v4, p, at) ensures FirstIn(v4, cs) == Some(v4[at]) {
        if at > 0 {
          assert FirstOf(v4[1..], p, at - 1);
        }
      }
    }
  }

  /** A plan that borrows a reference's prefixes and spells a number in their last segment. */
  ghost predicate Fuses(plan: Plan, reference: Name, n: nat) {
    plan.resolve == [reference] && forall resolved, v4 :: Spelt(plan.combine(resolved, v4), resolved, n)
  }

  ghost predicate Spelt(out: seq<V6>, prefixes: seq<V6>, n: nat) {
    |out| == |prefixes| && forall k :: 0 <= k < |out| ==> out[k] == prefixes[k] / 0x1_0000 * 0x1_0000 + Spelled(n)
  }

  lemma {:induction false} FusedSpelt(prefixes: seq<V6>, ip: V4, github: bool)
    ensures Spelt(Fused(prefixes, FastlyHostId(ip, github)), prefixes, if github then ip % 256 else ip % 1024)
  {
    hide Spelled, FastlyFuse, FastlyHostId;
    if |prefixes| > 0 {
      FusedDigits(prefixes[0], ip, github);
      FusedSpelt(prefixes[1..], ip, github);
    }
  }

  lemma FusePlanFuses(reference: Name, ip: V4, github: bool)
    ensures Fuses(FusePlan(reference, FastlyHostId(ip, github)), reference, if github then ip % 256 else ip % 1024)
  {
    hide Spelt, Fused, FastlyHostId;
    forall resolved, v4 ensures Spelt(FusePlan(reference, FastlyHostId(ip, github)).combine(resolved, v4), resolved, if github then ip % 256 else ip % 1024) {
      FusedSpelt(resolved, ip, github);
    }
  }

  const FASTLY_REF: Name := ["dualstack", "g", "shared", "global", "fastly", "net"]
  const GITHUB_REF: Name := ["dualstack", "github", "io"]

  /** Whether the reference prefix is borrowed, and for which address. */
  ghost predicate Chosen(ctx: Context, v4: seq<V4>, at: nat) {
    || FirstOf(v4, IN_FASTLY, at)
    || (at == 0 < |v4| && AdminIs(ctx, "hostmaster.fastly.com") && forall j :: 0 <= j < |v4| ==> !IN_FASTLY(v4[j]))
  }

  lemma FastlyMailbox()
    ensures var a := "hostmaster.fastly.com"; Lower(a) == a && a[|a| - 1] != '.'
  {
    var a := "hostmaster.fastly.com";
    assert forall k :: 0 <= k < |a| ==> LowerChar(a[k]) == a[k];
  }

  /** Fastly by address or mailbox: the first address in its ranges, or else the first of all,
      spelled behind the reference's prefixes. */
  lemma FastlyByAddress(ctx: Context, at: nat)
    requires ValidContext(ctx) && Chosen(ctx, ctx.AAddrs(), at)
    ensures DetectFastly(ctx).Some? && Fuses(DetectFastly(ctx).value, FASTLY_REF, ctx.AAddrs()[at] % 1024)
  {
    var v4 := ctx.AAddrs();
    FastlyMailbox();
    AdminExactly(ctx, "hostmaster.fastly.com");
    FastlySignals(v4);
    FusePlanFuses(FASTLY_REF, v4[at], false);
    hide AdminIs, SoaAdminIs, InAny, FastlyHostId, FusePlan, FastlyHost, FirstRewrite, Fuses, ValidContext, IN_FASTLY, FirstIn;
  }

  /** GitHub's by address, if neither applies. */
  lemma GithubByAddress(ctx: Context, at: nat)
    requires ValidContext(ctx) && FirstOf(ctx.AAddrs(), IN_GITHUB, at) && forall k: nat :: !Chosen(ctx, ctx.AAddrs(), k)
    ensures DetectFastly(ctx).Some? && Fuses(DetectFastly(ctx).value, GITHUB_REF, ctx.AAddrs()[at] % 256)
  {
    var v4 := ctx.AAddrs();
    NoneChosen(ctx);
    FastlySignals(v4);
    FusePlanFuses(GITHUB_REF, v4[at], true);
    hide AdminIs, SoaAdminIs, InAny, FastlyHostId, FusePlan, FastlyHost, FirstRewrite, Fuses, ValidContext, IN_FASTLY, IN_GITHUB, FirstIn;
  }

  /** Without a chosen address there is none in the ranges, and no mailbox to go by. */
  lemma NoneChosen(ctx: Context)
    requires ValidContext(ctx) && forall k: nat :: !Chosen(ctx, ctx.AAddrs(), k)
    ensures FirstIn(ctx.AAddrs(), FASTLY_RANGES).None? && (!SoaAdminIs(ctx, "hostmaster.fastly.com") || ctx.AAddrs() == [])
  {
    var v4 := ctx.AAddrs();
    FastlyMailbox();
    AdminExactly(ctx, "hostmaster.fastly.com");
    FastlySignals(v4);
    Leastmost(v4, IN_FASTLY);
    hide AdminIs, SoaAdminIs, ValidContext, IN_FASTLY, IN_GITHUB, FirstIn;
    assert forall at: nat :: FirstOf(v4, IN_FASTLY, at) ==> Chosen(ctx, v4, at);
    assert !Chosen(ctx, v4, 0);
  }

  lemma FastlySignals(v4: seq<V4>)
    ensures FirstIn(v4, FASTLY_RANGES).None? <==> forall j :: 0 <= j < |v4| ==> !IN_FASTLY(v4[j])
    ensures forall at: nat :: FirstOf(v4, IN_FASTLY, at) ==> FirstIn(v4, FASTLY_RANGES) == Some(v4[at])
    ensures FirstIn(v4, [GITHUB_PAGES_RANGE]).None? <==> forall j :: 0 <= j < |v4| ==> !IN_GITHUB(v4[j])
    ensures forall at: nat :: FirstOf(v4, IN_GITHUB, at) ==> FirstIn(v4, [GITHUB_PAGES_RANGE]) == Some(v4[at])
  {
    hide InAny, IN_FASTLY, IN_GITHUB;
    forall ip: V4 ensures IN_FASTLY(ip) == InAny(ip, FASTLY_RANGES) && IN_GITHUB(ip) == InAny(ip, [GITHUB_PAGES_RANGE]) {
      FastlyBounds(ip);
      GithubBounds(ip);
    }
    FirstInBy(v4, FASTLY_RANGES, IN_FASTLY);
    FirstInBy(v4, [GITHUB_PAGES_RANGE], IN_GITHUB);
  }

  /** Fastly by name, when no address or mailbox decides: `dualstack.` in front of the first
      host name under one of its two zones. */
  lemma FastlyByName(ctx: Context, k: nat)
    requires ValidContext(ctx)
    requires forall at: nat :: !Chosen(ctx, ctx.AAddrs(), at) && !FirstOf(ctx.AAddrs(), IN_GITHUB, at)
    ensures FirstFastly(ctx.Hostnames(), k) ==>
      DetectFastly(ctx).Some? && Borrows(DetectFastly(ctx).value, ["dualstack"] + LowerAll(ctx.Hostnames()[k]), [])
    ensures (forall j :: 0 <= j < |ctx.Hostnames()| ==> !FastlyName(ctx.Hostnames()[j])) ==> DetectFastly(ctx).None?
  {
    NamedOnly(ctx);
    forall h | h in ctx.Hostnames() ensures ValidName(h) {
      ValidHost(ctx, h);
    }
    hide DetectFastly, FastlyName, FirstRewrite, ValidContext, LowerAll, Chosen, FirstOf, FirstFastly;
    FirstFastlyHost(ctx.Hostnames(), k);
  }

  lemma NamedOnly(ctx: Context)
    requires ValidContext(ctx)
    requires forall at: nat :: !Chosen(ctx, ctx.AAddrs(), at) && !FirstOf(ctx.AAddrs(), IN_GITHUB, at)
    ensures DetectFastly(ctx) == VerbatimOf(FirstRewrite(FastlyHost, ctx.Hostnames()))
  {
    var v4 := ctx.AAddrs();
    NoneChosen(ctx);
    FastlySignals(v4);
    Leastmost(v4, IN_GITHUB);
    hide FirstIn, IN_FASTLY, IN_GITHUB, FastlyHost, FirstRewrite, FusePlan, FastlyHostId, SoaAdminIs, ValidContext, VerbatimOf, Chosen, FirstOf;
  }

  lemma FirstFastlyHost(hosts: seq<Name>, k: nat)
    requires forall h :: h in hosts ==> ValidName(h)
    ensures FirstFastly(hosts, k) ==> FirstRewrite(FastlyHost, hosts) == Some(["dualstack"] + LowerAll(hosts[k]))
    ensures (forall j :: 0 <= j < |hosts| ==> !FastlyName(hosts[j])) ==> FirstRewrite(FastlyHost, hosts).None?
  {
    forall h | h in hosts ensures FastlyHost(h) == if FastlyName(h) then Some(["dualstack"] + LowerAll(h)) else None {
      FastlyHostExactly(h);
    }
    FirstRewriteExactly(FastlyHost, hosts);
    hide FastlyHost, FastlyName, FirstRewrite, LowerAll;
    if FirstFastly(hosts, k) {
      assert hosts[k] in hosts && FirstTaken(FastlyHost, hosts, k);
    }
  }

  lemma ValidHost(ctx: Context, h: Name)
    requires ValidContext(ctx) && h in ctx.Hostnames()
    ensures ValidName(h)
  {
  }

  ghost predicate FastlyName(h: Name) { Ends(LowerAll(h), ["fastly", "net"]) || Ends(LowerAll(h), ["fastlylb", "net"]) }

  ghost predicate FirstFastly(hosts: seq<Name>, k: nat) {
    k < |hosts| && FastlyName(hosts[k]) && forall j :: 0 <= j < k ==> !FastlyName(hosts[j])
  }

  lemma FastlyHostExactly(h: Name)
    requires ValidName(h)
    ensures FastlyHost(h) == if FastlyName(h) then Some(["dualstack"] + LowerAll(h)) else None
  {
    EndsExactly(h, ["fastly", "net"]);
    EndsExactly(h, ["fastlylb", "net"]);
    LabelsAreLowered(h);
    LoweredValid(h);
    DualValid(LowerAll(h));
    hide Labels, LowerAll, EndsWith, Ends;
    RejoinedLabels(["dualstack"] + LowerAll(h));
  }

  lemma DualValid(l: Labelled)
    requires ValidName(l) && FreeOf(l, '.')
    ensures var d := ["dualstack"] + l; FreeOf(d, '.') && d != [""] && forall p :: p in d ==> p != ""
  {
    assert Without("dualstack", '.');
    assert (["dualstack"] + l)[0][0] == 'd';
  }

  /** Where some address is accepted, there is a first. */
  lemma {:induction false} Leastmost(v4: seq<V4>, p: V4 -> bool)
    ensures (exists j :: 0 <= j < |v4| && p(v4[j])) ==> exists at: nat :: FirstOf(v4, p, at)
  {
    if |v4| > 0 {
      var front := v4[..|v4| - 1];
      Leastmost(front, p);
      if at: nat :| FirstOf(front, p, at) {
        assert FirstOf(v4, p, at);
      } else if p(v4[|v4| - 1]) {
        assert forall j :: 0 <= j < |front| ==> v4[j] == front[j];
        assert FirstOf(v4, p, |v4| - 1);
      }
    }
  }

  // ---------------------------------------------------------------- Edge

  /** The label is that word, or that word and a hyphen lead it. */
  ghost predicate Leads(piece: string, word: string) {
    '-' !in word && (piece == word || word + "-" <= piece)
  }

  lemma LeadingWord(piece: string, word: string)
    ensures Split(piece, '-')[0] == word <==> Leads(piece, word)
  {
    HeadOfSplit(piece);
    hide Split, Leads;
    if Leads(piece, word) {
      OneLead(piece, word, Split(piece, '-')[0]);
    }
  }

  lemma {:induction false} OneLead(piece: string, v: string, w: string)
    requires Leads(piece, v) && Leads(piece, w)
    ensures v == w
    decreases |piece|
  {
    assert v == "" ==> piece == "" || piece[0] == '-';
    assert w == "" ==> piece == "" || piece[0] == '-';
    assert v != "" ==> piece != "" && piece[0] == v[0] != '-';
    assert w != "" ==> piece != "" && piece[0] == w[0] != '-';
    if v != "" && w != "" {
      TailLeads(piece, v);
      TailLeads(piece, w);
      OneLead(piece[1..], v[1..], w[1..]);
      assert v == [v[0]] + v[1..] && w == [w[0]] + w[1..];
    }
  }

  lemma TailLeads(piece: string, v: string)
    requires Leads(piece, v) && v != ""
    ensures piece != "" && Leads(piece[1..], v[1..])
  {
    if v + "-" <= piece {
      assert (v + "-")[1..] == v[1..] + "-";
    }
  }

  lemma {:induction false} HeadOfSplit(piece: string)
    ensures Leads(piece, Split(piece, '-')[0])
  {
    if piece != "" && piece[0] != '-' {
      HeadOfSplit(piece[1..]);
      var w := Split(piece[1..], '-')[0];
      assert Split(piece, '-')[0] == [piece[0]] + w;
      hide Split;
      if piece[1..] == w {
        assert piece == [piece[0]] + w;
      } else {
        assert piece == [piece[0]] + piece[1..];
        assert ([piece[0]] + w) + "-" == [piece[0]] + (w + "-");
      }
    } else if piece != "" {
      assert Split(piece, '-')[0] == "" && "" + "-" == "-" && piece[..1] == "-";
    }
  }

  /** The deepest host name: the last CNAME target, or the name itself without one. */
  ghost function Deepest(ctx: Context): Name {
    if |ctx.cnameTargets| > 0 then ctx.cnameTargets[|ctx.cnameTargets| - 1] else ctx.name
  }

  ghost predicate EdgeZone(ctx: Context) {
    ctx.authority.soaZone.Some? && exists a, b :: Lower(ToAscii(ctx.authority.soaZone.value)) == a + "msedge.net" + b
  }

  lemma TextHeld(s: string, sub: string)
    ensures HasText(s, sub) <==> exists a, b :: s == a + sub + b
  {
    if i :| 0 <= i <= |s| && sub <= s[i..] {
      assert s == s[..i] + sub + s[i + |sub|..];
    }
    if a, b :| s == a + sub + b {
      assert s[|a|..] == sub + b && sub <= s[|a|..];
    }
  }

  /** A plan that spells each A address's last octet behind a prefix, 9 as 8 if it is odd. */
  ghost predicate SpellsLast(plan: Plan, prefix: V6, odd: bool) {
    plan.resolve == [] && forall resolved, v4 :: LastSpelt(plan.combine(resolved, v4), prefix, odd, v4)
  }

  ghost predicate LastSpelt(out: seq<V6>, prefix: V6, odd: bool, v4: seq<V4>) {
    |out| == |v4| && forall k :: 0 <= k < |out| ==> out[k] == prefix / 0x1_0000 * 0x1_0000 + Spelled(if odd && v4[k] % 256 == 9 then 8 else v4[k] % 256)
  }

  /** Edge names: under an SOA zone with `msedge.net` in it, by the first word of the deepest
      host name's first label. */
  lemma EdgeExactly(ctx: Context, word: string)
    requires ValidName(Deepest(ctx))
    ensures !EdgeZone(ctx) || Deepest(ctx) == [] ==> DetectMsedge(ctx).None?
    ensures EdgeZone(ctx) && Deepest(ctx) != [] && Leads(LowerAll(Deepest(ctx))[0], word) ==>
      match MsedgePrefix(word)
      case None => DetectMsedge(ctx).None?
      case Some((prefix, odd)) => DetectMsedge(ctx).Some? && SpellsLast(DetectMsedge(ctx).value, prefix, odd)
  {
    if ctx.authority.soaZone.Some? {
      TextHeld(Lower(ToAscii(ctx.authority.soaZone.value)), "msedge.net");
    }
    LabelsAreLowered(Deepest(ctx));
    hide Labels, LowerAll, Lower, ToAscii, HasText, SpellsLast, EdgePlan, MsedgePrefix, Split, Leads;
    if Deepest(ctx) != [] {
      LeadingWord(LowerAll(Deepest(ctx))[0], word);
      if MsedgePrefix(word).Some? {
        var (prefix, odd) := MsedgePrefix(word).value;
        EdgesSpelt(prefix, odd);
      }
    }
  }

  lemma EdgesSpelt(prefix: V6, odd: bool)
    ensures SpellsLast(EdgePlan(prefix, odd), prefix, odd)
  {
    hide MsedgeAddress, Spelled;
    forall ip: V4 ensures MsedgeAddress(prefix, odd, ip) == prefix / 0x1_0000 * 0x1_0000 + Spelled(if odd && ip % 256 == 9 then 8 else ip % 256) {
      EdgeDigits(prefix, odd, ip);
    }
  }

  // ---------------------------------------------------------------- CacheFly

  ghost predicate TwoSpelt(out: seq<V6>, v4: seq<V4>) {
    var hits := Filter(IN_CACHEFLY, v4);
    |out| == |hits| && forall k :: 0 <= k < |out| ==> out[k] == 0x2605_4c40_0000_0000_0000_0000_0000_0000 + Spelled(hits[k] / 256 % 256) * 0x1_0000 + Spelled(hits[k] % 256)
  }

  ghost predicate SpellsTwo(plan: Plan) {
    plan.resolve == [] && forall resolved, v4 :: TwoSpelt(plan.combine(resolved, v4), v4)
  }

  /** CacheFly by name: what the first rewritten host name has; by address: the last two
      octets of the addresses in its range, spelled. */
  lemma CacheFlyExactly(ctx: Context, k: nat)
    ensures var hosts := ctx.cnameTargets + [ctx.name]; var plan := Detect(CacheFly, ctx);
      && (FirstTaken(Cachefly, hosts, k) ==> plan.Some? && Borrows(plan.value, Cachefly(hosts[k]).value, []))
      && ((forall j :: 0 <= j < |hosts| ==> Cachefly(hosts[j]).None?) ==>
        && (plan.Some? <==> exists i :: 0 <= i < |ctx.aRecords| && IN_CACHEFLY(ctx.aRecords[i].0))
        && (plan.Some? ==> SpellsTwo(plan.value)))
  {
    FirstRewriteExactly(Cachefly, ctx.cnameTargets + [ctx.name]);
    hide Cachefly, FirstRewrite, IN_CACHEFLY, SpellsTwo, CacheFlyPlan, InAny, InBlockOf;
    forall ip: V4 ensures IN_CACHEFLY(ip) == InAny(ip, [CACHEFLY_RANGE]) {
      RangeBounds(ip);
      AnyIsBlock(ip, [CACHEFLY_RANGE]);
      assert [CACHEFLY_RANGE][0] == CACHEFLY_RANGE;
    }
    CacheFlySpelt();
  }

  lemma CacheFlySpelt()
    ensures SpellsTwo(CacheFlyPlan())
  {
    hide CacheFlyAddress, Spelled, Within, IN_CACHEFLY, InBlockOf, Filter;
    forall ip: V4 ensures Within(CACHEFLY_RANGE, ip) == IN_CACHEFLY(ip) {
      WithinIsBlock(ip, CACHEFLY_RANGE);
      RangeBounds(ip);
    }
    forall v4: seq<V4> ensures Filter((ip: V4) => Within(CACHEFLY_RANGE, ip), v4) == Filter(IN_CACHEFLY, v4) {
      FilterSame((ip: V4) => Within(CACHEFLY_RANGE, ip), IN_CACHEFLY, v4);
    }
    forall ip: V4 ensures CacheFlyAddress(ip) == 0x2605_4c40_0000_0000_0000_0000_0000_0000 + Spelled(ip / 256 % 256) * 0x1_0000 + Spelled(ip % 256) {
      CacheFlyDigits(ip);
    }
  }

  // ---------------------------------------------------------------- NAT64

  /** The translator takes every A address under `ipv4only.arpa`, in any letter case, and
      elsewhere exactly those outside the non-global networks, in order. */
  lemma EligibleExactly(name: Name, v4: seq<V4>)
    requires ValidName(name)
    ensures LowerAll(name) == ["ipv4only", "arpa"] ==> Eligible(name, v4) == v4
    ensures LowerAll(name) != ["ipv4only", "arpa"] ==> Eligible(name, v4) == Filter((ip: V4) => !InAny(ip, NON_GLOBAL), v4)
  {
    DiscoveryName(name);
    hide IsIpv4OnlyArpa, LowerAll, InAny, IsGloballyRoutable, Filter;
    forall ip ensures IsGloballyRoutable(ip) <==> !InAny(ip, NON_GLOBAL) {
      RoutableIsComplement(ip);
    }
    FilterSame((ip: V4) => IsGloballyRoutable(ip), (ip: V4) => !InAny(ip, NON_GLOBAL), v4);
  }

  lemma DiscoveryName(name: Name)
    requires ValidName(name)
    ensures IsIpv4OnlyArpa(name) <==> LowerAll(name) == ["ipv4only", "arpa"]
  {
    LowerJoin(name, '.');
    LowerDotted(Join(name, '.'));
    LoweredValid(name);
    var l := LowerAll(name);
    DiscoveryText();
    hide LowerAll, Lower, Split;
    if IsIpv4OnlyArpa(name) {
      var j := Join(l, '.');
      assert j == (j + ".")[..|j|] && j + "." == "ipv4only.arpa" + "." && j == "ipv4only.arpa";
      if l != [] {
        SplitJoin(l, '.');
        SplitJoin(["ipv4only", "arpa"], '.');
      }
    }
  }

  lemma DiscoveryText()
    ensures Join(["ipv4only", "arpa"], '.') == "ipv4only.arpa" && FreeOf(["ipv4only", "arpa"], '.')
    ensures "ipv4only.arpa." == "ipv4only.arpa" + "."
  {
    assert Without("ipv4only", '.') && Without("arpa", '.');
    assert ["ipv4only", "arpa"][1..] == ["arpa"];
  }
}
