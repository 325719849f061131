/** Address arithmetic: CIDR tests and the client allowlist as intervals, the non-global
    IPv4 networks, and NAT64 embedding. */
module Addresses {
  import opened Text
  import opened Dns
  import opened Bits

  lemma WordSizes()
    ensures Pow2(32) == 0x1_0000_0000
    ensures Pow2(128) == 0x1_0000_0000_0000_0000_0000_0000_0000_0000
  {
    assert Pow2(4) == 16;
    Doubled(4, 16);
    Doubled(8, 0x100);
    Doubled(16, 0x1_0000);
    Doubled(32, 0x1_0000_0000);
    Doubled(64, 0x1_0000_0000_0000_0000);
  }

  lemma Doubled(n: nat, v: nat)
    requires Pow2(n) == v
    ensures Pow2(2 * n) == v * v
  {
    Pow2Sum(n, n);
  }

  // ---------------------------------------------------------------- IPv4 networks

  datatype Cidr4 = Cidr4(net: V4, prefix: nat)

  predicate InCidr(ip: V4, c: Cidr4)
    requires c.prefix <= 32
  {
    c.prefix == 0 || And(ip, Mask(32, 32 - c.prefix)) == And(c.net, Mask(32, 32 - c.prefix))
  }

  predicate InAny(ip: V4, cs: seq<Cidr4>)
    requires forall k :: 0 <= k < |cs| ==> cs[k].prefix <= 32
  {
    exists k :: 0 <= k < |cs| && InCidr(ip, cs[k])
  }

  /** The mask test is membership in the aligned interval of 2^(32 - prefix) addresses
      around the network address. */
  lemma CidrIsInterval(ip: V4, c: Cidr4)
    requires c.prefix <= 32
    ensures var size := Pow2(32 - c.prefix); var base := c.net - c.net % size;
      && base % size == 0 && 0 <= base && base + size <= 0x1_0000_0000
      && (InCidr(ip, c) <==> base <= ip < base + size)
  {
    WordSizes();
    BlockFits(c.net, 32, 32 - c.prefix);
    MaskIsInterval(ip, c.net, 32, 32 - c.prefix);
  }

  // ---------------------------------------------------------------- client networks

  /** A client network; `base` has its host bits masked off. */
  datatype Net6 = Net6(base: V6, prefix: nat)

  predicate Contains(n: Net6, addr: V6)
    requires n.prefix <= 128
  {
    And(addr, Mask(128, 128 - n.prefix)) == n.base
  }

  datatype Client = Client6(addr: V6) | Client4(addr4: V4)

  /** A configured entry after text splitting: its prefix part and its address part. */
  datatype Entry = Entry(prefix: PrefixText, addr: AddrText)
  datatype PrefixText = NoPrefix | BadPrefix | Length(n: nat)
  datatype AddrText = Ipv6Text(addr: V6) | Ipv4Text | OtherText

  datatype AclError = InvalidPrefix | PrefixTooLong | Ipv4Entry | NotIpv6

  function ParseNet6(e: Entry): Either<Net6, AclError> {
    if e.prefix.BadPrefix? then Right(InvalidPrefix)
    else
      var prefix := if e.prefix.NoPrefix? then 128 else e.prefix.n;
      if prefix > 128 then Right(PrefixTooLong)
      else match e.addr
        case Ipv4Text => Right(Ipv4Entry)
        case OtherText => Right(NotIpv6)
        case Ipv6Text(a) =>
          WordSizes();
          AndMask(a, 128, 128 - prefix);
          Left(Net6(And(a, Mask(128, 128 - prefix)), prefix))
  }

  /** Which entries parse, and what is wrong with the others: the prefix is judged before the
      address. */
  lemma EntryErrors(e: Entry)
    ensures ParseNet6(e).Left? <==> e.addr.Ipv6Text? && !e.prefix.BadPrefix? && !LongPrefix(e)
    ensures ParseNet6(e) == Right(InvalidPrefix) <==> e.prefix.BadPrefix?
    ensures ParseNet6(e) == Right(PrefixTooLong) <==> LongPrefix(e)
    ensures ParseNet6(e) == Right(Ipv4Entry) <==> e.addr.Ipv4Text? && !e.prefix.BadPrefix? && !LongPrefix(e)
  {
  }

  predicate LongPrefix(e: Entry) { e.prefix.Length? && e.prefix.n > 128 }

  datatype Either<+L, +R> = Left(l: L) | Right(r: R)

  ghost predicate WellFormed(nets: seq<Net6>) {
    forall k :: 0 <= k < |nets| ==> nets[k].prefix <= 128
  }

  /** Entry `k` is the first that does not parse, and `e` says why. */
  ghost predicate FirstError(entries: seq<Entry>, k: nat, e: AclError) {
    && k < |entries| && ParseNet6(entries[k]) == Right(e)
    && forall j :: 0 <= j < k ==> ParseNet6(entries[j]).Left?
  }

  method ParseAcl(entries: seq<Entry>) returns (r: Either<seq<Net6>, AclError>)
    ensures r.Left? <==> forall k :: 0 <= k < |entries| ==> ParseNet6(entries[k]).Left?
    ensures r.Left? ==> |r.l| == |entries| && WellFormed(r.l)
    ensures r.Left? ==> forall k :: 0 <= k < |entries| ==> r.l[k] == ParseNet6(entries[k]).l
    ensures r.Right? ==> exists k :: FirstError(entries, k, r.r)
  {
    var nets: seq<Net6> := [];
    for i := 0 to |entries|
      invariant |nets| == i && WellFormed(nets)
      invariant forall k :: 0 <= k < i ==> ParseNet6(entries[k]).Left? && nets[k] == ParseNet6(entries[k]).l
    {
      match ParseNet6(entries[i]) {
        case Left(n) => nets := nets + [n];
        case Right(e) =>
          assert FirstError(entries, i, e);
          return Right(e);
      }
    }
    return Left(nets);
  }

  predicate Allows(nets: seq<Net6>, client: Client)
    requires WellFormed(nets)
  {
    if nets == [] then true
    else match client
      case Client6(a) => exists k :: 0 <= k < |nets| && Contains(nets[k], a)
      case Client4(_) => false
  }

  /** The aligned interval an entry configures; a bare address is one address wide and a
      /0 is the whole space. */
  ghost predicate Covers(e: Entry, a: V6)
    requires ParseNet6(e).Left?
  {
    var prefix := if e.prefix.NoPrefix? then 128 else e.prefix.n;
    var size := Pow2(128 - prefix);
    var base := e.addr.addr - e.addr.addr % size;
    base <= a < base + size
  }

  lemma EntryIsInterval(e: Entry, a: V6)
    requires ParseNet6(e).Left?
    ensures Contains(ParseNet6(e).l, a) <==> Covers(e, a)
    ensures e.prefix.NoPrefix? ==> (Covers(e, a) <==> a == e.addr.addr)
    ensures e.prefix == Length(0) ==> Covers(e, a)
  {
    WordSizes();
    var prefix := if e.prefix.NoPrefix? then 128 else e.prefix.n;
    MaskIsInterval(a, e.addr.addr, 128, 128 - prefix);
    BlockFits(e.addr.addr, 128, 128 - prefix);
    assert Pow2(0) == 1;
    hide Pow2, And, Mask;
    if prefix == 0 {
      Remainder(e.addr.addr, Pow2(128), 0, e.addr.addr);
    }
  }

  /** A parsed allowlist admits an IPv6 client exactly when it lies in one of the
      configured intervals, or when there are none; an IPv4 client only when there are
      none. */
  lemma AllowsIsUnion(entries: seq<Entry>, nets: seq<Net6>, a: V6)
    requires |nets| == |entries| && forall k :: 0 <= k < |entries| ==> ParseNet6(entries[k]) == Left(nets[k])
    ensures WellFormed(nets)
    ensures Allows(nets, Client6(a)) <==> entries == [] || exists k :: 0 <= k < |entries| && Covers(entries[k], a)
    ensures forall ip :: Allows(nets, Client4(ip)) <==> entries == []
  {
    assert forall k :: 0 <= k < |entries| ==> ParseNet6(entries[k]).Left?;
    hide Contains, Covers, ParseNet6;
    forall k | 0 <= k < |entries| ensures nets[k].prefix <= 128 {
      ParsedPrefix(entries[k]);
    }
    forall k | 0 <= k < |entries| ensures Contains(nets[k], a) <==> Covers(entries[k], a) {
      EntryIsInterval(entries[k], a);
    }
  }

  lemma ParsedPrefix(e: Entry)
    requires ParseNet6(e).Left?
    ensures ParseNet6(e).l.prefix <= 128
  {
  }

  // ---------------------------------------------------------------- routable IPv4

  function Octet(ip: V4, i: nat): nat
    requires i < 4
  {
    if i == 0 then ip / 0x100_0000 else if i == 1 then ip / 0x1_0000 % 0x100
    else if i == 2 then ip / 0x100 % 0x100 else ip % 0x100
  }

  predicate IsGloballyRoutable(ip: V4) {
    var o0, o1, o2 := Octet(ip, 0), Octet(ip, 1), Octet(ip, 2);
    !( || o0 == 0
       || o0 == 10 || (o0 == 172 && 16 <= o1 <= 31) || (o0 == 192 && o1 == 168)
       || (o0 == 100 && And(o1, 0xC0) == 64)
       || o0 == 127
       || (o0 == 169 && o1 == 254)
       || (o0 == 192 && o1 == 0 && o2 == 0)
       || (o0 == 192 && o1 == 0 && o2 == 2) || (o0 == 198 && o1 == 51 && o2 == 100) || (o0 == 203 && o1 == 0 && o2 == 113)
       || (o0 == 198 && And(o1, 0xFE) == 18)
       || (224 <= o0 <= 239)
       || o0 >= 240)
  }

  /** The listed non-global networks. */
  const NON_GLOBAL: seq<Cidr4> := [
    Cidr4(0x0000_0000, 8), Cidr4(0x0A00_0000, 8), Cidr4(0xAC10_0000, 12), Cidr4(0xC0A8_0000, 16),
    Cidr4(0x6440_0000, 10), Cidr4(0x7F00_0000, 8), Cidr4(0xA9FE_0000, 16), Cidr4(0xC000_0000, 24),
    Cidr4(0xC000_0200, 24), Cidr4(0xC633_6400, 24), Cidr4(0xCB00_7100, 24), Cidr4(0xC612_0000, 15),
    Cidr4(0xE000_0000, 4), Cidr4(0xF000_0000, 4)]

  lemma SmallMasks(o: nat)
    requires o < 256
    ensures And(o, 0xC0) == o - o % 64 && And(o, 0xFE) == o - o % 2
  {
    assert Mask(8, 6) == 0xC0 && Mask(8, 1) == 0xFE && Pow2(8) == 256 && Pow2(6) == 64 && Pow2(1) == 2;
    AndMask(o, 8, 6);
    AndMask(o, 8, 1);
  }

  /** Membership in a network whose address is aligned, as bounds. */
  lemma InBlock(ip: V4, c: Cidr4, size: nat)
    requires c.prefix <= 32 && size == Pow2(32 - c.prefix) && c.net % size == 0
    ensures InCidr(ip, c) <==> c.net <= ip < c.net + size
  {
    CidrIsInterval(ip, c);
  }

  /** The listed networks as plain bounds. */
  predicate Listed(ip: V4) {
    || ip < 0x0100_0000
    || 0x0A00_0000 <= ip < 0x0B00_0000
    || 0xAC10_0000 <= ip < 0xAC20_0000
    || 0xC0A8_0000 <= ip < 0xC0A9_0000
    || 0x6440_0000 <= ip < 0x6480_0000
    || 0x7F00_0000 <= ip < 0x8000_0000
    || 0xA9FE_0000 <= ip < 0xA9FF_0000
    || 0xC000_0000 <= ip < 0xC000_0100
    || 0xC000_0200 <= ip < 0xC000_0300
    || 0xC633_6400 <= ip < 0xC633_6500
    || 0xCB00_7100 <= ip < 0xCB00_7200
    || 0xC612_0000 <= ip < 0xC614_0000
    || 0xE000_0000 <= ip
  }

  lemma RoutableBounds(ip: V4)
    ensures IsGloballyRoutable(ip) <==> !Listed(ip)
  {
    var o0, o1, o2, o3 := Octet(ip, 0), Octet(ip, 1), Octet(ip, 2), Octet(ip, 3);
    OctetsSpell(ip);
    SmallMaskTests(o1);
    hide Octet, And;
    OctetBounds(ip, o0, o1, o2, o3);
  }

  lemma SmallMaskTests(o: nat)
    requires o < 256
    ensures And(o, 0xC0) == 64 <==> 64 <= o < 128
    ensures And(o, 0xFE) == 18 <==> 18 <= o < 20
  {
    SmallMasks(o);
    hide And;
  }

  lemma OctetBounds(ip: int, o0: nat, o1: nat, o2: nat, o3: nat)
    requires o0 < 256 && o1 < 256 && o2 < 256 && o3 < 256
    requires ip == o0 * 0x100_0000 + o1 * 0x1_0000 + o2 * 0x100 + o3
    ensures o0 == 0 <==> ip < 0x0100_0000
    ensures o0 == 10 <==> 0x0A00_0000 <= ip < 0x0B00_0000
    ensures (o0 == 172 && 16 <= o1 <= 31) <==> 0xAC10_0000 <= ip < 0xAC20_0000
    ensures (o0 == 192 && o1 == 168) <==> 0xC0A8_0000 <= ip < 0xC0A9_0000
    ensures (o0 == 100 && 64 <= o1 < 128) <==> 0x6440_0000 <= ip < 0x6480_0000
    ensures o0 == 127 <==> 0x7F00_0000 <= ip < 0x8000_0000
    ensures (o0 == 169 && o1 == 254) <==> 0xA9FE_0000 <= ip < 0xA9FF_0000
    ensures (o0 == 192 && o1 == 0 && o2 == 0) <==> 0xC000_0000 <= ip < 0xC000_0100
    ensures (o0 == 192 && o1 == 0 && o2 == 2) <==> 0xC000_0200 <= ip < 0xC000_0300
    ensures (o0 == 198 && o1 == 51 && o2 == 100) <==> 0xC633_6400 <= ip < 0xC633_6500
    ensures (o0 == 203 && o1 == 0 && o2 == 113) <==> 0xCB00_7100 <= ip < 0xCB00_7200
    ensures (o0 == 198 && 18 <= o1 < 20) <==> 0xC612_0000 <= ip < 0xC614_0000
    ensures (224 <= o0 <= 239 || o0 >= 240) <==> 0xE000_0000 <= ip
  {
  }

  lemma OctetsSpell(ip: V4)
    ensures ip == Octet(ip, 0) * 0x100_0000 + Octet(ip, 1) * 0x1_0000 + Octet(ip, 2) * 0x100 + Octet(ip, 3)
    ensures Octet(ip, 0) < 256 && Octet(ip, 1) < 256 && Octet(ip, 2) < 256 && Octet(ip, 3) < 256
  {
  }

  lemma ListedNetworks(ip: V4)
    ensures Listed(ip) <==> InAny(ip, NON_GLOBAL)
  {
    SmallPowers();
    hide Pow2, InCidr;
    InBlock(ip, NON_GLOBAL[0], 0x100_0000);
    InBlock(ip, NON_GLOBAL[1], 0x100_0000);
    InBlock(ip, NON_GLOBAL[2], 0x10_0000);
    InBlock(ip, NON_GLOBAL[3], 0x1_0000);
    InBlock(ip, NON_GLOBAL[4], 0x40_0000);
    InBlock(ip, NON_GLOBAL[5], 0x100_0000);
    InBlock(ip, NON_GLOBAL[6], 0x1_0000);
    InBlock(ip, NON_GLOBAL[7], 0x100);
    InBlock(ip, NON_GLOBAL[8], 0x100);
    InBlock(ip, NON_GLOBAL[9], 0x100);
    InBlock(ip, NON_GLOBAL[10], 0x100);
    InBlock(ip, NON_GLOBAL[11], 0x2_0000);
    InBlock(ip, NON_GLOBAL[12], 0x1000_0000);
    InBlock(ip, NON_GLOBAL[13], 0x1000_0000);
  }

  lemma SmallPowers()
    ensures Pow2(8) == 0x100 && Pow2(16) == 0x1_0000 && Pow2(17) == 0x2_0000 && Pow2(20) == 0x10_0000
    ensures Pow2(22) == 0x40_0000 && Pow2(24) == 0x100_0000 && Pow2(28) == 0x1000_0000
  {
    assert Pow2(4) == 16;
    Pow2Sum(4, 4);
    Pow2Sum(8, 8);
    Pow2Sum(8, 16);
    Pow2Sum(4, 24);
    Pow2Sum(4, 16);
  }

  /** The octet tests are exactly the complement of the listed networks. */
  lemma RoutableIsComplement(ip: V4)
    ensures IsGloballyRoutable(ip) <==> !InAny(ip, NON_GLOBAL)
  {
    RoutableBounds(ip);
    ListedNetworks(ip);
  }

  // ---------------------------------------------------------------- IPv6

  const LOW32: int := 0x1_0000_0000

  predicate IsGlobalUnicast(ip: V6) {
    var first := ip / 0x1_0000_0000_0000_0000_0000_0000_0000;
    && ip != 0 && ip != 1 && first / 256 != 0xFF
    && And(first, 0xFFC0) != 0xFE80 && And(first, 0xFE00) != 0xFC00
  }

  /** The segment tests are ranges: everything but the unspecified and loopback addresses,
      fc00::/7, fe80::/10 and ff00::/8. */
  lemma GlobalUnicastRanges(ip: V6)
    ensures var first := ip / 0x1_0000_0000_0000_0000_0000_0000_0000;
      IsGlobalUnicast(ip) <==>
        ip >= 2 && (first < 0xFC00 || 0xFE00 <= first < 0xFE80 || 0xFEC0 <= first < 0xFF00)
  {
    var first := ip / 0x1_0000_0000_0000_0000_0000_0000_0000;
    SegmentMasks(first);
    hide And;
  }

  lemma SegmentMasks(first: nat)
    requires first < 0x1_0000
    ensures And(first, 0xFFC0) == first - first % 64 && And(first, 0xFE00) == first - first % 512
  {
    assert Pow2(6) == 64;
    Pow2Sum(6, 3);
    assert Pow2(3) == 8;
    WordSizes();
    SmallPowers();
    AndMask(first, 16, 6);
    AndMask(first, 16, 9);
  }

  /** A prefix configuration accepts: 96 bits long, and itself global unicast. */
  predicate AcceptedPrefix(p: V6) {
    p % LOW32 == 0 && IsGlobalUnicast(p)
  }

  function Embed(prefix: V6, ip: V4): V6 {
    prefix - prefix % LOW32 + ip
  }

  /** An embedding keeps the high 96 bits, gives the address back as its low 32 bits, and
      is servable whenever its prefix is one configuration accepts. */
  lemma EmbedFacts(prefix: V6, ip: V4)
    ensures Embed(prefix, ip) / LOW32 == prefix / LOW32 && Embed(prefix, ip) % LOW32 == ip
    ensures AcceptedPrefix(prefix) ==> IsGlobalUnicast(Embed(prefix, ip))
  {
    hide And;
    if AcceptedPrefix(prefix) {
      assert prefix >= LOW32;
    }
  }

  /** The 16 octets of an address, most significant first. */
  function Octets(ip: nat, n: nat): (o: seq<nat>)
    ensures |o| == n
  {
    if n == 0 then [] else Octets(ip / 256, n - 1) + [ip % 256]
  }

  function FromOctets(o: seq<nat>): nat {
    if |o| == 0 then 0 else FromOctets(o[..|o| - 1]) * 256 + o[|o| - 1]
  }

  lemma {:induction false} OctetsRoundTrip(ip: nat, n: nat)
    requires ip < Pow2(8 * n)
    ensures FromOctets(Octets(ip, n)) == ip
  {
    if n > 0 {
      Pow2Sum(8, 8 * (n - 1));
      assert Pow2(8) == 256;
      OctetsRoundTrip(ip / 256, n - 1);
    }
  }

  /** The embedding, done as the octet copy it is. */
  method EmbedOctets(prefix: V6, ip: V4) returns (r: nat)
    ensures r == Embed(prefix, ip)
  {
    var octets := new nat[16];
    ghost var p := Octets(prefix, 16);
    forall i | 0 <= i < 16 {
      octets[i] := Octets(prefix, 16)[i];
    }
    var v4 := Octets(ip, 4);
    for k := 0 to 4
      invariant octets[..12 + k] == p[..12] + v4[..k]
    {
      octets[12 + k] := v4[k];
      assert octets[..12 + k + 1] == octets[..12 + k] + [v4[k]];
    }
    assert octets[..] == p[..12] + v4;
    r := FromOctets(octets[..]);
    EmbedIsCopy(prefix, ip);
  }

  lemma EmbedIsCopy(prefix: V6, ip: V4)
    ensures FromOctets(Octets(prefix, 16)[..12] + Octets(ip, 4)) == Embed(prefix, ip)
  {
    WordSizes();
    SmallPowers();
    OctetsPrefix(prefix, 12, 4);
    FourOctetsShift(prefix);
    assert Pow2(8 * 4) == LOW32;
    OctetsRoundTrip(ip, 4);
    FromOctetsAppend(Octets(prefix / LOW32, 12), Octets(ip, 4));
    HighPart(prefix);
    OctetsRoundTrip(prefix / LOW32, 12);
  }

  lemma HighPart(prefix: V6)
    ensures prefix / LOW32 < Pow2(8 * 12)
  {
    WordSizes();
    Pow2Sum(32, 96);
  }

  function ShiftOctets(ip: nat, m: nat): nat {
    if m == 0 then ip else ShiftOctets(ip / 256, m - 1)
  }

  /** The leading `k` octets are the octets of the shifted number. */
  lemma {:induction false} OctetsPrefix(ip: nat, k: nat, m: nat)
    ensures Octets(ip, k + m)[..k] == Octets(ShiftOctets(ip, m), k)
    decreases m
  {
    if m == 0 {
      assert Octets(ip, k)[..k] == Octets(ip, k);
    } else {
      OctetsPrefix(ip / 256, k, m - 1);
      assert Octets(ip, k + m)[..k] == Octets(ip / 256, k + m - 1)[..k];
    }
  }

  lemma FourOctetsShift(ip: nat)
    ensures ShiftOctets(ip, 4) == ip / LOW32
  {
    var a := ip / 256;
    var b := a / 256;
    var c := b / 256;
    assert ShiftOctets(c, 1) == c / 256 && ShiftOctets(b, 2) == c / 256 && ShiftOctets(a, 3) == c / 256;
    assert ip / 0x1_0000 == b;
    assert ip / 0x100_0000 == c;
  }

  lemma {:induction false} FromOctetsAppend(a: seq<nat>, b: seq<nat>)
    ensures FromOctets(a + b) == FromOctets(a) * Pow2(8 * |b|) + FromOctets(b)
  {
    if |b| == 0 {
      assert a + b == a;
    } else {
      var b' := b[..|b| - 1];
      assert (a + b)[..|a + b| - 1] == a + b';
      FromOctetsAppend(a, b');
      Pow2Sum(8, 8 * |b'|);
      assert Pow2(8) == 256;
      assert FromOctets(a) * Pow2(8 * |b'|) * 256 == FromOctets(a) * (256 * Pow2(8 * |b'|));
    }
  }
}
