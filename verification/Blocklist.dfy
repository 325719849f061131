/** The local blocklist: parsing of list lines, merging of sources, and the suffix walk
    that decides whether a queried name is blocked. */
module Blocklist {
  import opened Text
  import opened Dns

  /** Whether a text parses as an IP address. */
  type IpParser = string -> bool

  /** All that is assumed of the address parser: it takes only digits, colons and dots. */
  ghost predicate Plausible(isIp: IpParser) {
    forall s :: isIp(s) ==> s != "" && forall i :: 0 <= i < |s| ==> AddressChar(s[i])
  }

  predicate AddressChar(c: char) {
    '0' <= c <= '9' || 'a' <= c <= 'f' || 'A' <= c <= 'F' || c == ':' || c == '.'
  }

  datatype Blocklist = Blocklist(block: set<string>, allow: set<string>)

  datatype Stat = Stat(ok: bool, blocks: nat, allows: nat, skipped: nat)

  /** One configured source: its lines, or a failed fetch. */
  datatype Source = Fetched(lines: seq<string>) | Failed

  datatype Line = Block(domains: seq<string>) | Allow(domain: string) | Ignore | Skip

  // ---------------------------------------------------------------- text helpers

  predicate Blank(c: char) { WhiteSpace(c as int) }

  function Trim(s: string): string { TrimBlank(Blank, s) }

  /** Index of the first character that `p` accepts, or -1. */
  function Find(s: string, p: char -> bool): (i: int)
    ensures -1 <= i < |s|
    ensures i >= 0 ==> p(s[i])
    ensures forall k :: 0 <= k < |s| && (i < 0 || k < i) ==> !p(s[k])
  {
    if s == "" then -1
    else if p(s[0]) then 0
    else
      var i := Find(s[1..], p);
      assert forall k :: 1 <= k < |s| ==> s[k] == s[1..][k - 1];
      if i < 0 then -1 else i + 1
  }

  /** `split_whitespace`: the maximal runs without white space. */
  function Tokens(s: string): seq<string>
    decreases |s|
  {
    if s == "" then []
    else if Blank(s[0]) then Tokens(s[1..])
    else
      var end := Find(s, Blank);
      if end < 0 then [s] else [s[..end]] + Tokens(s[end..])
  }

  // ---------------------------------------------------------------- parsing

  predicate NoiseName(h: string) {
    h in ["localhost", "localhost.localdomain", "local", "ip6-localhost", "ip6-loopback",
      "ip6-localnet", "ip6-mcastprefix", "ip6-allnodes", "ip6-allrouters", "broadcasthost"]
  }

  predicate HostNoise(isIp: IpParser, h: string) {
    var t := TrimEnd(h, '.');
    NoiseName(Lower(t)) || isIp(t)
  }

  predicate DomainChar(c: char) {
    'a' <= c <= 'z' || 'A' <= c <= 'Z' || '0' <= c <= '9' || c == '.' || c == '-' || c == '_'
  }

  function NormalizeDomain(isIp: IpParser, s0: string): Option<string> {
    var s := TrimEnd(Trim(s0), '.');
    if s == "" || isIp(s) || '.' !in s then None
    else if exists i :: 0 <= i < |s| && !DomainChar(s[i]) then None
    else Some(Lower(s))
  }

  predicate RuleEnd(c: char) { c == '^' || c == '$' || c == '/' || c == '|' }

  function AdblockDomain(isIp: IpParser, s0: string): Option<string> {
    var s := if "||" <= s0 then s0[2..] else s0;
    var end := Find(s, RuleEnd);
    if end < 0 then NormalizeDomain(isIp, s)
    else if s[end..] == "^" then NormalizeDomain(isIp, s[..end])
    else None
  }

  /** The domains of the host tokens of a hosts line, noise dropped. */
  function HostDomains(isIp: IpParser, tokens: seq<string>): seq<string> {
    if |tokens| == 0 then []
    else
      var more := HostDomains(isIp, tokens[1..]);
      if HostNoise(isIp, tokens[0]) then more
      else match NormalizeDomain(isIp, tokens[0])
        case None => more
        case Some(d) => [d] + more
  }

  function ParseLine(isIp: IpParser, raw: string): Line {
    ParseTrimmed(isIp, Trim(raw))
  }

  function ParseTrimmed(isIp: IpParser, line: string): Line {
    if line == "" || line[0] == '#' || line[0] == '!' || line[0] == '[' then Ignore
    else if "@@" <= line then
      match AdblockDomain(isIp, line[2..])
      case Some(d) => Allow(d)
      case None => Skip
    else if "||" <= line then
      match AdblockDomain(isIp, line)
      case Some(d) => Block([d])
      case None => Skip
    else if line[0] == '|' || line[0] == '/' || line[0] == '@' || '*' in line then Skip
    else HostsOrBare(isIp, line)
  }

  /** A hosts line if it starts with an address, a bare domain otherwise. */
  function HostsOrBare(isIp: IpParser, line: string): Line {
    var tokens := Tokens(line);
    var head := if |tokens| > 0 then tokens[0] else "";
    if isIp(head) then
      var domains := if |tokens| > 0 then HostDomains(isIp, tokens[1..]) else [];
      if domains == [] then Ignore else Block(domains)
    else
      match NormalizeDomain(isIp, line)
      case Some(d) => if HostNoise(isIp, line) then Ignore else Block([d])
      case None => Ignore
  }

  // ---------------------------------------------------------------- loading

  /** What one line adds to the block set and to the allow set. */
  function Blocks(l: Line): seq<string> { if l.Block? then l.domains else [] }

  function Allows(l: Line): seq<string> { if l.Allow? then [l.domain] else [] }

  ghost function SetOf(ds: seq<string>): set<string> { set d | d in ds }

  ghost function BlockedBy(isIp: IpParser, lines: seq<string>): set<string> {
    set raw, d | raw in lines && d in Blocks(ParseLine(isIp, raw)) :: d
  }

  ghost function AllowedBy(isIp: IpParser, lines: seq<string>): set<string> {
    set raw, d | raw in lines && d in Allows(ParseLine(isIp, raw)) :: d
  }

  /** Every domain that some line of some fetched source blocks, whatever the order. */
  ghost function AllBlocked(isIp: IpParser, sources: seq<Source>): set<string> {
    set s, d | s in sources && s.Fetched? && d in BlockedBy(isIp, s.lines) :: d
  }

  ghost function AllAllowed(isIp: IpParser, sources: seq<Source>): set<string> {
    set s, d | s in sources && s.Fetched? && d in AllowedBy(isIp, s.lines) :: d
  }

  /** The accounting a source should get. */
  function Tally(isIp: IpParser, lines: seq<string>): Stat {
    if |lines| == 0 then Stat(true, 0, 0, 0)
    else
      var t := Tally(isIp, lines[..|lines| - 1]);
      var l := ParseLine(isIp, lines[|lines| - 1]);
      Stat(true, t.blocks + |Blocks(l)|, t.allows + |Allows(l)|, t.skipped + if l.Skip? then 1 else 0)
  }

  /** Fetch results merged into one blocklist, with per-source accounting; a failed source
      contributes nothing and stops nothing. */
  method Load(isIp: IpParser, sources: seq<Source>) returns (bl: Blocklist, stats: seq<Stat>)
    ensures bl.block == AllBlocked(isIp, sources) && bl.allow == AllAllowed(isIp, sources)
    ensures |stats| == |sources|
    ensures forall i :: 0 <= i < |sources| ==>
      stats[i] == if sources[i].Fetched? then Tally(isIp, sources[i].lines) else Stat(false, 0, 0, 0)
  {
    hide BlockedBy, AllowedBy, Tally;
    var block: set<string>, allow: set<string> := {}, {};
    stats := [];
    for i := 0 to |sources|
      invariant |stats| == i
      invariant block == AllBlocked(isIp, sources[..i]) && allow == AllAllowed(isIp, sources[..i])
      invariant forall k :: 0 <= k < i ==>
        stats[k] == if sources[k].Fetched? then Tally(isIp, sources[k].lines) else Stat(false, 0, 0, 0)
    {
      assert sources[..i + 1] == sources[..i] + [sources[i]];
      OneMoreSource(isIp, sources[..i], sources[i]);
      var stat := Stat(false, 0, 0, 0);
      match sources[i] {
        case Fetched(lines) =>
          block, allow, stat := LoadLines(isIp, lines, block, allow);
        case Failed =>
      }
      stats := stats + [stat];
    }
    assert sources[..|sources|] == sources;
    bl := Blocklist(block, allow);
  }

  method LoadLines(isIp: IpParser, lines: seq<string>, block0: set<string>, allow0: set<string>)
    returns (block: set<string>, allow: set<string>, stat: Stat)
    ensures block == block0 + BlockedBy(isIp, lines) && allow == allow0 + AllowedBy(isIp, lines)
    ensures stat == Tally(isIp, lines)
  {
    hide ParseLine;
    block, allow, stat := block0, allow0, Stat(true, 0, 0, 0);
    NoLines(isIp);
    hide BlockedBy, AllowedBy, Tally, Blocks, Allows, SetOf;
    for j := 0 to |lines|
      invariant stat == Tally(isIp, lines[..j])
      invariant block == block0 + BlockedBy(isIp, lines[..j])
      invariant allow == allow0 + AllowedBy(isIp, lines[..j])
    {
      ghost var seen := lines[..j];
      assert seen + [lines[j]] == lines[..j + 1];
      OneMoreLine(isIp, seen, lines[j]);
      OneMoreTally(isIp, seen, lines[j]);
      var l := ParseLine(isIp, lines[j]);
      UnionAssociates(block0, BlockedBy(isIp, seen), SetOf(Blocks(l)));
      UnionAssociates(allow0, AllowedBy(isIp, seen), SetOf(Allows(l)));
      block, allow, stat := AddLine(l, block, allow, stat);
    }
    assert lines[..|lines|] == lines;
  }

  method AddLine(l: Line, block0: set<string>, allow0: set<string>, stat0: Stat)
    returns (block: set<string>, allow: set<string>, stat: Stat)
    ensures block == block0 + SetOf(Blocks(l)) && allow == allow0 + SetOf(Allows(l))
    ensures stat == Stat(stat0.ok, stat0.blocks + |Blocks(l)|, stat0.allows + |Allows(l)|,
      stat0.skipped + if l.Skip? then 1 else 0)
  {
    block, allow, stat := block0, allow0, stat0;
    match l {
      case Block(domains) =>
        block, stat := AddAll(domains, block, stat);
      case Allow(domain) =>
        stat := stat.(allows := stat.allows + 1);
        allow := allow + {domain};
      case Skip =>
        stat := stat.(skipped := stat.skipped + 1);
      case Ignore =>
    }
  }

  method AddAll(domains: seq<string>, block0: set<string>, stat0: Stat) returns (block: set<string>, stat: Stat)
    ensures block == block0 + SetOf(domains)
    ensures stat == stat0.(blocks := stat0.blocks + |domains|)
  {
    block, stat := block0, stat0;
    for k := 0 to |domains|
      invariant stat == stat0.(blocks := stat0.blocks + k)
      invariant block == block0 + SetOf(domains[..k])
    {
      stat := stat.(blocks := stat.blocks + 1);
      block := block + {domains[k]};
      assert domains[..k + 1] == domains[..k] + [domains[k]];
    }
    assert domains[..|domains|] == domains;
  }

  lemma UnionAssociates(a: set<string>, b: set<string>, c: set<string>)
    ensures a + b + c == a + (b + c)
  {
  }

  lemma NoLines(isIp: IpParser)
    ensures BlockedBy(isIp, []) == {} && AllowedBy(isIp, []) == {} && Tally(isIp, []) == Stat(true, 0, 0, 0)
  {
  }

  lemma OneMoreLine(isIp: IpParser, lines: seq<string>, raw: string)
    ensures var l := ParseLine(isIp, raw);
      && BlockedBy(isIp, lines + [raw]) == BlockedBy(isIp, lines) + SetOf(Blocks(l))
      && AllowedBy(isIp, lines + [raw]) == AllowedBy(isIp, lines) + SetOf(Allows(l))
  {
    hide ParseLine;
    assert forall r :: r in lines + [raw] <==> r in lines || r == raw;
  }

  lemma OneMoreTally(isIp: IpParser, lines: seq<string>, raw: string)
    ensures var l := ParseLine(isIp, raw); var t := Tally(isIp, lines);
      Tally(isIp, lines + [raw]) == Stat(true, t.blocks + |Blocks(l)|, t.allows + |Allows(l)|, t.skipped + if l.Skip? then 1 else 0)
  {
    hide ParseLine;
    assert (lines + [raw])[..|lines|] == lines;
  }

  lemma OneMoreSource(isIp: IpParser, sources: seq<Source>, s: Source)
    ensures AllBlocked(isIp, sources + [s])
         == AllBlocked(isIp, sources) + if s.Fetched? then BlockedBy(isIp, s.lines) else {}
    ensures AllAllowed(isIp, sources + [s])
         == AllAllowed(isIp, sources) + if s.Fetched? then AllowedBy(isIp, s.lines) else {}
  {
    hide BlockedBy, AllowedBy;
    assert forall t :: t in sources + [s] <==> t in sources || t == s;
  }

  // ---------------------------------------------------------------- matching

  /** The label-boundary suffix of a name that drops its first `k` labels, lower-cased. */
  function Suffix(name: Name, k: nat): string
    requires k <= |name|
  {
    Join(LowerAll(name)[k..], '.')
  }

  /** Some suffix is blocked and no suffix is allowed. */
  ghost predicate Blocked(bl: Blocklist, name: Name) {
    && (exists k :: 0 <= k < |name| && Suffix(name, k) in bl.block)
    && (forall k :: 0 <= k < |name| ==> Suffix(name, k) !in bl.allow)
  }

  /** The walk over the presentation form, dot by dot, decides exactly that. */
  method IsBlocked(bl: Blocklist, name: Name) returns (r: bool)
    requires ValidName(name)
    ensures r <==> Blocked(bl, name)
  {
    hide Suffix, LowerAll;
    if bl.block == {} {
      return false;
    }
    var full := Lower(TrimEnd(ToAscii(name), '.'));
    LoweredText(name);
    if full == "" {
      return false;
    }
    var rest := full;
    var blocked := false;
    ghost var k := 0;
    while true
      invariant 0 <= k < |name| && rest == Suffix(name, k)
      invariant forall j :: 0 <= j < k ==> Suffix(name, j) !in bl.allow
      invariant blocked <==> exists j :: 0 <= j < k && Suffix(name, j) in bl.block
      decreases |name| - k
    {
      if rest in bl.allow {
        return false;
      }
      if rest in bl.block {
        blocked := true;
      }
      var i := Find(rest, c => c == '.');
      NextSuffix(name, k, i);
      if i < 0 {
        break;
      }
      rest := rest[i + 1..];
      k := k + 1;
    }
    return blocked;
  }

  lemma LoweredText(name: Name)
    requires ValidName(name)
    ensures var full := Lower(TrimEnd(ToAscii(name), '.'));
      (|name| == 0 ==> full == "") && (|name| > 0 ==> full != "" && full == Suffix(name, 0))
  {
    TrimmedName(name);
    LowerJoin(name, '.');
    if |name| > 0 {
      JoinNotDotEnded(name);
      assert LowerAll(name)[0..] == LowerAll(name);
    }
  }

  /** The first dot of a suffix ends its first label; without a dot it is the last one. */
  lemma NextSuffix(name: Name, k: nat, i: int)
    requires ValidName(name) && k < |name|
    requires var s := Suffix(name, k);
      && -1 <= i < |s| && (i >= 0 ==> s[i] == '.')
      && forall j :: 0 <= j < |s| && (i < 0 || j < i) ==> s[j] != '.'
    ensures i < 0 <==> k + 1 == |name|
    ensures i >= 0 ==> Suffix(name, k)[i + 1..] == Suffix(name, k + 1)
  {
    LowerFree(name[k], '.');
    SuffixStep(name, k);
    var p, s := LowerAll(name)[k], Suffix(name, k);
    hide LowerAll, Lower, Suffix;
    if k + 1 < |name| {
      assert s[|p|] == '.' && forall j :: 0 <= j < |p| ==> s[j] == p[j];
      assert i == |p|;
    }
  }

  lemma SuffixStep(name: Name, k: nat)
    requires k < |name|
    ensures Suffix(name, k) == if k + 1 == |name| then LowerAll(name)[k]
      else LowerAll(name)[k] + ['.'] + Suffix(name, k + 1)
  {
    var l := LowerAll(name);
    hide LowerAll;
    assert l[k..][0] == l[k] && l[k..][1..] == l[k + 1..];
  }

  // ---------------------------------------------------------------- end to end

  /** The answer for a name after loading depends only on which lines the fetched sources
      hold: not on the order of sources or lines, nor on duplicates or failed sources. */
  lemma OnlyLinesMatter(isIp: IpParser, a: seq<Source>, b: seq<Source>)
    requires forall raw :: Holds(a, raw) <==> Holds(b, raw)
    ensures AllBlocked(isIp, a) == AllBlocked(isIp, b) && AllAllowed(isIp, a) == AllAllowed(isIp, b)
  {
    hide ParseLine;
    BlockedFromLines(isIp, a, b);
    BlockedFromLines(isIp, b, a);
  }

  ghost predicate Holds(sources: seq<Source>, raw: string) {
    exists s :: s in sources && s.Fetched? && raw in s.lines
  }

  lemma BlockedFromLines(isIp: IpParser, a: seq<Source>, b: seq<Source>)
    requires forall raw :: Holds(a, raw) ==> Holds(b, raw)
    ensures AllBlocked(isIp, a) <= AllBlocked(isIp, b) && AllAllowed(isIp, a) <= AllAllowed(isIp, b)
  {
    hide ParseLine;
    forall d | d in AllBlocked(isIp, a) ensures d in AllBlocked(isIp, b) {
      var s, raw :| s in a && s.Fetched? && raw in s.lines && d in Blocks(ParseLine(isIp, raw));
      assert Holds(a, raw);
      var t :| t in b && t.Fetched? && raw in t.lines;
      assert d in BlockedBy(isIp, t.lines);
    }
    forall d | d in AllAllowed(isIp, a) ensures d in AllAllowed(isIp, b) {
      var s, raw :| s in a && s.Fetched? && raw in s.lines && d in Allows(ParseLine(isIp, raw));
      assert Holds(a, raw);
      var t :| t in b && t.Fetched? && raw in t.lines;
      assert d in AllowedBy(isIp, t.lines);
    }
  }

  /** `name` is `d` or below it, in any letter case. */
  ghost predicate AtOrBelow(name: Name, d: Name) {
    |name| >= |d| && LowerAll(name)[|name| - |d|..] == LowerAll(d)
  }

  /** A text that lists the domain `d` and is not an address or a conventional host name. */
  ghost predicate Lists(isIp: IpParser, text: string, d: Name) {
    && ValidName(d) && |d| >= 2 && Lower(text) == Join(LowerAll(d), '.')
    && (forall i :: 0 <= i < |text| ==> DomainChar(text[i]))
    && !isIp(text) && !NoiseName(Lower(text))
  }

  /** The ways a list line names a domain: an adblock rule, a bare line, or a host of a
      hosts line. */
  ghost predicate ListLine(isIp: IpParser, raw: string, text: string) {
    var line := Trim(raw);
    || AdblockForm(line, text)
    || line == text
    || HostsLine(isIp, line, text)
  }

  ghost predicate AdblockForm(rule: string, text: string) {
    rule == "||" + text + "^" || rule == "||" + text
  }

  ghost predicate HostsLine(isIp: IpParser, line: string, text: string) {
    var t := Tokens(line);
    |t| > 0 && isIp(t[0]) && text in t[1..] && '*' !in line
  }

  lemma ListedText(isIp: IpParser, text: string, d: Name)
    requires Lists(isIp, text, d)
    ensures Clean(text) && NormalizeDomain(isIp, text) == Some(Lower(text)) && !HostNoise(isIp, text)
  {
    JoinedEnds(LowerAll(d));
    assert ValidName(LowerAll(d)) by {
      forall i | 0 <= i < |d| ensures '.' !in LowerAll(d)[i] {
        LowerFree(d[i], '.');
      }
    }
    LastAndFirst(text, Join(LowerAll(d), '.'));
    hide Join, LowerAll;
    CleanText(text);
  }

  /** Domain characters throughout, dots inside but not at the ends. */
  ghost predicate Clean(text: string) {
    && text != "" && text[|text| - 1] != '.' && '.' in text
    && forall i :: 0 <= i < |text| ==> DomainChar(text[i])
  }

  lemma CleanText(text: string)
    requires Clean(text)
    ensures TrimEnd(text, '.') == text && Trim(text) == text
  {
    TrimEndOnce(text, '.');
    hide TrimEnd;
    assert DomainChar(text[0]) && DomainChar(text[|text| - 1]);
  }

  lemma JoinedEnds(l: seq<string>)
    ensures |l| >= 2 && ValidName(l) ==>
      Join(l, '.') != "" && Join(l, '.')[|Join(l, '.')| - 1] != '.' && '.' in Join(l, '.')
  {
    if |l| >= 2 && ValidName(l) {
      JoinNotDotEnded(l);
      assert Join(l, '.')[|l[0]|] == '.';
    }
  }

  lemma LastAndFirst(text: string, j: string)
    requires Lower(text) == j && j != "" && j[|j| - 1] != '.' && '.' in j
    ensures text != "" && text[|text| - 1] != '.' && '.' in text
  {
    var k :| 0 <= k < |j| && j[k] == '.';
    assert LowerChar(text[k]) == '.';
    assert text[k] == '.';
  }

  lemma NoRuleEnd(text: string)
    requires forall i :: 0 <= i < |text| ==> DomainChar(text[i])
    ensures Find(text, RuleEnd) == -1
    ensures Find(text + "^", RuleEnd) == |text| && (text + "^")[|text|..] == "^" && (text + "^")[..|text|] == text
  {
    assert forall i :: 0 <= i < |text| ==> (text + "^")[i] == text[i];
    assert (text + "^")[|text|] == '^';
  }

  /** Every line form parses to a block rule with the listed domain. */
  lemma ListLineParses(isIp: IpParser, raw: string, text: string, d: Name)
    requires Plausible(isIp) && Lists(isIp, text, d) && ListLine(isIp, raw, text)
    ensures Lower(text) in Blocks(ParseLine(isIp, raw))
  {
    ListedText(isIp, text, d);
    assert !isIp(text);
    hide Lists, NormalizeDomain, HostNoise, Trim, Lower, Find, Tokens, AdblockForm;
    var line := Trim(raw);
    if AdblockForm(line, text) {
      AdblockParses(isIp, line, text);
    } else if line == text {
      BareParses(isIp, text);
    } else {
      TrimmedStart(raw);
      HostsParses(isIp, line, text);
    }
  }

  lemma AdblockRule(isIp: IpParser, rule: string, text: string)
    requires Clean(text) && NormalizeDomain(isIp, text) == Some(Lower(text))
    requires AdblockForm(rule, text)
    ensures AdblockDomain(isIp, rule) == Some(Lower(text)) && "||" <= rule
  {
    NoRuleEnd(text);
    hide NormalizeDomain, Find, Clean;
    var rest := rule[2..];
    assert rest == text || rest == text + "^";
  }

  lemma AdblockParses(isIp: IpParser, line: string, text: string)
    requires Clean(text) && NormalizeDomain(isIp, text) == Some(Lower(text))
    requires AdblockForm(line, text)
    ensures ParseTrimmed(isIp, line) == Block([Lower(text)])
  {
    AdblockRule(isIp, line, text);
    hide *;
    BlockRuleParses(isIp, line, Lower(text));
  }

  lemma BlockRuleParses(isIp: IpParser, line: string, d: string)
    requires "||" <= line && AdblockDomain(isIp, line) == Some(d)
    ensures ParseTrimmed(isIp, line) == Block([d])
  {
    hide AdblockDomain;
    assert line[0] == '|';
    assert "@@"[0] == '@';
  }

  lemma WholeToken(text: string)
    requires text != "" && forall i :: 0 <= i < |text| ==> !Blank(text[i])
    ensures Tokens(text) == [text]
  {
  }

  lemma BareParses(isIp: IpParser, text: string)
    requires Clean(text) && NormalizeDomain(isIp, text) == Some(Lower(text))
    requires !HostNoise(isIp, text) && !isIp(text)
    ensures ParseTrimmed(isIp, text) == Block([Lower(text)])
  {
    hide NormalizeDomain, HostNoise, Tokens;
    assert forall i :: 0 <= i < |text| ==> !Blank(text[i]) && text[i] != '*' && PlainStart(text[i]);
    WholeToken(text);
    hide DomainChar, Blank;
    OtherLine(isIp, text);
  }

  /** Not the start of a comment, a header, or an adblock construct. */
  predicate PlainStart(c: char) {
    c != '#' && c != '!' && c != '[' && c != '|' && c != '/' && c != '@'
  }

  lemma OtherLine(isIp: IpParser, line: string)
    requires line != "" && PlainStart(line[0]) && '*' !in line
    ensures ParseTrimmed(isIp, line) == HostsOrBare(isIp, line)
  {
    hide HostsOrBare, AdblockDomain;
    assert "@@"[0] == '@' && "||"[0] == '|';
  }

  lemma {:induction false} FirstToken(line: string)
    requires |Tokens(line)| > 0 && (line != "" ==> !Blank(line[0]))
    ensures line != "" && Tokens(line)[0] != "" && line[0] == Tokens(line)[0][0]
  {
  }

  lemma TrimmedStart(s: string)
    ensures Trim(s) != "" ==> !Blank(Trim(s)[0])
  {
    TrimBlankStart(Blank, s);
  }

  lemma {:induction false} HostDomainsHas(isIp: IpParser, tokens: seq<string>, text: string)
    requires text in tokens && !HostNoise(isIp, text) && NormalizeDomain(isIp, text).Some?
    ensures NormalizeDomain(isIp, text).value in HostDomains(isIp, tokens)
  {
    hide HostNoise, NormalizeDomain;
    if text != tokens[0] {
      HostDomainsHas(isIp, tokens[1..], text);
    }
  }

  lemma HostsParses(isIp: IpParser, line: string, text: string)
    requires Plausible(isIp) && HostsLine(isIp, line, text) && (line != "" ==> !Blank(line[0]))
    requires NormalizeDomain(isIp, text) == Some(Lower(text)) && !HostNoise(isIp, text)
    ensures Lower(text) in Blocks(ParseTrimmed(isIp, line))
  {
    var t := Tokens(line);
    FirstToken(line);
    assert AddressChar(t[0][0]);
    HostDomainsHas(isIp, t[1..], text);
    hide NormalizeDomain, HostNoise, Tokens, HostDomains, Plausible, AddressChar;
    OtherLine(isIp, line);
  }

  /** A domain listed by any line of any fetched source blocks itself and everything below
      it, in any letter case, unless a suffix of the queried name is excepted. */
  lemma ListedDomainBlocksSubtree(isIp: IpParser, sources: seq<Source>, bl: Blocklist,
                                  raw: string, text: string, d: Name, name: Name)
    requires Plausible(isIp) && Lists(isIp, text, d) && ListLine(isIp, raw, text) && Holds(sources, raw)
    requires bl == Blocklist(AllBlocked(isIp, sources), AllAllowed(isIp, sources))
    requires AtOrBelow(name, d)
    ensures Blocked(bl, name) <==> forall k :: 0 <= k < |name| ==> Suffix(name, k) !in bl.allow
  {
    hide *;
    ListLineParses(isIp, raw, text, d);
    ListedSuffix(isIp, text, d, name);
    BlockIsLoaded(isIp, sources, raw, Lower(text));
    BlockMatches(bl, name, |name| - |d|);
  }

  lemma ListedSuffix(isIp: IpParser, text: string, d: Name, name: Name)
    requires Lists(isIp, text, d) && AtOrBelow(name, d)
    ensures 0 < |d| <= |name| && Suffix(name, |name| - |d|) == Lower(text)
  {
    hide LowerAll, Lower;
    assert Lower(text) == Join(LowerAll(d), '.');
  }

  lemma BlockMatches(bl: Blocklist, name: Name, k: nat)
    requires k < |name| && Suffix(name, k) in bl.block
    ensures Blocked(bl, name) <==> forall j :: 0 <= j < |name| ==> Suffix(name, j) !in bl.allow
  {
    hide Suffix;
  }

  lemma BlockIsLoaded(isIp: IpParser, sources: seq<Source>, raw: string, e: string)
    requires e in Blocks(ParseLine(isIp, raw)) && Holds(sources, raw)
    ensures e in AllBlocked(isIp, sources)
  {
    hide ParseLine;
    var s :| s in sources && s.Fetched? && raw in s.lines;
    assert e in BlockedBy(isIp, s.lines);
  }

  /** An adblock exception for a domain. */
  ghost predicate ExceptionLine(raw: string, text: string) {
    var line := Trim(raw);
    "@@" <= line && AdblockForm(line[2..], text)
  }

  /** An exception for a domain, in any fetched source, frees it and everything below it,
      whatever any source blocks. */
  lemma ExceptionFreesSubtree(isIp: IpParser, sources: seq<Source>, bl: Blocklist,
                              raw: string, text: string, d: Name, name: Name)
    requires Lists(isIp, text, d) && ExceptionLine(raw, text) && Holds(sources, raw)
    requires bl == Blocklist(AllBlocked(isIp, sources), AllAllowed(isIp, sources))
    requires AtOrBelow(name, d)
    ensures |d| > 0 && !Blocked(bl, name)
  {
    hide *;
    ExceptionParses(isIp, raw, text, d);
    ListedSuffix(isIp, text, d, name);
    ExceptionIsLoaded(isIp, sources, raw, Lower(text));
    AllowBeatsBlock(bl, name, |name| - |d|);
  }

  lemma ExceptionIsLoaded(isIp: IpParser, sources: seq<Source>, raw: string, e: string)
    requires ParseLine(isIp, raw) == Allow(e) && Holds(sources, raw)
    ensures e in AllAllowed(isIp, sources)
  {
    hide ParseLine;
    var s :| s in sources && s.Fetched? && raw in s.lines;
    assert e in Allows(ParseLine(isIp, raw));
    assert e in AllowedBy(isIp, s.lines);
  }

  lemma AllowBeatsBlock(bl: Blocklist, name: Name, k: nat)
    requires k < |name| && Suffix(name, k) in bl.allow
    ensures !Blocked(bl, name)
  {
  }

  lemma ExceptionParses(isIp: IpParser, raw: string, text: string, d: Name)
    requires Lists(isIp, text, d) && ExceptionLine(raw, text)
    ensures ParseLine(isIp, raw) == Allow(Lower(text))
  {
    ListedText(isIp, text, d);
    AdblockRule(isIp, Trim(raw)[2..], text);
    hide AdblockDomain, NormalizeDomain, Clean, Lists, Trim, AdblockForm;
    assert "@@"[0] == '@' && Trim(raw)[0] == '@';
  }

  /** Some queried name has `e` among its suffixes. */
  ghost predicate Matchable(e: string) {
    exists name: Name, k: nat :: ValidName(name) && k < |name| && Suffix(name, k) == e
  }

  /** An entry can match some name exactly when its dot-separated pieces are nonempty: a
      listed `.example.com` or `a..b` is accepted and counted, but never blocks anything. */
  lemma LiveEntry(e: string)
    ensures Matchable(e) <==> (Lower(e) == e && forall p :: p in Split(e, '.') ==> p != "")
  {
    if Lower(e) == e && forall p :: p in Split(e, '.') ==> p != "" {
      var n := Split(e, '.');
      SplitFree(e, '.');
      JoinSplit(e, '.');
      assert ValidName(n) by {
        assert forall i :: 0 <= i < |n| ==> n[i] in n;
      }
      LowerJoin(n, '.');
      assert LowerAll(n)[0..] == LowerAll(n);
      assert Suffix(n, 0) == e && |n| > 0;
    }
    if Matchable(e) {
      var name: Name, k: nat :| ValidName(name) && k < |name| && Suffix(name, k) == e;
      SuffixIsClean(name, k);
    }
  }

  /** Listing a bare text of domain characters is accepted as a block rule, whatever its
      pieces; the rule can ever match exactly when none of them is empty. */
  lemma BareTextAccepted(isIp: IpParser, text: string)
    requires Clean(text) && !isIp(text) && !NoiseName(Lower(text))
    ensures ParseLine(isIp, text) == Block([Lower(text)])
    ensures Matchable(Lower(text)) <==> forall p :: p in Split(Lower(text), '.') ==> p != ""
  {
    CleanText(text);
    LowerIdempotent(text);
    LiveEntry(Lower(text));
    hide Matchable, Lower, Split, Trim, TrimEnd;
    BareParses(isIp, text);
  }

  /** `.example.com` is accepted and blocks nothing. */
  lemma LeadingDotAccepted(isIp: IpParser)
    requires Plausible(isIp)
    ensures ParseLine(isIp, ".example.com") == Block([".example.com"]) && !Matchable(".example.com")
  {
    hide *;
    ExampleText();
    ExampleNotAddress(isIp);
    NotNoise(".example.com");
    LeadingEmptyPiece(".example.com");
    BareTextAccepted(isIp, ".example.com");
  }

  lemma ExampleNotAddress(isIp: IpParser)
    requires Plausible(isIp)
    ensures !isIp(".example.com")
  {
    assert ".example.com"[2] == 'x' && !AddressChar('x');
  }

  lemma ExampleText()
    ensures Lower(".example.com") == ".example.com" && Clean(".example.com")
  {
    var t := ".example.com";
    assert t[0] == '.' && t[11] == 'm' && |t| == 12;
    assert forall i :: 0 <= i < |t| ==> DomainChar(t[i]) && LowerChar(t[i]) == t[i];
  }

  lemma NotNoise(t: string)
    requires t != "" && t[0] == '.'
    ensures !NoiseName(t)
  {
  }

  lemma LeadingEmptyPiece(s: string)
    requires s != "" && s[0] == '.'
    ensures "" in Split(s, '.')
  {
    assert Split(s, '.')[0] == "";
  }

  lemma SuffixIsClean(name: Name, k: nat)
    requires ValidName(name) && k < |name|
    ensures Lower(Suffix(name, k)) == Suffix(name, k)
    ensures forall p :: p in Split(Suffix(name, k), '.') ==> p != ""
  {
    var l := LowerAll(name)[k..];
    forall i | 0 <= i < |l| ensures l[i] != "" && '.' !in l[i] {
      LowerFree(name[k + i], '.');
    }
    SplitJoin(l, '.');
    LowerJoin(l, '.');
    forall i | 0 <= i < |l| ensures LowerAll(l)[i] == l[i] {
      LowerIdempotent(name[k + i]);
    }
    assert LowerAll(l) == l;
  }
}
