/** What exactly a list line says, character for character: which lines block or except which
    domains, and that no other line adds anything. */
module ListLines {
  import opened Text
  import opened Blocklist

  // ---------------------------------------------------------------- domain texts

  ghost predicate AllBlank(s: string) { forall i :: 0 <= i < |s| ==> Blank(s[i]) }

  ghost predicate AllDots(s: string) { forall i :: 0 <= i < |s| ==> s[i] == '.' }

  /** Letters, digits, dots, hyphens and underscores; with a dot inside, none at the end; and
      no address. */
  ghost predicate DomainCore(isIp: string -> bool, core: string) {
    && core != "" && core[|core| - 1] != '.' && '.' in core && !isIp(core)
    && forall i :: 0 <= i < |core| ==>
      || 'a' <= core[i] <= 'z' || 'A' <= core[i] <= 'Z' || '0' <= core[i] <= '9' || core[i] in ".-_"
  }

  /** A text that names the domain `d`: its core in small letters, blanks around it and dots
      behind it aside. */
  ghost predicate Names(isIp: string -> bool, s: string, d: string) {
    exists pre, core, dots, post :: NamedBy(isIp, s, d, pre, core, dots, post)
  }

  ghost predicate NamedBy(isIp: string -> bool, s: string, d: string, pre: string, core: string, dots: string, post: string) {
    s == pre + core + dots + post && AllBlank(pre) && AllBlank(post) && AllDots(dots) && DomainCore(isIp, core) && d == Lower(core)
  }

  lemma CoreChars(isIp: string -> bool, core: string)
    ensures DomainCore(isIp, core) <==>
      core != "" && core[|core| - 1] != '.' && '.' in core && !isIp(core) && forall i :: 0 <= i < |core| ==> DomainChar(core[i])
  {
    assert forall c: char :: c in ".-_" <==> c == '.' || c == '-' || c == '_';
  }

  lemma {:induction false} DotsTrimmed(core: string, dots: string)
    requires AllDots(dots) && core != "" && core[|core| - 1] != '.'
    ensures TrimEnd(core + dots, '.') == core
  {
    var s := core + dots;
    if dots != "" {
      assert s[..|s| - 1] == core + dots[..|dots| - 1] && s[|s| - 1] == '.';
      DotsTrimmed(core, dots[..|dots| - 1]);
    } else {
      assert s == core;
    }
  }

  lemma NamedNormalizes(isIp: string -> bool, s: string, d: string, pre: string, core: string, dots: string, post: string)
    requires NamedBy(isIp, s, d, pre, core, dots, post)
    ensures NormalizeDomain(isIp, s) == Some(d)
  {
    CoreChars(isIp, core);
    var mid := core + dots;
    assert !Blank('.');
    assert DomainChar(core[0]) && mid[0] == core[0];
    assert mid[|mid| - 1] == if dots == "" then core[|core| - 1] else '.';
    assert DomainChar(core[|core| - 1]);
    DomainNotBlank(core[0]);
    DomainNotBlank(core[|core| - 1]);
    TrimAround(Blank, pre, mid, post);
    assert pre + mid + post == s;
    DotsTrimmed(core, dots);
    hide TrimEnd, Trim, Blank;
  }

  lemma DomainNotBlank(c: char)
    requires DomainChar(c)
    ensures !Blank(c)
  {
  }

  lemma TrimParts(s: string) returns (pre: string, post: string)
    ensures s == pre + Trim(s) + post && AllBlank(pre) && AllBlank(post)
  {
    var from, to := TrimBlankExact(Blank, s);
    pre, post := s[..from], s[to..];
    hide TrimBlank, Blank;
    assert s == pre + s[from..to] + post;
  }

  /** The parts of a text: blanks, what trimming leaves, dots, blanks. */
  lemma TextParts(s: string) returns (pre: string, dots: string, post: string)
    ensures s == pre + TrimEnd(Trim(s), '.') + dots + post && AllBlank(pre) && AllBlank(post) && AllDots(dots)
    ensures var core := TrimEnd(Trim(s), '.'); core != "" ==> core[|core| - 1] != '.'
  {
    var mid := Trim(s);
    pre, post := TrimParts(s);
    hide TrimEnd, Trim, AllBlank;
    TrimEndExact(mid, '.');
    dots := mid[|TrimEnd(mid, '.')|..];
    assert mid == TrimEnd(mid, '.') + dots;
    assert s == pre + TrimEnd(mid, '.') + dots + post;
  }

  lemma NormalizesNamed(isIp: string -> bool, s: string, d: string)
    requires NormalizeDomain(isIp, s) == Some(d)
    ensures Names(isIp, s, d)
  {
    hide TrimEnd, Trim, AllBlank, AllDots;
    var pre, dots, post := TextParts(s);
    var core := TrimEnd(Trim(s), '.');
    CoreChars(isIp, core);
    hide DomainCore;
    assert NamedBy(isIp, s, d, pre, core, dots, post);
  }

  /** The texts that are taken for a domain, and which. */
  lemma NormalizedExactly(isIp: string -> bool, s: string, d: string)
    ensures NormalizeDomain(isIp, s) == Some(d) <==> Names(isIp, s, d)
  {
    if NormalizeDomain(isIp, s) == Some(d) {
      NormalizesNamed(isIp, s, d);
    }
    hide NormalizeDomain, NamedBy;
    if Names(isIp, s, d) {
      var pre, core, dots, post :| NamedBy(isIp, s, d, pre, core, dots, post);
      NamedNormalizes(isIp, s, d, pre, core, dots, post);
    }
  }

  // ---------------------------------------------------------------- rules

  /** An adblock rule that names `d`: past a leading `||`, a domain text with nothing or one
      `^` behind it. */
  ghost predicate RuleNames(isIp: string -> bool, rule: string, d: string) {
    var body := if "||" <= rule then rule[2..] else rule;
    Names(isIp, body, d) || (body != "" && body[|body| - 1] == '^' && Names(isIp, body[..|body| - 1], d))
  }

  /** A domain text holds none of the characters that end a rule. */
  lemma NamesFree(isIp: string -> bool, s: string, d: string)
    requires Names(isIp, s, d)
    ensures forall i :: 0 <= i < |s| ==> s[i] != '^' && s[i] != '$' && s[i] != '/' && s[i] != '|'
  {
    var pre, core, dots, post :| NamedBy(isIp, s, d, pre, core, dots, post);
    CoreChars(isIp, core);
    forall i | 0 <= i < |s| ensures s[i] != '^' && s[i] != '$' && s[i] != '/' && s[i] != '|' {
      if i < |pre| {
        assert Blank(s[i]);
      } else if i < |pre| + |core| {
        assert s[i] == core[i - |pre|] && DomainChar(s[i]);
      } else if i < |pre| + |core| + |dots| {
        assert s[i] == '.';
      } else {
        assert s[i] == post[i - |pre| - |core| - |dots|] && Blank(s[i]);
      }
    }
  }

  lemma FoundAt(s: string, at: int)
    requires -1 <= at < |s| && (at >= 0 ==> RuleEnd(s[at]))
    requires forall k :: 0 <= k < |s| && (at < 0 || k < at) ==> !RuleEnd(s[k])
    ensures Find(s, RuleEnd) == at
  {
    var i := Find(s, RuleEnd);
    hide Find;
    if at >= 0 {
      assert i >= 0 && i <= at;
    }
  }

  lemma WholeRule(isIp: string -> bool, body: string, d: string)
    requires Names(isIp, body, d)
    ensures Find(body, RuleEnd) == -1 && NormalizeDomain(isIp, body) == Some(d)
  {
    hide Names, Find, NormalizeDomain;
    NamesFree(isIp, body, d);
    NormalizedExactly(isIp, body, d);
    FoundAt(body, -1);
  }

  lemma ClosedRule(isIp: string -> bool, body: string, d: string)
    requires body != "" && body[|body| - 1] == '^' && Names(isIp, body[..|body| - 1], d)
    ensures Find(body, RuleEnd) == |body| - 1 && NormalizeDomain(isIp, body[..|body| - 1]) == Some(d)
  {
    hide Names, Find, NormalizeDomain;
    var t := body[..|body| - 1];
    NamesFree(isIp, t, d);
    NormalizedExactly(isIp, t, d);
    assert RuleEnd('^') && forall k :: 0 <= k < |t| ==> !RuleEnd(t[k]) && body[k] == t[k];
    hide RuleEnd;
    FoundAt(body, |t|);
  }

  lemma RuleRead(isIp: string -> bool, rule: string, d: string)
    requires RuleNames(isIp, rule, d)
    ensures AdblockDomain(isIp, rule) == Some(d)
  {
    var body := if "||" <= rule then rule[2..] else rule;
    hide Names, Find, NormalizeDomain;
    if Names(isIp, body, d) {
      WholeRule(isIp, body, d);
    } else {
      ClosedRule(isIp, body, d);
      assert body[|body| - 1..] == "^";
    }
  }

  lemma ReadRule(isIp: string -> bool, rule: string, d: string)
    requires AdblockDomain(isIp, rule) == Some(d)
    ensures RuleNames(isIp, rule, d)
  {
    var body := if "||" <= rule then rule[2..] else rule;
    var end := Find(body, RuleEnd);
    hide Names, Find, NormalizeDomain;
    if end < 0 {
      NormalizedExactly(isIp, body, d);
    } else {
      assert body[end..] == "^" && |body| == end + 1 && body[|body| - 1] == body[end..][0];
      NormalizedExactly(isIp, body[..end], d);
    }
  }

  /** The adblock rules that are taken, and for which domain: a rule with options, a path, a
      wildcard or an anchor names none. */
  lemma RuleExactly(isIp: string -> bool, rule: string, d: string)
    ensures AdblockDomain(isIp, rule) == Some(d) <==> RuleNames(isIp, rule, d)
  {
    hide RuleNames, AdblockDomain;
    if RuleNames(isIp, rule, d) {
      RuleRead(isIp, rule, d);
    }
    if AdblockDomain(isIp, rule) == Some(d) {
      ReadRule(isIp, rule, d);
    }
  }

  // ---------------------------------------------------------------- hosts lines

  lemma TokensWord(word: string, rest: string)
    requires word != "" && (forall i :: 0 <= i < |word| ==> !Blank(word[i])) && (rest != "" ==> Blank(rest[0]))
    ensures Tokens(word + rest) == [word] + Tokens(rest)
  {
    var s := word + rest;
    assert s[0] == word[0] && s[..|word|] == word && s[|word|..] == rest;
    BlankAt(s, word, rest);
    hide Find, Blank;
    if rest == "" {
      assert s == word && Tokens(rest) == [];
    }
  }

  /** One word, and what follows it. */
  lemma {:induction false} TokensStep(pre: string, word: string, rest: string)
    requires AllBlank(pre) && word != "" && (forall i :: 0 <= i < |word| ==> !Blank(word[i])) && (rest != "" ==> Blank(rest[0]))
    ensures Tokens(pre + word + rest) == [word] + Tokens(rest)
    decreases |pre|
  {
    var s := pre + word + rest;
    hide Find;
    if pre != "" {
      assert s[0] == pre[0] && s[1..] == pre[1..] + word + rest;
      TokensStep(pre[1..], word, rest);
    } else {
      assert s == word + rest;
      TokensWord(word, rest);
    }
  }

  lemma BlankAt(s: string, word: string, rest: string)
    requires s == word + rest && (forall i :: 0 <= i < |word| ==> !Blank(word[i])) && (rest != "" ==> Blank(rest[0]))
    ensures Find(s, Blank) == if rest == "" then -1 else |word|
  {
    var i := Find(s, Blank);
    hide Find, Blank;
    assert forall k :: 0 <= k < |word| ==> s[k] == word[k];
    if rest != "" {
      assert s[|word|] == rest[0];
    }
  }

  /** Blanks hold no word. */
  lemma {:induction false} NoTokens(s: string)
    requires AllBlank(s)
    ensures Tokens(s) == []
  {
    if s != "" {
      NoTokens(s[1..]);
    }
  }

  /** A conventional host name or an address, dots behind it aside. */
  ghost predicate Noise(isIp: string -> bool, h: string) {
    exists t, dots :: h == t + dots && AllDots(dots) && (t != "" ==> t[|t| - 1] != '.') && (isIp(t) || NoiseName(Lower(t)))
  }

  lemma NoiseExactly(isIp: string -> bool, h: string)
    ensures HostNoise(isIp, h) <==> Noise(isIp, h)
  {
    TrimEndExact(h, '.');
    var t := TrimEnd(h, '.');
    assert h == t + h[|t|..];
    hide NoiseName, TrimEnd, Lower;
    if t0, dots :| h == t0 + dots && AllDots(dots) && (t0 != "" ==> t0[|t0| - 1] != '.') && (isIp(t0) || NoiseName(Lower(t0))) {
      SameCore(h, t0, dots);
    }
  }

  lemma SameCore(h: string, t: string, dots: string)
    requires h == t + dots && AllDots(dots) && (t != "" ==> t[|t| - 1] != '.')
    ensures TrimEnd(h, '.') == t
  {
    if t == "" {
      DotsOnly(dots);
      assert h == dots;
    } else {
      DotsTrimmed(t, dots);
    }
  }

  lemma {:induction false} DotsOnly(dots: string)
    requires AllDots(dots)
    ensures TrimEnd(dots, '.') == ""
  {
    if dots != "" {
      DotsOnly(dots[..|dots| - 1]);
    }
  }

  /** The domains of a hosts line: those its words name that are no noise. */
  lemma {:induction false} HostsExactly(isIp: string -> bool, tokens: seq<string>, d: string)
    ensures d in HostDomains(isIp, tokens) <==> exists k :: 0 <= k < |tokens| && !Noise(isIp, tokens[k]) && Names(isIp, tokens[k], d)
  {
    hide Noise, Names, NormalizeDomain, HostNoise;
    if |tokens| > 0 {
      HostsExactly(isIp, tokens[1..], d);
      NoiseExactly(isIp, tokens[0]);
      NormalizedExactly(isIp, tokens[0], d);
      assert forall k :: 1 <= k < |tokens| ==> tokens[k] == tokens[1..][k - 1];
      if k :| 0 <= k < |tokens| && !Noise(isIp, tokens[k]) && Names(isIp, tokens[k], d) {
        if k > 0 {
          assert !Noise(isIp, tokens[1..][k - 1]) && Names(isIp, tokens[1..][k - 1], d);
        }
      }
    }
  }

  // ---------------------------------------------------------------- whole lines

  /** A line that is no rule, no comment, and nothing the parser cannot represent. */
  ghost predicate PlainLine(line: string) {
    line != "" && line[0] !in "#![|/@" && '*' !in line
  }

  /** The line blocks `d`: a rule that names it, a hosts line with it, or its bare name. */
  ghost predicate LineBlocks(isIp: string -> bool, line: string, d: string) {
    || ("||" <= line && RuleNames(isIp, line, d))
    || (PlainLine(line) && HostsLineOf(isIp, line) && HostsHold(isIp, line, d))
    || (PlainLine(line) && !HostsLineOf(isIp, line) && !Noise(isIp, line) && Names(isIp, line, d))
  }

  /** The `k`-th word of a hosts line, past the address, names `d`. */
  ghost predicate NamedHost(isIp: string -> bool, tokens: seq<string>, k: int, d: string) {
    1 <= k < |tokens| && !Noise(isIp, tokens[k]) && Names(isIp, tokens[k], d)
  }

  /** Some word of the line past the first names `d`. */
  ghost predicate HostsHold(isIp: string -> bool, line: string, d: string) {
    exists k :: NamedHost(isIp, Tokens(line), k, d)
  }

  /** Its first word is an address. */
  ghost predicate HostsLineOf(isIp: string -> bool, line: string) {
    if |Tokens(line)| > 0 then isIp(Tokens(line)[0]) else isIp("")
  }

  /** The line excepts `d`. */
  ghost predicate LineExcepts(isIp: string -> bool, line: string, d: string) {
    "@@" <= line && RuleNames(isIp, line[2..], d)
  }

  lemma FirstChars(line: string)
    requires line != ""
    ensures line[0] in "#![|/@" <==>
      line[0] == '#' || line[0] == '!' || line[0] == '[' || line[0] == '|' || line[0] == '/' || line[0] == '@'
    ensures "||" <= line ==> line[0] == '|'
    ensures "@@" <= line ==> line[0] == '@'
  {
    assert "||"[0] == '|' && "@@"[0] == '@';
  }

  /** The rule lines: what they add, or that they are skipped. */
  lemma RuleLine(isIp: string -> bool, line: string, d: string)
    ensures "@@" <= line ==> (ParseTrimmed(isIp, line) == Allow(d) <==> RuleNames(isIp, line[2..], d))
    ensures "||" <= line ==> (ParseTrimmed(isIp, line) == Block([d]) <==> RuleNames(isIp, line, d))
    ensures "@@" <= line ==> ParseTrimmed(isIp, line).Allow? || ParseTrimmed(isIp, line).Skip?
    ensures "||" <= line ==> ParseTrimmed(isIp, line).Skip? || exists x :: ParseTrimmed(isIp, line) == Block([x])
  {
    if line != "" {
      FirstChars(line);
    }
    if "@@" <= line {
      RuleExactly(isIp, line[2..], d);
    }
    if "||" <= line {
      RuleExactly(isIp, line, d);
    }
    hide RuleNames, AdblockDomain, HostsOrBare;
  }

  /** A line whose first word is an address. */
  lemma HostsLineExactly(isIp: string -> bool, line: string, d: string)
    requires HostsLineOf(isIp, line)
    ensures d in Blocks(HostsOrBare(isIp, line)) <==> HostsHold(isIp, line, d)
    ensures HostsOrBare(isIp, line).Block? || HostsOrBare(isIp, line).Ignore?
  {
    var tokens := Tokens(line);
    hide Tokens, Names, Noise, NormalizeDomain, HostNoise;
    if |tokens| > 0 {
      HostsExactly(isIp, tokens[1..], d);
      hide HostDomains;
      ShiftedHost(isIp, tokens, d);
    }
  }

  lemma ShiftedHost(isIp: string -> bool, tokens: seq<string>, d: string)
    requires |tokens| > 0
    ensures (exists k :: 0 <= k < |tokens[1..]| && !Noise(isIp, tokens[1..][k]) && Names(isIp, tokens[1..][k], d)) <==>
      (exists k :: NamedHost(isIp, tokens, k, d))
  {
    hide Noise, Names;
    if k :| 0 <= k < |tokens[1..]| && !Noise(isIp, tokens[1..][k]) && Names(isIp, tokens[1..][k], d) {
      assert tokens[1..][k] == tokens[k + 1];
      assert NamedHost(isIp, tokens, k + 1, d);
    }
    if k :| NamedHost(isIp, tokens, k, d) {
      assert tokens[1..][k - 1] == tokens[k];
    }
  }

  /** Any other plain line. */
  lemma BareExactly(isIp: string -> bool, line: string, d: string)
    requires !HostsLineOf(isIp, line)
    ensures d in Blocks(HostsOrBare(isIp, line)) <==> !Noise(isIp, line) && Names(isIp, line, d)
    ensures HostsOrBare(isIp, line).Block? || HostsOrBare(isIp, line).Ignore?
  {
    NormalizedExactly(isIp, line, d);
    NoiseExactly(isIp, line);
    hide Tokens, Names, Noise, NormalizeDomain, HostNoise, HostDomains;
  }

  lemma PlainRead(isIp: string -> bool, line: string)
    requires PlainLine(line)
    ensures ParseTrimmed(isIp, line) == HostsOrBare(isIp, line) && !("||" <= line) && !("@@" <= line)
  {
    FirstChars(line);
    hide AdblockDomain, HostsOrBare;
  }

  /** The plain lines: ignored, or a block of the domains they name. */
  lemma PlainExactly(isIp: string -> bool, line: string, d: string)
    requires PlainLine(line)
    ensures d in Blocks(ParseTrimmed(isIp, line)) <==> LineBlocks(isIp, line, d)
    ensures ParseTrimmed(isIp, line).Block? || ParseTrimmed(isIp, line).Ignore?
  {
    hide Tokens, Names, Noise, HostsOrBare, RuleNames, ParseTrimmed, HostsLineOf, PlainLine, HostsHold;
    PlainRead(isIp, line);
    if HostsLineOf(isIp, line) {
      HostsLineExactly(isIp, line, d);
    } else {
      BareExactly(isIp, line, d);
    }
  }

  /** All other lines: comments are ignored, the rest is counted as skipped. */
  lemma OtherLines(isIp: string -> bool, line: string)
    requires !PlainLine(line) && !("||" <= line) && !("@@" <= line)
    ensures ParseTrimmed(isIp, line) == if line == "" || line[0] in "#![" then Ignore else Skip
  {
    if line != "" {
      FirstChars(line);
      CommentChars(line[0]);
    }
    hide AdblockDomain, HostsOrBare;
  }

  lemma CommentChars(c: char)
    ensures c in "#![" <==> c == '#' || c == '!' || c == '['
  {
  }

  lemma ThreeKinds(line: string)
    ensures "||" <= line ==> !PlainLine(line) && !("@@" <= line)
    ensures "@@" <= line ==> !PlainLine(line)
  {
    if line != "" {
      FirstChars(line);
    }
  }

  /** What every line adds, to the blocked and to the excepted domains. */
  lemma LineExactly(isIp: string -> bool, line: string, d: string)
    ensures d in Blocks(ParseTrimmed(isIp, line)) <==> LineBlocks(isIp, line, d)
    ensures d in Allows(ParseTrimmed(isIp, line)) <==> LineExcepts(isIp, line, d)
  {
    hide ParseTrimmed, PlainLine, RuleNames, Tokens, Noise, Names, HostsLineOf, HostsHold;
    ThreeKinds(line);
    if PlainLine(line) {
      PlainExactly(isIp, line, d);
    } else if "||" <= line || "@@" <= line {
      RuleLine(isIp, line, d);
    } else {
      OtherLines(isIp, line);
    }
  }

  // ---------------------------------------------------------------- loaded sets

  /** A loaded blocklist holds exactly the domains that the lines of its fetched sources name:
      a rule with options, a path, a wildcard or an anchor adds nothing to either set. */
  lemma LoadedExactly(isIp: string -> bool, sources: seq<Source>, d: string)
    ensures d in AllBlocked(isIp, sources) <==> exists raw :: Holds(sources, raw) && LineBlocks(isIp, Trim(raw), d)
    ensures d in AllAllowed(isIp, sources) <==> exists raw :: Holds(sources, raw) && LineExcepts(isIp, Trim(raw), d)
  {
    hide ParseTrimmed, LineBlocks, LineExcepts, Trim;
    forall raw ensures d in Blocks(ParseLine(isIp, raw)) <==> LineBlocks(isIp, Trim(raw), d)
      ensures d in Allows(ParseLine(isIp, raw)) <==> LineExcepts(isIp, Trim(raw), d)
    {
      LineExactly(isIp, Trim(raw), d);
    }
    hide ParseLine, Blocks, Allows;
    if d in AllBlocked(isIp, sources) {
      var s, raw :| s in sources && s.Fetched? && raw in s.lines && d in Blocks(ParseLine(isIp, raw));
      assert Holds(sources, raw);
    }
    if raw :| Holds(sources, raw) && LineBlocks(isIp, Trim(raw), d) {
      var s :| s in sources && s.Fetched? && raw in s.lines;
      assert d in BlockedBy(isIp, s.lines);
    }
    if d in AllAllowed(isIp, sources) {
      var s, raw :| s in sources && s.Fetched? && raw in s.lines && d in Allows(ParseLine(isIp, raw));
      assert Holds(sources, raw);
    }
    if raw :| Holds(sources, raw) && LineExcepts(isIp, Trim(raw), d) {
      var s :| s in sources && s.Fetched? && raw in s.lines;
      assert d in AllowedBy(isIp, s.lines);
    }
  }

  /** The lines that are counted as skipped. */
  ghost predicate Skipped(isIp: string -> bool, line: string) {
    if "||" <= line then forall d :: !RuleNames(isIp, line, d)
    else if "@@" <= line then forall d :: !RuleNames(isIp, line[2..], d)
    else !PlainLine(line) && line != "" && line[0] !in "#!["
  }

  lemma RuleKinds(isIp: string -> bool, line: string)
    requires "||" <= line || "@@" <= line
    ensures ParseTrimmed(isIp, line).Skip? <==> Skipped(isIp, line)
  {
    hide ParseTrimmed, PlainLine, RuleNames;
    ThreeKinds(line);
    var p := ParseTrimmed(isIp, line);
    RuleLine(isIp, line, if p.Allow? then p.domain else "");
    forall d | "||" <= line ensures p == Block([d]) <==> RuleNames(isIp, line, d) {
      RuleLine(isIp, line, d);
    }
    forall d | "@@" <= line ensures p == Allow(d) <==> RuleNames(isIp, line[2..], d) {
      RuleLine(isIp, line, d);
    }
  }

  lemma SkippedExactly(isIp: string -> bool, line: string)
    ensures ParseTrimmed(isIp, line).Skip? <==> Skipped(isIp, line)
  {
    hide ParseTrimmed, PlainLine, RuleNames;
    ThreeKinds(line);
    if "||" <= line || "@@" <= line {
      RuleKinds(isIp, line);
    } else if PlainLine(line) {
      PlainExactly(isIp, line, "");
    } else {
      OtherLines(isIp, line);
    }
  }

  /** A rule restricted by options adds nothing and is counted, whatever its domain. */
  lemma OptionsSkipped(isIp: string -> bool, rule: string, options: string)
    requires "||" <= rule || "@@" <= rule
    ensures ParseTrimmed(isIp, rule + "$" + options).Skip?
  {
    var line := rule + "$" + options;
    assert line[|rule|] == '$' && line[..2] == rule[..2];
    hide Names, ParseTrimmed, RuleNames;
    SkippedExactly(isIp, line);
    ThreeKinds(line);
    var body := if "@@" <= line then line[2..] else line;
    var at := if "@@" <= line then |rule| - 2 else |rule|;
    assert body[at] == '$';
    forall d ensures !RuleNames(isIp, body, d) {
      DollarRule(isIp, body, at, d);
    }
  }

  /** No rule with a `$` past its mark names a domain. */
  lemma DollarRule(isIp: string -> bool, rule: string, at: nat, d: string)
    requires at < |rule| && rule[at] == '$'
    ensures !RuleNames(isIp, rule, d)
  {
    var body := if "||" <= rule then rule[2..] else rule;
    var k := if "||" <= rule then at - 2 else at;
    assert "||"[0] == '|' && "||"[1] == '|';
    assert k >= 0 && body[k] == '$';
    if Names(isIp, body, d) {
      NamesFree(isIp, body, d);
    }
    var t := body[..|body| - 1];
    assert body[|body| - 1] == '^' ==> t[k] == '$';
    if body[|body| - 1] == '^' && Names(isIp, t, d) {
      NamesFree(isIp, t, d);
    }
    hide Names;
  }
}
