/** Host-name rewrites of the CDN providers. Each rewrite edits the lower-cased label
    list of a name in place; the method that does so is tied to a function on lists,
    and the properties are proved about the functions. */
module Rewrites {
  import opened Text
  import opened Dns

  type Labelled = seq<string>

  // ---------------------------------------------------------------- list vocabulary

  /** First position of `t`, or -1. */
  function Idx(v: seq<string>, t: string): (i: int)
    ensures -1 <= i < |v|
  {
    if |v| == 0 then -1
    else if v[0] == t then 0
    else
      var i := Idx(v[1..], t);
      if i == -1 then -1 else i + 1
  }

  lemma {:induction false} IdxIsFirst(v: seq<string>, t: string)
    ensures var i := Idx(v, t);
      && -1 <= i < |v|
      && (i >= 0 ==> v[i] == t && forall j :: 0 <= j < i ==> v[j] != t)
      && (i == -1 ==> forall j :: 0 <= j < |v| ==> v[j] != t)
  {
    if |v| > 0 {
      IdxIsFirst(v[1..], t);
      assert forall j :: 1 <= j < |v| ==> v[j] == v[1..][j - 1];
    }
  }

  function Reverse(s: seq<string>): (r: seq<string>)
    ensures |r| == |s|
    ensures forall i :: 0 <= i < |s| ==> r[i] == s[|s| - 1 - i]
  {
    seq(|s|, i requires 0 <= i < |s| => s[|s| - 1 - i])
  }

  lemma ReverseTwice(s: seq<string>)
    ensures Reverse(Reverse(s)) == s
  {
  }

  /** JS `splice` forms: an index past the end appends, or removes nothing. */
  function Insert(v: seq<string>, i: nat, x: string): seq<string> {
    v[..Min(i, |v|)] + [x] + v[Min(i, |v|)..]
  }

  function Drop(v: seq<string>, i: nat): seq<string> {
    if i < |v| then v[..i] + v[i + 1..] else v
  }

  function Replace(v: seq<string>, i: nat, x: string): seq<string> {
    if i < |v| then v[i := x] else v + [x]
  }

  /** JS assignment `v[i] = x`: pads with empty strings up to `i`. */
  function SetExt(v: seq<string>, i: nat, x: string): (r: seq<string>)
    ensures |r| == if |v| <= i then i + 1 else |v|
    ensures r[i] == x && forall k :: 0 <= k < |r| && k != i ==> r[k] == if k < |v| then v[k] else ""
    decreases i + 1 - |v|
  {
    if |v| <= i then SetExt(v + [""], i, x) else v[i := x]
  }

  // ---------------------------------------------------------------- simple rewrites

  function Akamai(l: Labelled): Option<Labelled> {
    var n := |l|;
    if n < 3 || l[n - 1] != "net" || (l[n - 2] != "akamaiedge" && l[n - 2] != "akamai") then None
    else Some(l[..n - 3] + [(if l[n - 3] == "cj" then "ds" else "dsc") + l[n - 3]] + l[n - 2..])
  }

  method AkamaiRewrite(name: Name) returns (r: Option<Name>)
    ensures r == Rewritten(Akamai, name)
  {
    var l := Labels(name);
    var n := |l|;
    if n < 3 || l[n - 1] != "net" || !(l[n - 2] == "akamaiedge" || l[n - 2] == "akamai") {
      return None;
    }
    ghost var l0 := l;
    var lab := l[n - 3];
    l := l[n - 3 := if lab == "cj" then "ds" + lab else "dsc" + lab];
    assert l == l0[..n - 3] + [(if lab == "cj" then "ds" else "dsc") + lab] + l0[n - 2..];
    r := NameFromLabels(l);
  }

  function AwsGlb(l: Labelled): Option<Labelled> {
    var n := |l|;
    if n < 2 || l[n - 1] != "com" || l[n - 2] != "awsglobalaccelerator" then None
    else if n >= 3 && l[n - 3] == "dualstack" then Some(l)
    else Some(l[..n - 2] + ["dualstack"] + l[n - 2..])
  }

  method AwsGlbRewrite(name: Name) returns (r: Option<Name>)
    ensures r == Rewritten(AwsGlb, name)
  {
    var l := Labels(name);
    var n := |l|;
    if n < 2 || l[n - 1] != "com" || l[n - 2] != "awsglobalaccelerator" {
      return None;
    }
    if n >= 3 && l[n - 3] == "dualstack" {
      return NameFromLabels(l);
    }
    l := l[..n - 2] + ["dualstack"] + l[n - 2..];
    r := NameFromLabels(l);
  }

  function Azure(l: Labelled): Option<Labelled> {
    var n := |l|;
    if n < 4 || l[n - 3..] != ["azurewebsites", "windows", "net"] then None
    else Some(l[..n - 4] + ["sip-v4andv6"] + l[n - 3..])
  }

  method AzureRewrite(name: Name) returns (r: Option<Name>)
    ensures r == Rewritten(Azure, name)
  {
    var l := Labels(name);
    var n := |l|;
    if n < 4 || l[n - 1] != "net" || l[n - 2] != "windows" || l[n - 3] != "azurewebsites" {
      assert n >= 4 ==> l[n - 3..][2] == l[n - 1] && l[n - 3..][1] == l[n - 2] && l[n - 3..][0] == l[n - 3];
      return None;
    }
    ghost var l0 := l;
    l := l[n - 4 := "sip-v4andv6"];
    assert l == l0[..n - 4] + ["sip-v4andv6"] + l0[n - 3..];
    assert l0[n - 3..] == ["azurewebsites", "windows", "net"];
    r := NameFromLabels(l);
  }

  /** A rewrite of labels, applied to a name. */
  function Rewritten(f: Labelled -> Option<Labelled>, name: Name): Option<Name> {
    match f(Labels(name))
    case None => None
    case Some(l) => NameFromLabels(l)
  }

  /** Labels as `Labels` produces them: dot-free, lower case. */
  ghost predicate Clean(l: Labelled) {
    forall i :: 0 <= i < |l| ==> CleanLabel(l[i])
  }

  ghost predicate CleanLabel(x: string) { '.' !in x && Lower(x) == x }

  lemma LabelsClean(n: Name)
    requires ValidName(n)
    ensures Clean(Labels(n)) && ValidName(Labels(n))
  {
    LabelsAreLowered(n);
    LabelsValid(n);
    forall i | 0 <= i < |n| ensures Lower(Labels(n)[i]) == Labels(n)[i] {
      LowerIdempotent(n[i]);
    }
  }

  /** A rewritten name has exactly the rewritten labels, so a second rewrite sees them. */
  lemma RewrittenLabels(f: Labelled -> Option<Labelled>, name: Name)
    requires f(Labels(name)).Some? && Clean(f(Labels(name)).value) && |f(Labels(name)).value| >= 2
    requires Rewritten(f, name).Some?
    ensures Rewritten(f, name).value == f(Labels(name)).value
    ensures ValidName(Rewritten(f, name).value)
    ensures Labels(Rewritten(f, name).value) == f(Labels(name)).value
  {
    var l := f(Labels(name)).value;
    RejoinedLabels(l);
    assert forall i :: 0 <= i < |l| ==> l[i] in l;
    LabelsAreLowered(l);
  }

  /** A rewrite that leaves its own output alone on labels does so on names. */
  lemma IdempotentOnNames(f: Labelled -> Option<Labelled>, name: Name)
    requires f(Labels(name)).Some? && Rewritten(f, name).Some?
    requires var l := f(Labels(name)).value; |l| >= 2 && Clean(l) && f(l) == Some(l)
    ensures Rewritten(f, Rewritten(f, name).value) == Rewritten(f, name)
  {
    RewrittenLabels(f, name);
  }

  lemma AwsGlbIdempotent(name: Name)
    requires ValidName(name) && Rewritten(AwsGlb, name).Some?
    ensures Rewritten(AwsGlb, Rewritten(AwsGlb, name).value) == Rewritten(AwsGlb, name)
  {
    LabelsClean(name);
    AwsGlbFixed(Labels(name));
    IdempotentOnNames(AwsGlb, name);
  }

  lemma AwsGlbFixed(l: Labelled)
    requires Clean(l) && AwsGlb(l).Some?
    ensures var m := AwsGlb(l).value; |m| >= 2 && Clean(m) && AwsGlb(m) == Some(m)
  {
    var n := |l|;
    if n < 3 || l[n - 3] != "dualstack" {
      InsertedClean(l, n - 2, "dualstack");
      InsertedAt(l, n - 2, "dualstack");
      hide Clean;
      var m := AwsGlb(l).value;
      assert m[n - 1] == l[n - 2] && m[n] == l[n - 1] && m[n - 2] == "dualstack";
    }
  }

  lemma InsertedClean(l: Labelled, i: nat, x: string)
    requires i <= |l| && Clean(l) && '.' !in x && Lower(x) == x
    ensures Clean(l[..i] + [x] + l[i..])
  {
  }

  /** Where everything is after one insertion. */
  lemma InsertedAt(v: seq<string>, i: nat, x: string)
    requires i <= |v|
    ensures var w := v[..i] + [x] + v[i..];
      && w[i] == x && (forall k :: 0 <= k < i ==> w[k] == v[k])
      && (forall k :: i < k < |w| ==> w[k] == v[k - 1])
  {
  }

  lemma AzureIdempotent(name: Name)
    requires ValidName(name) && Rewritten(Azure, name).Some?
    ensures Rewritten(Azure, Rewritten(Azure, name).value) == Rewritten(Azure, name)
  {
    LabelsClean(name);
    AzureFixed(Labels(name));
    IdempotentOnNames(Azure, name);
  }

  lemma AzureFixed(l: Labelled)
    requires Clean(l) && Azure(l).Some?
    ensures var m := Azure(l).value; |m| >= 2 && Clean(m) && Azure(m) == Some(m)
  {
    var m, n := Azure(l).value, |l|;
    assert m[n - 3..] == l[n - 3..] && m[..n - 4] == l[..n - 4];
    assert Lower("sip-v4andv6") == "sip-v4andv6";
  }

  /** The Akamai rewrite, in contrast, prefixes again every time it is applied. */
  lemma AkamaiNeverIdempotent(name: Name)
    requires ValidName(name) && Rewritten(Akamai, name).Some?
    ensures var once := Rewritten(Akamai, name).value;
      Rewritten(Akamai, once).Some? && Rewritten(Akamai, once) != Some(once)
  {
    LabelsClean(name);
    AkamaiAgain(Labels(name));
    RewrittenLabels(Akamai, name);
    var once := Akamai(Labels(name)).value;
    AkamaiAgain(once);
    var twice := Akamai(once).value;
    assert forall i :: 0 <= i < |twice| ==> CleanLabel(twice[i]);
    hide Akamai, Labels, Clean;
    CleanRejoined(twice);
  }

  /** On labels: a nonempty label gets a prefix, and the result is accepted again. */
  lemma AkamaiAgain(l: Labelled)
    requires Clean(l) && ValidName(l) && Akamai(l).Some?
    ensures var m := Akamai(l).value;
      && Clean(m) && ValidName(m) && |m| == |l| >= 3 && Akamai(m).Some? && m != l
  {
    var m := Akamai(l).value;
    var k := |l| - 3;
    var prefix := if l[k] == "cj" then "ds" else "dsc";
    assert m[k + 1] == l[k + 1] && m[k + 2] == l[k + 2] && m[k] == prefix + l[k];
    LowerConcat(prefix, l[k]);
    assert Lower(prefix) == prefix && '.' !in prefix;
    hide Lower;
    assert CleanLabel(l[k]) && CleanLabel(m[k]);
    assert |m[k]| > |l[k]|;
  }

  lemma CleanRejoined(l: Labelled)
    requires Clean(l) && ValidName(l)
    ensures NameFromLabels(l) == Some(l)
  {
    assert FreeOf(l, '.') by {
      forall i | 0 <= i < |l| ensures Without(l[i], '.') { assert CleanLabel(l[i]); }
    }
    assert |l| > 0 ==> l[0] != "";
    hide Clean, Without;
    RejoinedLabels(l);
  }

  /** `e1.akamaiedge.net` becomes `dsce1`, and then `dscdsce1`. */
  lemma AkamaiTwice()
    ensures Akamai(["e1", "akamaiedge", "net"]) == Some(["dsce1", "akamaiedge", "net"])
    ensures Akamai(["dsce1", "akamaiedge", "net"]) == Some(["dscdsce1", "akamaiedge", "net"])
  {
    assert "dsc" + "e1" == "dsce1" && "dsc" + "dsce1" == "dscdsce1";
    assert forall x: string :: [x, "akamaiedge", "net"][..0] + [x] + [x, "akamaiedge", "net"][1..] == [x, "akamaiedge", "net"];
  }

  // ---------------------------------------------------------------- CacheFly

  predicate Digits(s: string) {
    s != "" && forall i :: 0 <= i < |s| ==> '0' <= s[i] <= '9'
  }

  /** `^r?vip\d+$` */
  predicate IsVipLabel(s0: string) {
    var s := if "r" <= s0 then s0[1..] else s0;
    "vip" <= s && Digits(s[3..])
  }

  function Cachefly(name: Name): Option<Name> {
    var l := Labels(name);
    var n := |l|;
    if n < 4 || l[n - 2] != "cachefly" || l[n - 1] != "net" || !IsVipLabel(l[0]) then None
    else
      var first := if "vip" <= l[0] then "r" + l[0] else l[0];
      var middle := Join(l[1..n - 2], '.');
      if middle == "" then None
      else ParseName(Join([first + "-dstack", if middle == "g-anycast1" then "g" else middle, "cachefly", "net"], '.'))
  }

  /** Joining a joined run is joining its parts. */
  lemma JoinNested(first: string, mid: seq<string>, tail: seq<string>)
    requires |mid| >= 1 && |tail| >= 1
    ensures Join([first, Join(mid, '.')] + tail, '.') == Join([first] + mid + tail, '.')
  {
    hide Join;
    var joined := Join(mid, '.');
    JoinCons(first, [joined] + tail);
    JoinCons(joined, tail);
    assert [first, joined] + tail == [first] + ([joined] + tail);
    JoinCons(first, mid + tail);
    JoinAppend(mid, tail, '.');
    assert [first] + mid + tail == [first] + (mid + tail);
  }

  lemma JoinCons(p: string, rest: seq<string>)
    requires |rest| >= 1
    ensures Join([p] + rest, '.') == p + ['.'] + Join(rest, '.')
  {
    assert ([p] + rest)[1..] == rest;
  }

  /** What the text surgery amounts to on labels. */
  function CacheflyTarget(l: Labelled): Labelled
    requires |l| >= 4
  {
    var middle := l[1..|l| - 2];
    [(if "vip" <= l[0] then "r" + l[0] else l[0]) + "-dstack"]
    + (if middle == ["g-anycast1"] then ["g"] else middle)
    + ["cachefly", "net"]
  }

  lemma CacheflyTargetValid(l: Labelled)
    requires |l| >= 4 && ValidName(l)
    ensures ValidName(CacheflyTarget(l))
  {
    var middle := l[1..|l| - 2];
    assert forall i :: 0 <= i < |middle| ==> middle[i] == l[i + 1];
  }

  lemma CacheflyLabels(name: Name)
    requires ValidName(name) && Cachefly(name).Some?
    ensures Cachefly(name).value == CacheflyTarget(Labels(name))
  {
    LabelsValid(name);
    var l := Labels(name);
    CacheflyTargetValid(l);
    CacheflyText(l);
    assert Cachefly(name) == ParseName(Join(CacheflyTarget(l), '.'));
    hide *;
    ParseJoined(CacheflyTarget(l));
  }

  /** The formatted text is the target's labels, joined. */
  lemma CacheflyText(l: Labelled)
    requires |l| >= 4 && ValidName(l)
    ensures var first := if "vip" <= l[0] then "r" + l[0] else l[0]; var middle := Join(l[1..|l| - 2], '.');
      Join([first + "-dstack", if middle == "g-anycast1" then "g" else middle, "cachefly", "net"], '.') == Join(CacheflyTarget(l), '.')
  {
    var middle := l[1..|l| - 2];
    MiddleIs(middle, l);
    var first := (if "vip" <= l[0] then "r" + l[0] else l[0]) + "-dstack";
    var mid := if middle == ["g-anycast1"] then ["g"] else middle;
    assert Join(["g"], '.') == "g";
    hide Join;
    JoinNested(first, mid, ["cachefly", "net"]);
    assert [first, Join(mid, '.')] + ["cachefly", "net"] == [first, Join(mid, '.'), "cachefly", "net"];
  }

  lemma MiddleIs(middle: Labelled, l: Labelled)
    requires |l| >= 4 && ValidName(l) && middle == l[1..|l| - 2]
    ensures Join(middle, '.') == "g-anycast1" <==> middle == ["g-anycast1"]
  {
    assert forall i :: 0 <= i < |middle| ==> middle[i] == l[i + 1];
    assert Join(["g-anycast1"], '.') == "g-anycast1";
    hide Join;
    if Join(middle, '.') == "g-anycast1" {
      JoinInjective(middle, ["g-anycast1"], '.');
    }
  }

  lemma ParseJoined(r: Name)
    requires ValidName(r) && |r| >= 1
    ensures ParseName(Join(r, '.')) == Some(r)
  {
    JoinNotDotEnded(r);
    TrimEndOnce(Join(r, '.'), '.');
    ParsePrinted(r);
  }

  /** The CacheFly rewrite never matches its own output. */
  lemma CacheflyNeverRepeats(name: Name)
    requires ValidName(name) && Cachefly(name).Some?
    ensures Cachefly(Cachefly(name).value) == None
  {
    CacheflyLabels(name);
    var l := Labels(name);
    LabelsValid(name);
    CacheflyTargetValid(l);
    LabelsAreLowered(CacheflyTarget(l));
    var v := Lower(CacheflyTarget(l)[0]);
    assert v[|v| - 1] == 'k';
    assert !IsVipLabel(v);
  }

  // ---------------------------------------------------------------- what exactly is answered

  /** The labels end in those. */
  ghost predicate Ends(l: Labelled, suffix: Labelled) {
    exists head :: l == head + suffix
  }

  /** A rewrite with clean, nonempty labels answers exactly what it makes of the lower-cased
      labels. */
  lemma RewrittenIs(f: Labelled -> Option<Labelled>, name: Name)
    requires ValidName(name)
    requires f(LowerAll(name)).Some? ==> ValidName(f(LowerAll(name)).value) && FreeOf(f(LowerAll(name)).value, '.')
    ensures Rewritten(f, name) == f(LowerAll(name))
  {
    LabelsAreLowered(name);
    if f(LowerAll(name)).Some? {
      var l := f(LowerAll(name)).value;
      assert forall i :: 0 <= i < |l| ==> l[i] != "";
      assert l != [""] by { assert |l| > 0 ==> l[0] != ""; }
      hide Labels, LowerAll;
      RejoinedLabels(l);
    }
  }

  lemma LoweredValid(name: Name)
    requires ValidName(name)
    ensures ValidName(LowerAll(name)) && FreeOf(LowerAll(name), '.')
  {
    LabelsAreLowered(name);
    LabelsValid(name);
  }

  lemma PartsValid(a: Labelled, b: Labelled)
    requires ValidName(a + b) && FreeOf(a + b, '.')
    ensures ValidName(a) && FreeOf(a, '.') && ValidName(b) && FreeOf(b, '.')
  {
    hide Without;
    assert forall i :: 0 <= i < |a| ==> (a + b)[i] == a[i];
    assert forall i :: 0 <= i < |b| ==> (a + b)[|a| + i] == b[i];
  }

  lemma WholeValid(a: Labelled, b: Labelled)
    requires ValidName(a) && FreeOf(a, '.') && ValidName(b) && FreeOf(b, '.')
    ensures ValidName(a + b) && FreeOf(a + b, '.')
  {
    hide Without;
  }

  /** What is read off a list that ends so. */
  lemma EndsAt(head: Labelled, suffix: Labelled)
    ensures var l := head + suffix;
      l[..|head|] == head && l[|head|..] == suffix && forall k :: 0 <= k < |suffix| ==> l[|head| + k] == suffix[k]
  {
  }

  lemma EndsBack(l: Labelled, suffix: Labelled)
    requires |l| >= |suffix| && l[|l| - |suffix|..] == suffix
    ensures Ends(l, suffix)
  {
    assert l == l[..|l| - |suffix|] + suffix;
  }

  /** AWS Global Accelerator names get a `dualstack` in front of the service, once. */
  lemma AwsGlbAnswers(name: Name, head: Labelled)
    requires ValidName(name) && LowerAll(name) == head + ["awsglobalaccelerator", "com"]
    ensures Rewritten(AwsGlb, name) ==
      if |head| > 0 && head[|head| - 1] == "dualstack" then Some(head + ["awsglobalaccelerator", "com"])
      else Some(head + ["dualstack", "awsglobalaccelerator", "com"])
  {
    var tail := ["awsglobalaccelerator", "com"];
    LoweredValid(name);
    PartsValid(head, tail);
    EndsAt(head, tail);
    var l := LowerAll(name);
    hide LowerAll, ValidName, FreeOf;
    assert l[|l| - 1] == "com" && l[|l| - 2] == "awsglobalaccelerator" && l[..|l| - 2] == head && l[|l| - 2..] == tail;
    assert |l| >= 3 ==> l[|l| - 3] == head[|head| - 1];
    assert head + ["dualstack"] + tail == head + ["dualstack", "awsglobalaccelerator", "com"];
    DualStackValid();
    WholeValid(head, ["dualstack", "awsglobalaccelerator", "com"]);
    RewrittenIs(AwsGlb, name);
  }

  lemma DualStackValid()
    ensures ValidName(["dualstack", "awsglobalaccelerator", "com"]) && FreeOf(["dualstack", "awsglobalaccelerator", "com"], '.')
  {
    assert Without("dualstack", '.') && Without("awsglobalaccelerator", '.') && Without("com", '.');
  }

  /** Only they do. */
  lemma AwsGlbOnly(name: Name)
    requires ValidName(name)
    ensures Rewritten(AwsGlb, name).Some? <==> Ends(LowerAll(name), ["awsglobalaccelerator", "com"])
  {
    LabelsAreLowered(name);
    var l := LowerAll(name);
    var suffix := ["awsglobalaccelerator", "com"];
    hide LowerAll, Labels;
    if Ends(l, suffix) {
      var head :| l == head + suffix;
      AwsGlbAnswers(name, head);
    }
    if AwsGlb(l).Some? {
      assert l[|l| - 2..] == suffix;
      EndsBack(l, suffix);
    }
  }

  /** Azure Websites names get the dual-stack address family as their fourth label from the
      end, whatever it was. */
  lemma AzureAnswers(name: Name, head: Labelled, x: string)
    requires ValidName(name) && LowerAll(name) == head + [x, "azurewebsites", "windows", "net"]
    ensures Rewritten(Azure, name) == Some(head + ["sip-v4andv6", "azurewebsites", "windows", "net"])
  {
    var tail := [x, "azurewebsites", "windows", "net"];
    LoweredValid(name);
    PartsValid(head, tail);
    EndsAt(head, tail);
    var l := LowerAll(name);
    hide LowerAll, ValidName, FreeOf;
    assert l[..|l| - 4] == head && l[|l| - 3..] == ["azurewebsites", "windows", "net"];
    assert head + ["sip-v4andv6"] + ["azurewebsites", "windows", "net"] == head + ["sip-v4andv6", "azurewebsites", "windows", "net"];
    SipValid();
    WholeValid(head, ["sip-v4andv6", "azurewebsites", "windows", "net"]);
    RewrittenIs(Azure, name);
  }

  lemma SipValid()
    ensures var l := ["sip-v4andv6", "azurewebsites", "windows", "net"]; ValidName(l) && FreeOf(l, '.')
  {
    assert Without("sip-v4andv6", '.') && Without("azurewebsites", '.') && Without("windows", '.') && Without("net", '.');
  }

  lemma AzureOnly(name: Name)
    requires ValidName(name)
    ensures Rewritten(Azure, name).Some? <==>
      Ends(LowerAll(name), ["azurewebsites", "windows", "net"]) && |name| >= 4
  {
    LabelsAreLowered(name);
    var l := LowerAll(name);
    var suffix := ["azurewebsites", "windows", "net"];
    assert |l| == |name|;
    hide LowerAll, Labels;
    if Ends(l, suffix) && |name| >= 4 {
      var head :| l == head + suffix;
      assert l == head[..|head| - 1] + [head[|head| - 1], "azurewebsites", "windows", "net"];
      AzureAnswers(name, head[..|head| - 1], head[|head| - 1]);
    }
    if Azure(l).Some? {
      EndsBack(l, suffix);
    }
  }

  /** Akamai names get `dsc` put to their third label from the end, `ds` if that is `cj`. */
  lemma AkamaiAnswers(name: Name, head: Labelled, x: string, edge: string)
    requires ValidName(name) && LowerAll(name) == head + [x, edge, "net"] && (edge == "akamaiedge" || edge == "akamai")
    ensures Rewritten(Akamai, name) == Some(head + [if x == "cj" then "dscj" else "dsc" + x, edge, "net"])
  {
    var tail := [x, edge, "net"];
    LoweredValid(name);
    PartsValid(head, tail);
    EndsAt(head, tail);
    var y := if x == "cj" then "dscj" else "dsc" + x;
    assert "ds" + "cj" == "dscj";
    PrefixedValid(x, edge, y);
    var l := LowerAll(name);
    hide LowerAll, ValidName, FreeOf;
    assert l[..|l| - 3] == head && l[|l| - 2..] == [edge, "net"] && l[|l| - 3] == x;
    assert head + [y] + [edge, "net"] == head + [y, edge, "net"];
    WholeValid(head, [y, edge, "net"]);
    RewrittenIs(Akamai, name);
  }

  lemma PrefixedValid(x: string, edge: string, y: string)
    requires ValidName([x, edge, "net"]) && (y == "dsc" + x || y == "dscj")
    ensures ValidName([y, edge, "net"]) && FreeOf([y, edge, "net"], '.')
  {
    var l := [x, edge, "net"];
    assert l[0] == x && l[1] == edge && l[2] == "net";
    assert '.' !in "dsc" && '.' !in "dscj";
    assert Without(y, '.') && Without(edge, '.') && Without("net", '.');
  }

  lemma AkamaiTaken(name: Name, edge: string)
    requires ValidName(name) && |name| >= 3 && (edge == "akamaiedge" || edge == "akamai") && Ends(LowerAll(name), [edge, "net"])
    ensures Rewritten(Akamai, name).Some?
  {
    var l := LowerAll(name);
    assert |l| == |name|;
    hide LowerAll;
    var head :| l == head + [edge, "net"];
    assert l == head[..|head| - 1] + [head[|head| - 1], edge, "net"];
    AkamaiAnswers(name, head[..|head| - 1], head[|head| - 1], edge);
  }

  lemma AkamaiOnly(name: Name)
    requires ValidName(name)
    ensures Rewritten(Akamai, name).Some? <==>
      (Ends(LowerAll(name), ["akamaiedge", "net"]) || Ends(LowerAll(name), ["akamai", "net"])) && |name| >= 3
  {
    LabelsAreLowered(name);
    var l := LowerAll(name);
    assert |l| == |name|;
    hide LowerAll, Labels;
    if Akamai(l).Some? {
      var tail := [l[|l| - 2], "net"];
      assert l[|l| - 2..] == tail;
      EndsBack(l, tail);
    }
    hide Ends;
    if |name| >= 3 && Ends(l, ["akamaiedge", "net"]) {
      AkamaiTaken(name, "akamaiedge");
    }
    if |name| >= 3 && Ends(l, ["akamai", "net"]) {
      AkamaiTaken(name, "akamai");
    }
  }

  // ---------------------------------------------------------------- CacheFly

  /** `vip` or `rvip` and digits. */
  ghost predicate VipOf(x: string, d: string) {
    d != "" && (forall i :: 0 <= i < |d| ==> '0' <= d[i] <= '9') && (x == "vip" + d || x == "rvip" + d)
  }

  lemma VipLabels(x: string)
    ensures IsVipLabel(x) <==> exists d :: VipOf(x, d)
  {
    if IsVipLabel(x) {
      var s := if "r" <= x then x[1..] else x;
      var d := s[3..];
      assert s == "vip" + d;
      assert "r" <= x ==> x == "r" + s && "r" + ("vip" + d) == "rvip" + d;
      assert VipOf(x, d);
    }
    if d :| VipOf(x, d) {
      VipIs(x, d);
    }
  }

  lemma VipIs(x: string, d: string)
    requires VipOf(x, d)
    ensures IsVipLabel(x) && (if "vip" <= x then "r" + x else x) == "rvip" + d
  {
    if x == "vip" + d {
      assert x[0] == 'v' && x[3..] == d && !("r" <= x);
      assert "r" + ("vip" + d) == "rvip" + d;
    } else {
      assert x[0] == 'r' && x[1..] == "vip" + d && x[1..][3..] == d && !("vip" <= x);
    }
  }

  /** CacheFly names with a VIP label in front get its dual-stack variant, and everything
      between kept, but that `g-anycast1` alone becomes `g`. */
  lemma CacheflyAnswers(name: Name, x: string, d: string, mid: Labelled)
    requires ValidName(name) && LowerAll(name) == [x] + mid + ["cachefly", "net"] && VipOf(x, d) && |mid| >= 1
    ensures Cachefly(name) == Some(["rvip" + d + "-dstack"] + (if mid == ["g-anycast1"] then ["g"] else mid) + ["cachefly", "net"])
  {
    LabelsAreLowered(name);
    LabelsValid(name);
    var l := Labels(name);
    VipIs(x, d);
    assert l[0] == x && l[1..|l| - 2] == mid && l[|l| - 2] == "cachefly" && l[|l| - 1] == "net";
    hide LowerAll, Labels, IsVipLabel;
    CacheflyAccepts(name, mid);
    CacheflyLabels(name);
  }

  lemma CacheflyAccepts(name: Name, mid: Labelled)
    requires ValidName(name) && |Labels(name)| >= 4
    requires var l := Labels(name); l[1..|l| - 2] == mid && l[|l| - 2] == "cachefly" && l[|l| - 1] == "net" && IsVipLabel(l[0])
    ensures Cachefly(name).Some?
  {
    LabelsValid(name);
    var l := Labels(name);
    assert forall i :: 0 <= i < |mid| ==> mid[i] == l[i + 1];
    JoinNotDotEnded(mid);
    CacheflyTargetValid(l);
    CacheflyText(l);
    hide Labels, IsVipLabel, CacheflyTarget;
    ParseJoined(CacheflyTarget(l));
  }

  lemma CacheflyOnly(name: Name)
    requires ValidName(name)
    ensures Cachefly(name).Some? <==>
      |name| >= 4 && Ends(LowerAll(name), ["cachefly", "net"]) && exists d :: VipOf(LowerAll(name)[0], d)
  {
    LabelsAreLowered(name);
    var l := LowerAll(name);
    assert |l| == |name|;
    hide LowerAll, Labels;
    if |l| > 0 {
      VipLabels(l[0]);
    }
    if |l| >= 4 && Ends(l, ["cachefly", "net"]) && IsVipLabel(l[0]) {
      var head :| l == head + ["cachefly", "net"];
      CacheflyAccepts(name, l[1..|l| - 2]);
    }
    if Cachefly(name).Some? {
      assert l[|l| - 2..] == ["cachefly", "net"];
      EndsBack(l, ["cachefly", "net"]);
    }
  }
}
