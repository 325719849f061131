/** The object-store rewrites (AWS S3, Alibaba OSS, Oracle): JS ports that edit a
    reversed label list with splices. Every index they use is in bounds for every
    name, because these methods and functions verify without a precondition. */
module ObjectStores {
  import opened Text
  import opened Dns
  import opened Rewrites

  // ================================================================ S3

  /** The endpoint forms the port tells apart: accelerated; with the service keyword in the
      fourth place from the TLD, `s3-website` separately; and with `s3` dashed into the
      third or standing there alone. */
  datatype S3Kind = Accelerated | Keyword | Site | Dashed | DashedSite | DashedRegion | Global

  /** The form of a reversed list `s` (TLD first, `cn` already removed when `cn`), if it has one. */
  function S3KindOf(s: Labelled, cn: bool): Option<S3Kind>
    requires |s| > 2
  {
    var ss := Split(s[2], '-');
    if Idx(s, "s3-accelerate") == 2 then Some(Accelerated)
    else if Idx(s, "s3-accesspoint") == 3 then Some(Keyword)
    else if Idx(s, "s3-website") == 3 then Some(Site)
    else if Idx(s, "console-l") == 2 then None
    else if ss[0] == "s3" && (|ss| == 2 || |ss| == 3) && !cn then Some(Dashed)
    else if Idx(s, "s3") == 3 || Idx(s, "s3-control") == 3 then Some(Keyword)
    else if ss[0] == "s3" && |ss| > 1 && ss[1] == "website" then Some(DashedSite)
    else if |ss| > 1 then (if ss[0] != "s3" then None else Some(DashedRegion))
    else if Idx(s, "s3") == 2 && !cn then Some(Global)
    else None
  }

  /** The region a dashed service label spells. */
  function DashedRegionOf(service: string, cn: bool): string {
    var ss := Split(service, '-');
    Join(if |ss| == 4 && !cn then ss[1..] else ss, '-')
  }

  /** What the splices make of a list of that form. */
  function S3Edit(k: S3Kind, s: Labelled, cn: bool): Labelled
    requires |s| > 2
  {
    var t := if |s| == 5 then s + [s[4]] else s;
    match k
    case Accelerated => Insert(t, 2, "dualstack")
    case Keyword => Drop(t, 4)
    case Site => Drop(t, 4)
    case Dashed =>
      var ss, u := Split(s[2], '-'), Insert(t, 2, "us-east-1");
      if |ss| > 1 && ss[1] == "1" then u[3 := "s3-r-w"] else u
    case DashedSite => t[..2] + ["us-east-1", "s3-website"] + (if |t| > 4 then t[4..] else [])
    case DashedRegion => t[..2] + [DashedRegionOf(s[2], cn)] + (if Idx(s, "s3") == -1 then ["s3"] else []) + t[3..]
    case Global => Insert(t, 2, "us-east-1")
  }

  /** The edited list, and whether `cn` returns. */
  function S3Form(s: Labelled, cn: bool): Option<(Labelled, bool)>
    requires |s| > 2
  {
    match S3KindOf(s, cn)
    case None => None
    case Some(k) => Some((S3Edit(k, s, cn), cn && !k.Accelerated? && !k.Site?))
  }

  /** The whole port on a reversed list. */
  function S3Reversed(s0: Labelled): Option<Labelled> {
    var cn := Idx(s0, "cn") == 0;
    var s := if cn then s0[1..] else s0;
    if Idx(s, "amazonaws") != 1 || |s| <= 2 || Idx(s, "dualstack") == 3 then None
    else match S3Form(s, cn)
      case None => None
      case Some((t, keep)) =>
        var u := if |t| > 2 && t[2] == "dualstack" then t else Insert(t, 3, "dualstack");
        Some(if keep then ["cn"] + u else u)
  }

  function S3(l: Labelled): Option<Labelled> {
    match S3Reversed(Reverse(l))
    case None => None
    case Some(r) => Some(Reverse(r))
  }

  method S3Rewrite(name: Name) returns (r: Option<Name>)
    ensures r == Rewritten(S3, name)
  {
    var l := Labels(name);
    hide Idx, S3Form, Labels, NameFromLabels;
    var s := Reverse(l);
    ghost var s0 := s;
    var dp1 := Idx(s, "cn");
    if dp1 == 0 {
      s := s[1..];
    }
    var dp2 := Idx(s, "amazonaws");
    var dpff := Idx(s, "dualstack");
    if (dpff == 3 && dp2 == 1) || !(dp2 == 1 && |s| > 2) {
      assert S3(l) == None;
      return None;
    }
    var ok;
    ok, s, dp1 := S3Splices(s, dp1);
    if !ok {
      assert S3(l) == None;
      return None;
    }
    if |s| <= 2 || s[2] != "dualstack" {
      s := Insert(s, 3, "dualstack");
    }
    if dp1 == 0 {
      assert Insert(s, 0, "cn") == ["cn"] + s;
      s := Insert(s, 0, "cn");
    }
    assert Some(s) == S3Reversed(s0);
    s := Reverse(s);
    r := NameFromLabels(s);
  }

  /** The splice cascade in the middle of the port. */
  method S3Splices(s0: Labelled, dp0: int) returns (ok: bool, s: Labelled, dp1: int)
    requires |s0| > 2 && Idx(s0, "amazonaws") == 1
    ensures ok == S3Form(s0, dp0 == 0).Some?
    ensures ok ==> S3Form(s0, dp0 == 0) == Some((s, dp1 == 0))
  {
    hide Idx, Split, Join;
    ok, s, dp1 := true, s0, dp0;
    var dp3, dp4 := Idx(s, "s3"), Idx(s, "s3-control");
    var dp6, dp7 := Idx(s, "s3-accelerate"), Idx(s, "s3-accesspoint");
    var dp8, dp9 := Idx(s, "s3-website"), Idx(s, "console-l");
    var ssdomains := Split(s[2], '-');
    if |s| == 5 {
      s := s + [s[4]];
    }
    if dp6 == 2 {
      s := Insert(s, 2, "dualstack");
      dp1 := -1;
    } else if dp7 == 3 {
      s := Drop(s, 4);
    } else if dp8 == 3 {
      s := Drop(s, 4);
      dp1 := -1;
    } else if dp9 == 2 {
      ok := false;
    } else if ssdomains[0] == "s3" && (|ssdomains| == 3 || |ssdomains| == 2) && dp1 != 0 {
      s := Insert(s, 2, "us-east-1");
      if ssdomains[1] == "1" {
        s := s[3 := "s3-r-w"];
      }
    } else if dp3 == 3 || dp4 == 3 {
      s := Drop(s, 4);
    } else if ssdomains[0] == "s3" && |ssdomains| > 1 && ssdomains[1] == "website" {
      ghost var t := s;
      s := Replace(s, 2, "us-east-1");
      s := Replace(s, 3, "s3-website");
      assert s == t[..2] + ["us-east-1", "s3-website"] + (if |t| > 4 then t[4..] else []);
    } else if |ssdomains| > 1 {
      if ssdomains[0] != "s3" {
        ok := false;
      } else {
        ghost var t := s;
        s := Drop(s, 2);
        var region := ssdomains;
        if |region| == 4 && dp1 != 0 {
          region := region[1..];
        }
        s := Insert(s, 2, Join(region, '-'));
        if dp3 == -1 {
          s := Insert(s, 3, "s3");
        }
        assert s == t[..2] + [Join(region, '-')] + (if dp3 == -1 then ["s3"] else []) + t[3..];
      }
    } else if dp3 == 2 && dp1 != 0 {
      s := Insert(s, 2, "us-east-1");
    } else {
      ok := false;
    }
  }

  /** `amazonaws` stays next to the TLD and `dualstack` lands right behind the region
      slot, at reversed position 2 or 3. */
  ghost predicate DualStackS3(u: Labelled) {
    && |u| >= 4 && u[1] == "amazonaws"
    && (u[2] == "dualstack" || u[3] == "dualstack")
  }

  lemma S3FormShape(s: Labelled, cn: bool)
    requires |s| > 2 && S3Form(s, cn).Some?
    ensures var (t, keep) := S3Form(s, cn).value;
      && |t| >= 3 && t[0] == s[0] && t[1] == s[1] && (keep ==> cn)
      && (t[2] == "dualstack" ==> |t| >= 4)
  {
    if |S3Form(s, cn).value.0| == 3 {
      S3FormShort(s, cn);
    }
    hide Idx, Split, Join;
  }

  /** A three-label result does not read `dualstack` in the region slot. */
  lemma S3FormShort(s: Labelled, cn: bool)
    requires |s| > 2 && S3Form(s, cn).Some? && |S3Form(s, cn).value.0| == 3
    ensures S3Form(s, cn).value.0[2] != "dualstack"
  {
    DashedRegionHyphen(s, cn);
    hide Idx, S3KindOf, DashedRegionOf;
    assert '-' !in "dualstack";
  }

  /** A dashed region keeps a hyphen. */
  lemma DashedRegionHyphen(s: Labelled, cn: bool)
    requires |s| > 2
    ensures S3KindOf(s, cn) == Some(DashedRegion) ==> '-' in DashedRegionOf(s[2], cn)
    ensures S3KindOf(s, cn) == Some(Keyword) || S3KindOf(s, cn) == Some(Site) ==> |s| > 3
  {
    var ss := Split(s[2], '-');
    JoinHasSeparator(ss, '-');
    if |ss| > 1 {
      JoinHasSeparator(ss[1..], '-');
    }
    hide Idx, Split, Join;
  }

  lemma JoinHasSeparator(parts: seq<string>, c: char)
    ensures |parts| >= 2 ==> c in Join(parts, c)
  {
    if |parts| >= 2 {
      assert Join(parts, c)[|parts[0]|] == c;
    }
  }

  /** Every answer of the S3 rewrite is a dual-stack name under the TLD it came with; a
      `cn` in front is the one that was taken off. */
  lemma S3ShapeReversed(s0: Labelled)
    requires S3Reversed(s0).Some?
    ensures var cn := |s0| > 0 && s0[0] == "cn"; var s := if cn then s0[1..] else s0;
      var r := S3Reversed(s0).value;
      && |s| > 2 && s[1] == "amazonaws"
      && exists u: Labelled :: DualStackS3(u) && u[..2] == s[..2] && (r == u || (cn && r == ["cn"] + u))
  {
    var cn := Idx(s0, "cn") == 0;
    var s := if cn then s0[1..] else s0;
    IdxIsFirst(s, "amazonaws");
    IdxIsFirst(s0, "cn");
    assert cn == (|s0| > 0 && s0[0] == "cn");
    S3FormShape(s, cn);
    hide Idx, S3Form;
    var (t, keep) := S3Form(s, cn).value;
    InsertedShape(t);
    hide Insert, DualStackS3;
    var u := if |t| > 2 && t[2] == "dualstack" then t else Insert(t, 3, "dualstack");
    assert DualStackS3(u) && u[..2] == s[..2];
  }

  lemma InsertedShape(t: Labelled)
    requires |t| > 2 && t[1] == "amazonaws" && (t[2] == "dualstack" ==> |t| > 3)
    ensures var u := if t[2] == "dualstack" then t else Insert(t, 3, "dualstack"); DualStackS3(u) && u[..2] == t[..2]
  {
  }

  /** Which forms can leave `dualstack` in the region slot: the accelerated one, which
      puts it there, and the keyword ones, when it was there before. */
  lemma S3FormRegion(s: Labelled, cn: bool)
    requires |s| > 2 && S3KindOf(s, cn).Some? && !S3KindOf(s, cn).value.Accelerated?
    ensures var k := S3KindOf(s, cn).value; var t := S3Edit(k, s, cn);
      |t| > 2 && (t[2] == "dualstack" <==> s[2] == "dualstack")
      && (t[2] == "dualstack" ==> (k.Keyword? || k.Site?) && |s| > 3 && |t| > 3 && t[3] == s[3])
  {
    DashedRegionHyphen(s, cn);
    if s[2] == "dualstack" {
      DualStackKind(s, cn);
    }
    hide Idx, S3KindOf, DashedRegionOf, Split;
    assert '-' !in "dualstack" && '-' in "us-east-1";
  }

  /** With `dualstack` in the region slot only the accelerated and keyword forms are left. */
  lemma DualStackKind(s: Labelled, cn: bool)
    requires |s| > 2 && s[2] == "dualstack"
    ensures S3KindOf(s, cn) == None
      || S3KindOf(s, cn) == Some(Accelerated) || S3KindOf(s, cn) == Some(Keyword) || S3KindOf(s, cn) == Some(Site)
    ensures S3KindOf(s, cn) != Some(Accelerated)
  {
    IdxIsFirst(s, "s3-accelerate");
    IdxIsFirst(s, "s3");
    SplitPiece("dualstack", '-');
    hide Idx, Split, Join;
  }

  /** The port on a list it might itself have answered: refused if the first `dualstack` is
      where it belongs, or if no form is left. */
  lemma S3Again(u: Labelled, cn: bool)
    requires |u| > 3 && u[0] != "amazonaws" && u[1] == "amazonaws" && (u[0] == "cn" ==> cn)
    ensures S3Reversed(if cn then ["cn"] + u else u) == None <==>
      (u[0] != "dualstack" && u[2] != "dualstack" && u[3] == "dualstack") || S3KindOf(u, cn) == None
  {
    var r := if cn then ["cn"] + u else u;
    IdxIsFirst(r, "cn");
    assert (["cn"] + u)[1..] == u && (["cn"] + u)[0] == "cn";
    IdxIsFirst(u, "amazonaws");
    IdxIsFirst(u, "dualstack");
    hide Idx, S3KindOf, S3Edit;
  }

  /** Without the `cn` that was in front of it, a TLD `cn` is taken for that one. */
  lemma CnTakenOff(u: Labelled)
    requires |u| > 3 && u[0] == "cn" && u[1] == "amazonaws"
    ensures S3Reversed(u) == None
  {
    IdxIsFirst(u, "cn");
    IdxIsFirst(u[1..], "amazonaws");
    hide Idx, S3Form;
  }

  /** A label that is an S3 service in the region slot, with nothing to help it. */
  predicate ServiceAlone(x: string, cn: bool) {
    var ss := Split(x, '-');
    ss[0] == "s3" && (|ss| > 1 || !cn)
  }

  lemma AloneKind(u: Labelled, cn: bool)
    requires |u| > 3 && u[0] == "dualstack" && u[1] == "amazonaws" && u[2] != "dualstack" && u[3] == "dualstack"
    ensures S3KindOf(u, cn).Some? <==> ServiceAlone(u[2], cn)
  {
    IdxIsFirst(u, "s3-accelerate");
    IdxIsFirst(u, "s3-accesspoint");
    IdxIsFirst(u, "s3-website");
    IdxIsFirst(u, "s3-control");
    IdxIsFirst(u, "s3");
    IdxIsFirst(u, "console-l");
    KeywordPieces(u[2]);
    hide Idx, Split, Join;
  }

  /** How the keywords read as pieces. */
  lemma KeywordPieces(x: string)
    ensures x == "s3-accelerate" ==> Split(x, '-') == ["s3", "accelerate"]
    ensures x == "console-l" ==> Split(x, '-') == ["console", "l"]
    ensures x == "s3" <==> Split(x, '-') == ["s3"]
  {
    hide Split, Join;
    TwoPieces("s3", "accelerate");
    TwoPieces("console", "l");
    OnePiece(x, "s3");
    KeywordTexts();
  }

  lemma KeywordTexts()
    ensures "s3" + ['-'] + "accelerate" == "s3-accelerate" && "console" + ['-'] + "l" == "console-l"
    ensures '-' !in "s3" && '-' !in "accelerate" && '-' !in "console" && '-' !in "l"
  {
  }

  lemma TwoPieces(a: string, b: string)
    ensures '-' !in a && '-' !in b ==> Split(a + ['-'] + b, '-') == [a, b]
  {
    if '-' !in a && '-' !in b {
      SplitAt(a, '-', b);
      SplitPiece(b, '-');
    }
  }

  lemma OnePiece(x: string, piece: string)
    ensures '-' !in piece ==> (x == piece <==> Split(x, '-') == [piece])
  {
    if '-' !in piece {
      SplitPiece(piece, '-');
      JoinSplit(x, '-');
      assert Join([piece], '-') == piece;
    }
  }

  /** The accelerated form, edited, is of no form. */
  lemma AcceleratedOnce(u: Labelled)
    requires |u| > 3 && u[2] == "dualstack" && u[3] == "s3-accelerate"
    ensures S3KindOf(u, false) == None
  {
    IdxIsFirst(u, "s3-accelerate");
    IdxIsFirst(u, "s3-accesspoint");
    IdxIsFirst(u, "s3-website");
    IdxIsFirst(u, "s3");
    IdxIsFirst(u, "s3-control");
    SplitPiece("dualstack", '-');
    hide Idx, Split, Join;
  }

  lemma IdxCarries(s: Labelled, u: Labelled, k: string)
    requires |s| > 3 && |u| > 3 && s[..4] == u[..4]
    ensures Idx(s, k) == 3 <==> Idx(u, k) == 3
    ensures Idx(s, k) == 2 <==> Idx(u, k) == 2
  {
    IdxIsFirst(s, k);
    IdxIsFirst(u, k);
    assert forall i :: 0 <= i < 4 ==> s[i] == s[..4][i] && u[i] == u[..4][i];
  }

  /** A keyword form stays one, with `cn` or without, as long as its first four labels do. */
  lemma KeywordAgain(s: Labelled, u: Labelled, cn: bool, cn': bool)
    requires |s| > 3 && |u| > 3 && s[2] == "dualstack" && s[..4] == u[..4]
    requires S3KindOf(s, cn).Some? && (S3KindOf(s, cn).value.Keyword? || S3KindOf(s, cn).value.Site?)
    ensures S3KindOf(u, cn').Some?
  {
    IdxCarries(s, u, "s3-accesspoint");
    IdxCarries(s, u, "s3-website");
    IdxCarries(s, u, "s3");
    IdxCarries(s, u, "s3-control");
    IdxCarries(s, u, "s3-accelerate");
    IdxCarries(s, u, "console-l");
    assert u[2] == u[..4][2] && s[2] == s[..4][2];
    SplitPiece("dualstack", '-');
    hide Idx, Split, Join;
  }

  /** What a form leaves in the region slot. */
  function RegionSlot(k: S3Kind, s: Labelled, cn: bool): string
    requires |s| > 2
  {
    match k
    case Accelerated => "dualstack"
    case Keyword => s[2]
    case Site => s[2]
    case DashedRegion => DashedRegionOf(s[2], cn)
    case _ => "us-east-1"
  }

  /** The names whose answer the rewrite takes again: those whose region slot already read
      `dualstack`, unless they lost the `cn` in front of a TLD `cn`; and under a TLD
      `dualstack`, which hides the inserted label, those whose slot holds a service. */
  predicate TakenAgain(k: S3Kind, s: Labelled, cn: bool)
    requires |s| > 2
  {
    if s[2] == "dualstack" then !(s[0] == "cn" && k.Site?)
    else s[0] == "dualstack" && !k.Accelerated? && ServiceAlone(RegionSlot(k, s, cn), cn && !k.Site?)
  }

  /** The rewrite refuses its own answer exactly unless the name was of that kind, for every
      reversed list it accepts. Under any other TLD than `cn` and `dualstack` that is: exactly
      unless the region slot already read `dualstack`. */
  lemma S3OwnAnswer(s0: Labelled)
    requires S3Reversed(s0).Some?
    ensures var cn := Idx(s0, "cn") == 0; var s := if cn then s0[1..] else s0;
      && |s| > 2 && S3KindOf(s, cn).Some?
      && (S3Reversed(S3Reversed(s0).value) == None <==> !TakenAgain(S3KindOf(s, cn).value, s, cn))
      && (s[0] != "cn" && s[0] != "dualstack" ==> (TakenAgain(S3KindOf(s, cn).value, s, cn) <==> s[2] == "dualstack"))
  {
    var cn := Idx(s0, "cn") == 0;
    var s := if cn then s0[1..] else s0;
    S3ReversedForm(s0);
    S3ReversedHead(s0);
    var k := S3KindOf(s, cn).value;
    S3FormShape(s, cn);
    hide Idx, S3Reversed, S3KindOf, S3Edit, Finished, ServiceAlone;
    FinishedAgain(s, cn, k, S3Edit(k, s, cn));
  }

  lemma FinishedAgain(s: Labelled, cn: bool, k: S3Kind, t: Labelled)
    requires |s| > 2 && S3KindOf(s, cn) == Some(k) && t == S3Edit(k, s, cn)
    requires s[0] != "amazonaws" && s[1] == "amazonaws" && (s[0] == "cn" ==> cn)
    requires |t| > 2 && t[0] == s[0] && t[1] == s[1]
    ensures S3Reversed(Finished(t, cn && !k.Accelerated? && !k.Site?)) == None <==> !TakenAgain(k, s, cn)
  {
    var keep := cn && !k.Accelerated? && !k.Site?;
    if k.Accelerated? {
      AcceleratedHead(s, cn);
      hide Idx, S3Reversed, S3KindOf, S3Edit, ServiceAlone;
      AcceleratedOnce(t);
      OwnTld(t, false);
    } else {
      S3FormRegion(s, cn);
      SlotLeft(s, cn, k);
      hide Idx, S3Reversed, S3KindOf, S3Edit, ServiceAlone, RegionSlot;
      if t[2] == "dualstack" {
        assert s[..4] == t[..4];
        KeywordAgain(s, t, cn, keep);
        OwnTld(t, keep);
      } else {
        InsertedSlot(t);
        var u := Insert(t, 3, "dualstack");
        hide Insert;
        if u[0] == "dualstack" {
          AloneKind(u, keep);
        }
        OwnTld(u, keep);
      }
    }
  }

  lemma InsertedSlot(t: Labelled)
    requires |t| > 2
    ensures var u := Insert(t, 3, "dualstack");
      |u| > 3 && u[3] == "dualstack" && u[2] == t[2] && u[0] == t[0] && u[1] == t[1]
  {
  }

  /** The port on an answer: as on any list, but that a TLD `cn` on its own is taken off. */
  lemma OwnTld(u: Labelled, cn: bool)
    requires |u| > 3 && u[0] != "amazonaws" && u[1] == "amazonaws"
    ensures S3Reversed(if cn then ["cn"] + u else u) == None <==>
      || (u[0] == "cn" && !cn)
      || (u[0] != "dualstack" && u[2] != "dualstack" && u[3] == "dualstack")
      || S3KindOf(u, cn) == None
  {
    hide S3Reversed, S3KindOf;
    if u[0] == "cn" && !cn {
      CnTakenOff(u);
    } else {
      S3Again(u, cn);
    }
  }

  lemma SlotLeft(s: Labelled, cn: bool, k: S3Kind)
    requires |s| > 2 && S3KindOf(s, cn) == Some(k)
    ensures var t := S3Edit(k, s, cn); |t| > 2 && t[2] == RegionSlot(k, s, cn)
    ensures k.Site? || k.Keyword? ==> |s| > 3
  {
    DashedRegionHyphen(s, cn);
    hide Idx, S3KindOf, Split, DashedRegionOf;
  }

  lemma AcceleratedHead(s: Labelled, cn: bool)
    requires |s| > 2 && S3KindOf(s, cn) == Some(Accelerated)
    ensures var t := S3Edit(Accelerated, s, cn); |t| > 3 && t[2] == "dualstack" && t[3] == "s3-accelerate"
    ensures s[2] != "dualstack"
  {
    IdxIsFirst(s, "s3-accelerate");
    hide Idx, Split, Join;
  }

  lemma S3ReversedHead(s0: Labelled)
    requires S3Reversed(s0).Some?
    ensures var s := if Idx(s0, "cn") == 0 then s0[1..] else s0;
      |s| > 2 && s[1] == "amazonaws" && s[0] != "amazonaws" && (s[0] == "cn" ==> Idx(s0, "cn") == 0)
  {
    var s := if Idx(s0, "cn") == 0 then s0[1..] else s0;
    IdxIsFirst(s0, "cn");
    IdxIsFirst(s, "amazonaws");
    hide Idx, S3Form;
  }

  /** The plain regional endpoint `<bucket>.s3.<region>.amazonaws.com`, reversed. */
  function Regional(region: string, bucket: Labelled): Labelled {
    ["com", "amazonaws", region, "s3"] + bucket
  }

  function RegionalDualStack(region: string, bucket: Labelled): Labelled {
    ["com", "amazonaws", region, "dualstack", "s3"] + bucket
  }

  /** A region label that is not itself one of the port's keywords. */
  predicate PlainRegion(region: string) {
    && region != "cn" && region != "amazonaws" && region != "dualstack" && region != "s3"
    && region != "s3-accelerate" && region != "console-l"
    && Split(region, '-')[0] != "s3"
  }

  lemma RegionalForm(region: string, bucket: Labelled)
    requires PlainRegion(region)
    ensures S3Reversed(Regional(region, bucket))
         == Some(RegionalDualStack(region, if |bucket| == 1 then bucket else Drop(bucket, 0)))
  {
    var s := Regional(region, bucket);
    RegionalIdx(region, bucket);
    RegionalSplices(region, bucket);
    var b := if |bucket| == 1 then bucket else Drop(bucket, 0);
    var t := ["com", "amazonaws", region, "s3"] + b;
    assert region != "dualstack" && s[0] == "com" && t[2] == region;
    hide *;
    InsertedDualStack(region, b);
    UnderComWithForm(s, t);
  }

  lemma InsertedDualStack(region: string, b: Labelled)
    ensures Insert(["com", "amazonaws", region, "s3"] + b, 3, "dualstack") == RegionalDualStack(region, b)
  {
    var t := ["com", "amazonaws", region, "s3"] + b;
    assert t[..3] == ["com", "amazonaws", region] && t[3..] == ["s3"] + b;
  }

  lemma UnderComWithForm(s: Labelled, t: Labelled)
    requires |s| > 2 && s[0] == "com" && Idx(s, "amazonaws") == 1 && Idx(s, "dualstack") != 3
    requires S3Form(s, false) == Some((t, false)) && |t| > 2 && t[2] != "dualstack"
    ensures S3Reversed(s) == Some(Insert(t, 3, "dualstack"))
  {
    IdxIsFirst(s, "cn");
    assert "com" != "cn";
    hide Idx, S3Form;
  }

  lemma RegionalSplices(region: string, bucket: Labelled)
    requires PlainRegion(region)
    ensures S3Form(Regional(region, bucket), false)
         == Some((["com", "amazonaws", region, "s3"] + (if |bucket| == 1 then bucket else Drop(bucket, 0)), false))
  {
    var s := Regional(region, bucket);
    RegionalIdx(region, bucket);
    assert s[2] == region;
    KeywordS3Form(s);
    hide Idx, S3Form;
    DropFifth(["com", "amazonaws", region, "s3"], bucket);
  }

  lemma KeywordS3Form(s: Labelled)
    requires |s| > 3 && Idx(s, "s3") == 3 && Split(s[2], '-')[0] != "s3"
    requires Idx(s, "s3-accelerate") != 2 && Idx(s, "s3-accesspoint") != 3 && Idx(s, "s3-website") != 3
    requires Idx(s, "console-l") != 2
    ensures S3Form(s, false) == Some((Drop(if |s| == 5 then s + [s[4]] else s, 4), false))
  {
    hide Idx, Split, Join;
  }

  lemma DropFifth(h: Labelled, b: Labelled)
    requires |h| == 4
    ensures var s := h + b;
      Drop(if |s| == 5 then s + [s[4]] else s, 4) == h + (if |b| == 1 then b else Drop(b, 0))
  {
    var s := h + b;
    if |b| == 1 {
      assert (s + [s[4]])[..4] + (s + [s[4]])[5..] == s;
    }
  }

  lemma RegionalIdx(region: string, bucket: Labelled)
    requires PlainRegion(region)
    ensures var s := Regional(region, bucket);
      && Idx(s, "cn") != 0 && Idx(s, "amazonaws") == 1 && Idx(s, "dualstack") != 3
      && Idx(s, "s3-accelerate") != 2 && Idx(s, "s3-accesspoint") != 3 && Idx(s, "s3-website") != 3
      && Idx(s, "console-l") != 2 && Idx(s, "s3") == 3
  {
    var s := Regional(region, bucket);
    IdxIsFirst(s, "cn");
    IdxIsFirst(s, "amazonaws");
    IdxIsFirst(s, "dualstack");
    IdxIsFirst(s, "s3-accelerate");
    IdxIsFirst(s, "s3-accesspoint");
    IdxIsFirst(s, "s3-website");
    IdxIsFirst(s, "console-l");
    IdxIsFirst(s, "s3");
    hide Idx;
    assert s[0] == "com" && s[1] == "amazonaws" && s[2] == region && s[3] == "s3";
  }

  /** A regional bucket endpoint keeps its bucket exactly when the bucket is a single
      label or absent: of a dotted bucket, the label next to `s3` is lost. */
  lemma RegionalKeepsBucket(region: string, bucket: Labelled)
    requires PlainRegion(region)
    ensures S3Reversed(Regional(region, bucket)) == Some(RegionalDualStack(region, bucket)) <==> |bucket| <= 1
  {
    RegionalForm(region, bucket);
    hide S3Reversed, Split;
    if |bucket| > 1 {
      assert |RegionalDualStack(region, Drop(bucket, 0))| < |RegionalDualStack(region, bucket)|;
    }
  }

  /** The labels in front of the bucket: three, or four with the service in a place of its own. */
  function S3HeadSize(k: S3Kind): nat {
    if k.Keyword? || k.Site? then 4 else 3
  }

  /** The endpoint a form becomes, without its bucket, before `dualstack` goes in. */
  function S3Head(k: S3Kind, s: Labelled, cn: bool): (head: Labelled)
    requires |s| >= S3HeadSize(k)
    ensures |head| >= 3
  {
    match k
    case Accelerated => s[..2] + ["dualstack", s[2]]
    case Keyword => s[..4]
    case Site => s[..4]
    case Dashed => s[..2] + ["us-east-1", if |Split(s[2], '-')| > 1 && Split(s[2], '-')[1] == "1" then "s3-r-w" else s[2]]
    case DashedSite => s[..2] + ["us-east-1", "s3-website"]
    case DashedRegion => s[..2] + [DashedRegionOf(s[2], cn)] + (if Idx(s, "s3") == -1 then ["s3"] else [])
    case Global => s[..2] + ["us-east-1", s[2]]
  }

  /** The dual-stack endpoint of a form, without its bucket. */
  function S3Endpoint(k: S3Kind, s: Labelled, cn: bool): Labelled
    requires |s| >= S3HeadSize(k)
  {
    Finished(S3Head(k, s, cn), cn && !k.Accelerated? && !k.Site?)
  }

  /** The buckets a form does not change: behind a keyword, at most one label; behind the
      dashed website form none, or one label twice; behind all others, any but two labels. */
  predicate BucketCarried(k: S3Kind, bucket: Labelled) {
    match k
    case Keyword => |bucket| <= 1
    case Site => |bucket| <= 1
    case DashedSite => |bucket| == 0 || (|bucket| == 2 && bucket[0] == bucket[1])
    case _ => |bucket| != 2
  }

  /** What becomes of the bucket: of a keyword form the label next to the service goes,
      unless it is the only one; the dashed website form loses it too; and all but the
      keyword forms double the last label of a bucket of two. */
  function Carried(k: S3Kind, bucket: Labelled): (r: Labelled)
    ensures r == bucket <==> BucketCarried(k, bucket)
  {
    var wide := if |bucket| == 2 then bucket + [bucket[1]] else bucket;
    match k
    case Keyword => if |bucket| == 1 then bucket else Drop(bucket, 0)
    case Site => if |bucket| == 1 then bucket else Drop(bucket, 0)
    case DashedSite => if |wide| > 0 then wide[1..] else []
    case _ => wide
  }

  /** The endpoint's head before `dualstack` goes in. */
  lemma S3EditCarries(k: S3Kind, s: Labelled, cn: bool)
    requires |s| >= S3HeadSize(k)
    ensures S3Edit(k, s, cn) == S3Head(k, s, cn) + Carried(k, s[S3HeadSize(k)..])
  {
    hide Split, Join, Idx, DashedRegionOf;
    var bucket := s[S3HeadSize(k)..];
    assert s == s[..S3HeadSize(k)] + bucket;
    match k
    case Keyword => DropFifth(s[..4], bucket);
    case Site => DropFifth(s[..4], bucket);
    case DashedSite => Widened(s);
    case DashedRegion => Widened(s);
    case _ =>
      Widened(s);
      var t := if |s| == 5 then s + [s[4]] else s;
      InsertedAtTwo(t, "dualstack");
      InsertedAtTwo(t, "us-east-1");
      hide Insert;
  }

  lemma InsertedAtTwo(t: Labelled, x: string)
    requires |t| >= 3
    ensures Insert(t, 2, x) == t[..2] + [x, t[2]] + t[3..] && |t[..2]| == 2
    ensures forall y :: Insert(t, 2, x)[3 := y] == t[..2] + [x, y] + t[3..]
  {
    assert t[2..] == [t[2]] + t[3..];
  }

  lemma Widened(s: Labelled)
    requires |s| >= 3
    ensures var t := if |s| == 5 then s + [s[4]] else s; var bucket := s[3..];
      t[..2] == s[..2] && t[2] == s[2] && t[3..] == if |bucket| == 2 then bucket + [bucket[1]] else bucket
  {
  }

  lemma InsertedInHead(head: Labelled, tail: Labelled, x: string)
    requires |head| >= 3
    ensures Insert(head + tail, 3, x) == Insert(head, 3, x) + tail
  {
    assert (head + tail)[..3] == head[..3] && (head + tail)[3..] == head[3..] + tail;
  }

  /** The head of a form is long enough, for every list of that form. */
  lemma S3KindFits(s: Labelled, cn: bool)
    requires |s| > 2 && S3KindOf(s, cn).Some?
    ensures |s| >= S3HeadSize(S3KindOf(s, cn).value)
  {
    hide Split, Join;
  }

  /** What the rewrite answers, for every reversed list it accepts: the dual-stack endpoint
      and what is carried of the bucket; so it keeps the bucket exactly when the form carries
      it whole. */
  lemma S3KeepsBucket(s0: Labelled)
    requires S3Reversed(s0).Some?
    ensures var cn := Idx(s0, "cn") == 0; var s := if cn then s0[1..] else s0;
      && |s| > 2 && S3KindOf(s, cn).Some?
      && var k := S3KindOf(s, cn).value; |s| >= S3HeadSize(k) && KeepsBucket(s0, s, k, cn, s[S3HeadSize(k)..])
  {
    var cn := Idx(s0, "cn") == 0;
    var s := if cn then s0[1..] else s0;
    S3ReversedForm(s0);
    S3KindFits(s, cn);
    var k := S3KindOf(s, cn).value;
    hide Idx, S3Reversed, S3KindOf, S3Edit, S3Head, Carried, BucketCarried;
    var bucket := s[S3HeadSize(k)..];
    var head, c := S3Head(k, s, cn), Carried(k, bucket);
    S3EditCarries(k, s, cn);
    WithDualStack(head, c, cn && !k.Accelerated? && !k.Site?);
    BehindHead(S3Endpoint(k, s, cn), c, bucket);
  }

  /** `dualstack` and a returning `cn` put around an edited list. */
  function Finished(t: Labelled, keep: bool): Labelled
    requires |t| > 2
  {
    var u := if t[2] == "dualstack" then t else Insert(t, 3, "dualstack");
    if keep then ["cn"] + u else u
  }

  lemma S3ReversedForm(s0: Labelled)
    requires S3Reversed(s0).Some?
    ensures var cn := Idx(s0, "cn") == 0; var s := if cn then s0[1..] else s0;
      && |s| > 2 && S3KindOf(s, cn).Some?
      && var k := S3KindOf(s, cn).value; var t := S3Edit(k, s, cn);
        |t| > 2 && S3Reversed(s0) == Some(Finished(t, cn && !k.Accelerated? && !k.Site?))
  {
    var cn := Idx(s0, "cn") == 0;
    var s := if cn then s0[1..] else s0;
    S3FormShape(s, cn);
    hide Idx, S3KindOf, S3Edit, Insert;
  }

  lemma WithDualStack(head: Labelled, c: Labelled, keep: bool)
    requires |head| >= 3
    ensures |head + c| > 2 && Finished(head + c, keep) == Finished(head, keep) + c
  {
    InsertedInHead(head, c, "dualstack");
    assert (head + c)[2] == head[2];
    hide Insert;
    var u := if head[2] == "dualstack" then head else Insert(head, 3, "dualstack");
    assert ["cn"] + (u + c) == ["cn"] + u + c;
  }

  ghost predicate KeepsBucket(s0: Labelled, s: Labelled, k: S3Kind, cn: bool, bucket: Labelled)
    requires |s| >= S3HeadSize(k)
  {
    && S3Reversed(s0) == Some(S3Endpoint(k, s, cn) + Carried(k, bucket))
    && (S3Reversed(s0) == Some(S3Endpoint(k, s, cn) + bucket) <==> BucketCarried(k, bucket))
  }

  lemma BehindHead(e: Labelled, a: Labelled, b: Labelled)
    ensures e + a == e + b <==> a == b
  {
    assert (e + a)[|e|..] == a && (e + b)[|e|..] == b;
  }

  /** `a.b.s3.amazonaws.com` gets its last label twice, */
  lemma GlobalBucketDoubled()
    ensures S3Reversed(["com", "amazonaws", "s3", "b", "a"])
      == Some(["com", "amazonaws", "us-east-1", "dualstack", "s3", "b", "a", "a"])
  {
    var s := ["com", "amazonaws", "s3", "b", "a"];
    IdxIsFirst(s, "cn");
    IdxIsFirst(s, "amazonaws");
    IdxIsFirst(s, "dualstack");
    GlobalKind(s);
    hide Idx, S3KindOf;
    var t := S3Edit(Global, s, false);
    assert t == ["com", "amazonaws", "us-east-1", "s3", "b", "a", "a"];
    assert Insert(t, 3, "dualstack") == ["com", "amazonaws", "us-east-1", "dualstack", "s3", "b", "a", "a"];
  }

  lemma GlobalKind(s: Labelled)
    requires |s| > 3 && s[0] == "com" && s[1] == "amazonaws" && s[2] == "s3" && s[3] == "b"
    ensures S3KindOf(s, false) == Some(Global)
  {
    IdxIsFirst(s, "s3");
    IdxIsFirst(s, "s3-accelerate");
    IdxIsFirst(s, "s3-accesspoint");
    IdxIsFirst(s, "s3-website");
    IdxIsFirst(s, "s3-control");
    IdxIsFirst(s, "console-l");
    SplitPiece("s3", '-');
    hide Idx, Split, Join;
  }

  /** and `a.b.s3.eu-west-1.amazonaws.com` loses the label next to `s3`. */
  lemma RegionalLabelLost()
    ensures S3Reversed(["com", "amazonaws", "eu-west-1", "s3", "b", "a"])
      == Some(["com", "amazonaws", "eu-west-1", "dualstack", "s3", "a"])
  {
    PlainEuWest();
    hide *;
    RegionalForm("eu-west-1", ["b", "a"]);
    RegionalTexts();
  }

  lemma RegionalTexts()
    ensures Regional("eu-west-1", ["b", "a"]) == ["com", "amazonaws", "eu-west-1", "s3", "b", "a"]
    ensures RegionalDualStack("eu-west-1", Drop(["b", "a"], 0)) == ["com", "amazonaws", "eu-west-1", "dualstack", "s3", "a"]
  {
  }

  lemma PlainEuWest()
    ensures PlainRegion("eu-west-1")
  {
    SplitAt("eu", '-', "west-1");
    assert "eu-west-1" == "eu" + ['-'] + "west-1";
    hide Split;
  }

  /** A name whose region slot reads `dualstack` is rewritten to a name that is again. */
  lemma OwnAnswerTaken()
    ensures var s := ["com", "amazonaws", "dualstack", "s3", "b"];
      S3Reversed(s).Some? && S3Reversed(S3Reversed(s).value).Some?
  {
    var s := ["com", "amazonaws", "dualstack", "s3", "b"];
    IdxIsFirst(s, "cn");
    IdxIsFirst(s, "amazonaws");
    IdxIsFirst(s, "dualstack");
    DualStackKeyword(s);
    hide Idx, S3KindOf, S3Edit;
    S3Again(s, false);
    S3OwnAnswer(s);
  }

  lemma DualStackKeyword(s: Labelled)
    requires |s| > 3 && s[0] == "com" && s[1] == "amazonaws" && s[2] == "dualstack" && s[3] == "s3"
    ensures S3KindOf(s, false) == Some(Keyword)
  {
    IdxIsFirst(s, "s3");
    IdxIsFirst(s, "s3-accelerate");
    IdxIsFirst(s, "s3-accesspoint");
    IdxIsFirst(s, "s3-website");
    IdxIsFirst(s, "console-l");
    SplitPiece("dualstack", '-');
    hide Idx, Split, Join;
  }

  // ================================================================ OSS

  /** The regions the provider lists, in the list's order. */
  predicate KnownRegion(r: string) {
    ChinaRegion(r) || WorldRegion(r) || FinanceRegion(r)
  }

  predicate ChinaRegion(r: string) {
    r in [
      "cn-hangzhou", "cn-shanghai", "cn-nanjing", "cn-qingdao", "cn-beijing",
      "cn-zhangjiakou", "cn-huhehaote", "cn-wulanchabu", "cn-shenzhen", "cn-heyuan",
      "cn-guangzhou", "cn-chengdu", "cn-hongkong"]
  }

  predicate WorldRegion(r: string) {
    r in [
      "us-west-1", "us-east-1", "ap-southeast-1", "ap-southeast-2", "ap-southeast-3", "ap-southeast-4",
      "ap-southeast-5", "ap-southeast-6", "ap-southeast-7", "ap-northeast-1",
      "ap-northeast-2", "ap-south-1", "eu-central-1", "eu-west-1", "me-east-1",
      "me-central-1"]
  }

  predicate FinanceRegion(r: string) {
    r in [
      "cn-hangzhou-finance", "cn-shanghai-finance",
      "cn-shenzhen-finance", "cn-beijing-finance-1", "cn-beijing-finance-2"]
  }

  /** The pieces of a region label without a leading `oss`. */
  function WithoutOss(pieces: seq<string>): seq<string>
    requires |pieces| >= 1
  {
    if pieces[0] == "oss" then pieces[1..] else pieces
  }

  /** The region a bucket endpoint without a known region is sent to. */
  function RegionOr(pieces: seq<string>): seq<string> {
    if KnownRegion(Join(pieces, '-')) then pieces else SetExt(SetExt(pieces, 0, "cn"), 1, "hangzhou")
  }

  /** What the OSS port does behind the two TLD labels, by endpoint form: `s[2..]` is
      the bare service, `<region or bucket>.oss`, or `oss-<region>` and anything else,
      where the bucket of a four-label name is dropped. */
  function OssBody(s: Labelled): Labelled
    requires |s| > 2
  {
    if s[2] == "oss" && |s| == 3 then s[..2] + ["oss", Join(RegionOr([]), '-')]
    else if s[2] == "oss" then
      var pieces := Split(s[3], '-');
      s[..2] + (if pieces[0] == "oss" then ["oss", "oss"] else ["oss"])
      + [Join(RegionOr(WithoutOss(pieces)), '-')] + s[4..]
    else
      var pieces := Split(s[2], '-');
      s[..2] + (if pieces[0] == "oss" then ["oss"] else [])
      + [Join(WithoutOss(pieces), '-')] + (if |s| == 4 && s[3] != "oss" then [] else s[3..])
  }

  function OssReversed(s: Labelled): Option<Labelled> {
    if |s| <= 2 || s[0] != "com" || (s[1] != "aliyuncs" && s[1] != "aliyun-inc") then None
    else Some(OssBody(["com", "aliyuncs"] + s[2..]))
  }

  function Oss(l: Labelled): Option<Labelled> {
    match OssReversed(Reverse(l))
    case None => None
    case Some(r) => Some(Reverse(r))
  }

  method OssRewrite(name: Name) returns (r: Option<Name>)
    ensures r == Rewritten(Oss, name)
  {
    var l := Labels(name);
    hide Labels, NameFromLabels;
    var s := Reverse(l);
    var ok;
    ok, s := OssSplices(s);
    if !ok {
      assert Oss(l) == None;
      return None;
    }
    assert Oss(l) == Some(Reverse(s));
    s := Reverse(s);
    r := NameFromLabels(s);
  }

  method OssSplices(s0: Labelled) returns (ok: bool, s: Labelled)
    ensures ok == OssReversed(s0).Some?
    ensures ok ==> OssReversed(s0) == Some(s)
  {
    OssGuard(s0);
    hide Idx, OssBody;
    s := s0;
    var dp0, dp1, dp2 := Idx(s, "com"), Idx(s, "aliyuncs"), Idx(s, "aliyun-inc");
    if dp2 == 1 {
      s := s[1 := "aliyuncs"];
    }
    if !(dp0 == 0 && (dp1 == 1 || dp2 == 1)) || |s| <= 2 {
      return false, s;
    }
    ok := true;
    assert s == ["com", "aliyuncs"] + s0[2..];
    s := OssCascade(s);
  }

  method OssCascade(s0: Labelled) returns (s: Labelled)
    requires |s0| > 2 && s0[0] != "oss" && s0[1] != "oss"
    ensures s == OssBody(s0)
  {
    OssPieces(s0);
    s := s0;
    var dpff1 := Idx(s, "oss");
    var ssdomains := Split(s[2], '-');
    var ssdomainloc := 2;
    if dpff1 == 2 && Idx(ssdomains, "oss") == 0 && |s| > 3 {
      ssdomains := Split(s[3], '-');
      ssdomainloc := 3;
    }
    IdxIsFirst(ssdomains, "oss");
    var dpff3 := Idx(ssdomains, "oss");
    hide Idx, Split, Join, KnownRegion;
    if |s| == 4 && dpff1 < 0 {
      s := Drop(s, 3);
    }
    if dpff3 == 0 {
      ssdomains := ssdomains[1..];
    }
    var isbucket := KnownRegion(Join(ssdomains, '-'));
    if dpff1 == 2 && !isbucket {
      ssdomains := SetExt(ssdomains, 0, "cn");
      ssdomains := SetExt(ssdomains, 1, "hangzhou");
    }
    EmptyIsNoRegion();
    // The empty-region and out-of-range branches of the port cannot be taken.
    assert |ssdomains| > 0 && ssdomainloc < |s|;
    s := s[ssdomainloc := Join(ssdomains, '-')];
    if dpff3 == 0 {
      s := Insert(s, 2, "oss");
    }
    OssAssembled(s0, s, ssdomains, dpff3 == 0);
  }

  lemma EmptyIsNoRegion()
    ensures !KnownRegion(Join([], '-'))
  {
    assert Join([], '-') == "";
    hide Join;
  }

  /** The spliced list, put together by endpoint form. */
  lemma OssAssembled(s0: Labelled, s: Labelled, pieces: seq<string>, oss: bool)
    requires |s0| > 2
    requires if s0[2] == "oss" && |s0| == 3 then oss && pieces == RegionOr([])
      else if s0[2] == "oss" then oss == (Split(s0[3], '-')[0] == "oss") && pieces == RegionOr(WithoutOss(Split(s0[3], '-')))
      else oss == (Split(s0[2], '-')[0] == "oss") && pieces == WithoutOss(Split(s0[2], '-'))
    requires var loc := if s0[2] == "oss" && |s0| > 3 then 3 else 2;
      var t := if |s0| == 4 && s0[2] != "oss" && s0[3] != "oss" then Drop(s0, 3) else s0;
      && loc < |t|
      && s == (if oss then Insert(t[loc := Join(pieces, '-')], 2, "oss") else t[loc := Join(pieces, '-')])
    ensures s == OssBody(s0)
  {
    hide Split, Join, RegionOr, WithoutOss;
  }

  lemma OssGuard(s: Labelled)
    ensures (Idx(s, "com") == 0 && (Idx(s, "aliyuncs") == 1 || Idx(s, "aliyun-inc") == 1)) <==>
      (|s| >= 2 && s[0] == "com" && (s[1] == "aliyuncs" || s[1] == "aliyun-inc"))
    ensures |s| >= 2 && s[0] == "com" ==> (Idx(s, "aliyun-inc") == 1 <==> s[1] == "aliyun-inc")
    ensures Idx(s, "aliyun-inc") == 1 ==> |s| >= 2
  {
    IdxIsFirst(s, "com");
    IdxIsFirst(s, "aliyuncs");
    IdxIsFirst(s, "aliyun-inc");
    assert "com" != "aliyuncs" && "com" != "aliyun-inc";
    hide Idx;
  }

  /** Where the port looks for `oss`, in terms of the labels. */
  lemma OssPieces(s: Labelled)
    requires |s| > 2 && s[0] != "oss" && s[1] != "oss"
    ensures Idx(s, "oss") == 2 <==> s[2] == "oss"
    ensures |s| == 4 && s[2] != "oss" ==> (Idx(s, "oss") < 0 <==> s[3] != "oss")
    ensures s[2] == "oss" ==> Split(s[2], '-') == ["oss"] && Idx(Split(s[2], '-'), "oss") == 0
    ensures Split(s[2], '-') == ["oss"] ==> s[2] == "oss"
  {
    IdxIsFirst(s, "oss");
    SplitPiece("oss", '-');
    JoinSplit(s[2], '-');
    IdxIsFirst(["oss"], "oss");
    assert Join(["oss"], '-') == "oss";
    hide Idx, Split, Join;
  }

  /** Every answer of the OSS port sits under `aliyuncs.com`. */
  lemma OssShape(s: Labelled)
    requires OssReversed(s).Some?
    ensures var r := OssReversed(s).value;
      |r| > 2 && r[0] == "com" && r[1] == "aliyuncs"
  {
    hide RegionOr, WithoutOss, Split, Join;
  }

  lemma KnownRegionInitial(r: string)
    requires KnownRegion(r)
    ensures |r| > 0 && r[0] != 'o'
  {
  }

  lemma KnownRegionPieces(r: string)
    requires KnownRegion(r)
    ensures Split(r, '-')[0] != "oss" && Join(Split(r, '-'), '-') == r
  {
    KnownRegionInitial(r);
    hide KnownRegion;
    JoinSplit(r, '-');
    FirstPieceIsPrefix(Split(r, '-'), '-');
  }

  lemma FirstPieceIsPrefix(p: seq<string>, c: char)
    requires |p| >= 1
    ensures p[0] <= Join(p, c)
  {
  }

  /** A name already under a known region and `oss.aliyuncs.com` is left as it is. */
  lemma OssFixedPoint(s: Labelled)
    requires |s| > 3 && s[0] == "com" && s[1] == "aliyuncs" && s[2] == "oss" && KnownRegion(s[3])
    ensures OssReversed(s) == Some(s)
  {
    hide KnownRegion, Split, Join;
    KnownRegionPieces(s[3]);
    var pieces := Split(s[3], '-');
    assert RegionOr(pieces) == pieces && WithoutOss(pieces) == pieces && SentTo(s[3]) == s[3];
    OssUnder(s);
    hide *;
    OssBodyOfBucket(s[..2], s[3], s[4..]);
    SlotOf(s);
  }

  lemma SlotOf(s: Labelled)
    requires |s| > 3
    ensures s == s[..2] + [s[2], s[3]] + s[4..] && s == s[..2] + [s[2]] + [s[3]] + s[4..]
  {
  }

  lemma OssUnder(s: Labelled)
    requires |s| > 2 && s[0] == "com" && s[1] == "aliyuncs"
    ensures OssReversed(s) == Some(OssBody(s))
  {
    hide OssBody;
    assert ["com", "aliyuncs"] + s[2..] == s;
  }

  /** The label an OSS endpoint puts in the region slot for a bucket or region label. */
  function SentTo(bucket: string): string {
    Join(RegionOr(WithoutOss(Split(bucket, '-'))), '-')
  }

  /** What the port answers for any label under `oss.aliyuncs.com`. */
  lemma OssBucketForm(bucket: string, rest: Labelled)
    ensures OssReversed(["com", "aliyuncs", "oss", bucket] + rest)
      == Some(["com", "aliyuncs"] + (if Split(bucket, '-')[0] == "oss" then ["oss", "oss"] else ["oss"]) + [SentTo(bucket)] + rest)
  {
    hide *;
    var s := ["com", "aliyuncs", "oss", bucket] + rest;
    assert s[0] == "com" && s[1] == "aliyuncs";
    OssUnder(s);
    Glue("com", "aliyuncs", "oss", bucket, rest);
    OssBodyOfBucket(["com", "aliyuncs"], bucket, rest);
  }

  lemma Glue(a: string, b: string, c: string, d: string, rest: Labelled)
    ensures [a, b] + [c, d] + rest == [a, b, c, d] + rest
  {
  }

  lemma OssBodyOfBucket(tld: Labelled, bucket: string, rest: Labelled)
    requires |tld| == 2
    ensures OssBody(tld + ["oss", bucket] + rest)
         == tld + (if Split(bucket, '-')[0] == "oss" then ["oss", "oss"] else ["oss"]) + [SentTo(bucket)] + rest
  {
    hide Split, Join, KnownRegion, RegionOr, WithoutOss;
    var s := tld + ["oss", bucket] + rest;
    assert s[..2] == tld && s[2] == "oss" && s[3] == bucket && s[4..] == rest;
  }

  /** A bucket that is not a known region goes to the default region exactly when its label
      has at most one hyphen and does not start with an `oss` piece: further pieces stay
      behind the region, and a leading `oss` is doubled. */
  lemma OssDefaultRegion(bucket: string, rest: Labelled)
    requires !KnownRegion(bucket)
    ensures var moved := OssReversed(["com", "aliyuncs", "oss", bucket] + rest); var pieces := Split(bucket, '-');
      moved == Some(["com", "aliyuncs", "oss", "cn-hangzhou"] + rest) <==> |pieces| <= 2 && pieces[0] != "oss"
  {
    var pieces := Split(bucket, '-');
    JoinSplit(bucket, '-');
    SplitFree(bucket, '-');
    OssBucketForm(bucket, rest);
    if pieces[0] != "oss" {
      DefaultRegionPieces(pieces);
      assert SentTo(bucket) == Join(RegionOr(pieces), '-');
      hide *;
      SameSlot(SentTo(bucket), rest);
    } else {
      hide *;
      LongerByOne(SentTo(bucket), rest);
    }
  }

  lemma SameSlot(region: string, rest: Labelled)
    ensures ["com", "aliyuncs"] + ["oss"] + [region] + rest == ["com", "aliyuncs", "oss", "cn-hangzhou"] + rest <==> region == "cn-hangzhou"
  {
    assert (["com", "aliyuncs"] + ["oss"] + [region] + rest)[3] == region;
    assert (["com", "aliyuncs", "oss", "cn-hangzhou"] + rest)[3] == "cn-hangzhou";
    assert ["com", "aliyuncs"] + ["oss"] + ["cn-hangzhou"] == ["com", "aliyuncs", "oss", "cn-hangzhou"];
  }

  lemma LongerByOne(region: string, rest: Labelled)
    ensures ["com", "aliyuncs"] + ["oss", "oss"] + [region] + rest != ["com", "aliyuncs", "oss", "cn-hangzhou"] + rest
  {
    assert |["com", "aliyuncs"] + ["oss", "oss"] + [region] + rest| == 5 + |rest|;
  }

  /** Whether the region sent to is one the provider lists, for every label: what follows
      the first two pieces, a leading `oss` aside, is nothing or `finance`, unless the label
      was a listed region to begin with. */
  lemma OssRegionListed(bucket: string)
    ensures var p := WithoutOss(Split(bucket, '-'));
      KnownRegion(SentTo(bucket)) <==> KnownRegion(Join(p, '-')) || |p| <= 2 || p[2..] == ["finance"]
  {
    var pieces := Split(bucket, '-');
    SplitFree(bucket, '-');
    var p := WithoutOss(pieces);
    FreeSuffix(pieces, 1, '-');
    if !KnownRegion(Join(p, '-')) {
      RegionOrUnknown(p);
      hide *;
      HangzhouListed(if |p| > 2 then p[2..] else []);
      if |p| > 2 {
        FreeSuffix(p, 2, '-');
        FinancePieces(p[2..]);
      }
    }
  }

  /** Of the regions that start with the default one, which are listed. */
  lemma HangzhouListed(more: seq<string>)
    ensures KnownRegion(Join(["cn", "hangzhou"] + more, '-')) <==> more == [] || Join(more, '-') == "finance"
  {
    DefaultRegionText();
    if more == [] {
      assert ["cn", "hangzhou"] + more == ["cn", "hangzhou"];
      hide Join;
      assert KnownRegion("cn-hangzhou");
    } else {
      JoinAppend(["cn", "hangzhou"], more, '-');
      hide Join;
      ListedHangzhou(Join(more, '-'));
    }
  }

  lemma ListedHangzhou(tail: string)
    ensures KnownRegion("cn-hangzhou" + ['-'] + tail) <==> tail == "finance"
  {
    var r := "cn-hangzhou" + ['-'] + tail;
    assert r[3] == 'h' && r[4] == 'a' && r[11..] == ['-'] + tail;
    assert "cn-hangzhou-finance" == "cn-hangzhou" + ['-'] + "finance";
    assert |r| == 12 + |tail| && r[12..] == tail;
    assert "cn-hangzhou-finance"[12..] == "finance";
    if KnownRegion(r) {
      KnownHangzhou(r);
    }
  }

  lemma KnownHangzhou(r: string)
    requires KnownRegion(r) && |r| > 11 && r[3] == 'h' && r[4] == 'a'
    ensures r == "cn-hangzhou-finance"
  {
    hide ChinaRegion, WorldRegion, FinanceRegion;
    if ChinaRegion(r) {
      ChinaHangzhou(r);
    } else if WorldRegion(r) {
      WorldNotChina(r);
    } else {
      FinanceHangzhou(r);
    }
  }

  lemma ChinaHangzhou(r: string)
    requires ChinaRegion(r) && |r| > 4 && r[3] == 'h' && r[4] == 'a'
    ensures |r| == 11
  {
  }

  lemma WorldNotChina(r: string)
    requires WorldRegion(r)
    ensures |r| > 4 && (r[3] != 'h' || r[4] != 'a')
  {
  }

  lemma FinanceHangzhou(r: string)
    requires FinanceRegion(r) && |r| > 4 && r[3] == 'h' && r[4] == 'a'
    ensures r == "cn-hangzhou-finance"
  {
  }

  lemma FinancePieces(more: seq<string>)
    requires FreeOf(more, '-') && |more| >= 1
    ensures Join(more, '-') == "finance" <==> more == ["finance"]
  {
    assert Join(["finance"], '-') == "finance";
    hide Join;
    if Join(more, '-') == "finance" {
      JoinInjective(more, ["finance"], '-');
    }
  }

  lemma JoinTwo(a: string, b: string)
    ensures Join([a, b], '-') == a + ['-'] + b
  {
    assert [a, b][1..] == [b];
  }

  lemma RegionOrUnknown(pieces: seq<string>)
    requires !KnownRegion(Join(pieces, '-'))
    ensures RegionOr(pieces) == ["cn", "hangzhou"] + (if |pieces| > 2 then pieces[2..] else [])
  {
    hide Join, KnownRegion;
  }

  lemma DefaultRegionPieces(pieces: seq<string>)
    requires |pieces| >= 1 && FreeOf(pieces, '-') && !KnownRegion(Join(pieces, '-'))
    ensures Join(RegionOr(pieces), '-') == "cn-hangzhou" <==> |pieces| <= 2
  {
    RegionOrUnknown(pieces);
    hide *;
    DefaultRegionText();
    if |pieces| > 2 {
      FreeSuffix(pieces, 2, '-');
      LongerRegionDiffers(["cn", "hangzhou"], pieces[2..]);
    } else {
      assert ["cn", "hangzhou"] + [] == ["cn", "hangzhou"];
    }
  }

  lemma DefaultRegionText()
    ensures Join(["cn", "hangzhou"], '-') == "cn-hangzhou" && FreeOf(["cn", "hangzhou"], '-')
  {
    JoinTwo("cn", "hangzhou");
    hide Join;
    assert "cn-hangzhou" == "cn" + ['-'] + "hangzhou";
  }

  lemma FreeSuffix(pieces: seq<string>, k: nat, c: char)
    requires k <= |pieces| && FreeOf(pieces, c)
    ensures FreeOf(pieces[k..], c)
  {
  }

  lemma LongerRegionDiffers(d: seq<string>, more: seq<string>)
    requires |d| >= 1 && |more| >= 1 && FreeOf(d, '-') && FreeOf(more, '-')
    ensures Join(d + more, '-') != Join(d, '-')
  {
    hide Join;
    if Join(d + more, '-') == Join(d, '-') {
      JoinInjective(d + more, d, '-');
    }
  }

  /** `my-own-bucket` is sent to a region nobody lists, `a-b-finance` to a listed one that is
      not the default, and `oss-a` to the default behind a second `oss`. */
  lemma OssMisdirected()
    ensures SentTo("my-own-bucket") == "cn-hangzhou-bucket" && !KnownRegion("cn-hangzhou-bucket")
    ensures SentTo("a-b-finance") == "cn-hangzhou-finance" && KnownRegion("cn-hangzhou-finance")
    ensures OssReversed(["com", "aliyuncs", "oss", "oss-a"]) == Some(["com", "aliyuncs", "oss", "oss", "cn-hangzhou"])
  {
    ExampleTexts();
    UnlistedExamples();
    hide KnownRegion, Join, Split, SentTo, OssReversed;
    SentThree("my", "own", "bucket");
    SentThree("a", "b", "finance");
    SentOss("a");
    ListedHangzhou("bucket");
    ListedHangzhou("finance");
    OssBucketForm("oss-a", []);
    assert ["com", "aliyuncs", "oss", "oss-a"] + [] == ["com", "aliyuncs", "oss", "oss-a"];
    assert ["com", "aliyuncs"] + ["oss", "oss"] + ["cn-hangzhou"] + [] == ["com", "aliyuncs", "oss", "oss", "cn-hangzhou"];
  }

  lemma ExampleTexts()
    ensures Join(["my", "own", "bucket"], '-') == "my-own-bucket"
    ensures Join(["a", "b", "finance"], '-') == "a-b-finance"
    ensures Join(["oss", "a"], '-') == "oss-a"
    ensures "cn-hangzhou" + ['-'] + "bucket" == "cn-hangzhou-bucket"
    ensures "cn-hangzhou" + ['-'] + "finance" == "cn-hangzhou-finance"
  {
    JoinThree("my", "own", "bucket");
    JoinThree("a", "b", "finance");
    JoinTwo("oss", "a");
  }

  lemma UnlistedExamples()
    ensures !KnownRegion("my-own-bucket") && !KnownRegion("a-b-finance") && !KnownRegion("a")
  {
    UnlistedByHyphen("my-own-bucket");
    UnlistedByHyphen("a-b-finance");
    UnlistedByHyphen("a");
  }

  /** Every listed region has its first hyphen in the third place. */
  lemma UnlistedByHyphen(r: string)
    requires |r| < 3 || r[2] != '-' || r[0] == 'm'
    requires |r| > 4 ==> r[3] != 'e' && r[3] != 'c'
    ensures !KnownRegion(r)
  {
    hide ChinaRegion, WorldRegion, FinanceRegion;
    if ChinaRegion(r) {
      ChinaShape(r);
    } else if WorldRegion(r) {
      WorldShape(r);
    } else if FinanceRegion(r) {
      FinanceShape(r);
    }
  }

  lemma ChinaShape(r: string)
    requires ChinaRegion(r)
    ensures |r| > 4 && r[2] == '-' && r[0] == 'c'
  {
  }

  lemma WorldShape(r: string)
    requires WorldRegion(r)
    ensures |r| > 4 && r[2] == '-' && (r[0] == 'm' ==> r[3] == 'e' || r[3] == 'c')
  {
  }

  lemma FinanceShape(r: string)
    requires FinanceRegion(r)
    ensures |r| > 4 && r[2] == '-' && r[0] == 'c'
  {
  }

  lemma JoinThree(a: string, b: string, c: string)
    ensures Join([a, b, c], '-') == a + ['-'] + (b + ['-'] + c)
  {
    JoinTwo(b, c);
    assert [a, b, c][1..] == [b, c];
  }

  lemma SentThree(a: string, b: string, c: string)
    requires '-' !in a && '-' !in b && '-' !in c && a != "oss" && !KnownRegion(Join([a, b, c], '-'))
    ensures SentTo(Join([a, b, c], '-')) == "cn-hangzhou" + ['-'] + c
  {
    assert Without(a, '-') && Without(b, '-') && Without(c, '-');
    assert FreeOf([a, b, c], '-');
    SplitJoin([a, b, c], '-');
    RegionOrUnknown([a, b, c]);
    DefaultRegionText();
    JoinAppend(["cn", "hangzhou"], [c], '-');
    assert [a, b, c][2..] == [c] && Join([c], '-') == c;
    hide KnownRegion, Join, Split, RegionOr;
  }

  lemma SentOss(a: string)
    requires '-' !in a && !KnownRegion(a)
    ensures SentTo(Join(["oss", a], '-')) == "cn-hangzhou" && Split(Join(["oss", a], '-'), '-')[0] == "oss"
  {
    assert Without("oss", '-') && Without(a, '-');
    assert FreeOf(["oss", a], '-');
    SplitJoin(["oss", a], '-');
    assert Join([a], '-') == a;
    RegionOrUnknown([a]);
    DefaultRegionText();
    hide KnownRegion, Join, Split, RegionOr;
    assert ["cn", "hangzhou"] + [] == ["cn", "hangzhou"] && ["oss", a][1..] == [a];
  }

  // ---------------------------------------------------------------- back to names

  lemma RegionOrFree(pieces: seq<string>)
    requires FreeOf(pieces, '.')
    ensures FreeOf(RegionOr(pieces), '.')
  {
    hide KnownRegion, Join;
  }

  lemma OssBareFree(s: Labelled)
    requires |s| == 3 && FreeOf(s, '.') && s[2] == "oss"
    ensures FreeOf(OssBody(s), '.')
  {
    hide Split, Join, KnownRegion, RegionOr, Without;
    OssLabelFree();
    assert FreeOf([], '.');
    RegionOrFree([]);
    JoinKeepsOut(RegionOr([]), '-', '.');
    FreeParts(s[..2], ["oss", Join(RegionOr([]), '-')], [], []);
  }

  lemma OssUnderFree(s: Labelled)
    requires |s| > 3 && FreeOf(s, '.') && s[2] == "oss"
    ensures FreeOf(OssBody(s), '.')
  {
    hide Split, Join, KnownRegion, RegionOr, WithoutOss, Without;
    OssLabelFree();
    assert Without(s[3], '.');
    OssSlotFree(s[3]);
    hide SentTo;
    FreeParts(s[..2], if Split(s[3], '-')[0] == "oss" then ["oss", "oss"] else ["oss"], [SentTo(s[3])], s[4..]);
  }

  lemma OssOtherFree(s: Labelled)
    requires |s| > 2 && FreeOf(s, '.') && s[2] != "oss"
    ensures FreeOf(OssBody(s), '.')
  {
    hide Split, Join, KnownRegion, RegionOr, WithoutOss, Without;
    OssLabelFree();
    assert Without(s[2], '.');
    OssServiceFree(s[2]);
    FreeParts(s[..2], if Split(s[2], '-')[0] == "oss" then ["oss"] else [],
      [Join(WithoutOss(Split(s[2], '-')), '-')], if |s| == 4 && s[3] != "oss" then [] else s[3..]);
  }

  lemma OssBodyFree(s: Labelled)
    requires |s| > 2 && FreeOf(s, '.')
    ensures FreeOf(OssBody(s), '.')
  {
    hide OssBody, FreeOf;
    if s[2] == "oss" && |s| == 3 {
      OssBareFree(s);
    } else if s[2] == "oss" {
      OssUnderFree(s);
    } else {
      OssOtherFree(s);
    }
  }

  lemma OssLabelFree()
    ensures Without("oss", '.')
  {
  }

  lemma OssSlotFree(bucket: string)
    requires Without(bucket, '.')
    ensures Without(SentTo(bucket), '.')
    ensures SentTo(bucket) == Join(RegionOr(WithoutOss(Split(bucket, '-'))), '-')
  {
    SplitKeepsOut(bucket, '-', '.');
    hide Split, Join, KnownRegion, RegionOr;
    RegionOrFree(WithoutOss(Split(bucket, '-')));
    JoinKeepsOut(RegionOr(WithoutOss(Split(bucket, '-'))), '-', '.');
  }

  lemma OssServiceFree(service: string)
    requires Without(service, '.')
    ensures Without(Join(WithoutOss(Split(service, '-')), '-'), '.')
  {
    SplitKeepsOut(service, '-', '.');
    hide Split, Join;
    JoinKeepsOut(WithoutOss(Split(service, '-')), '-', '.');
  }

  lemma FreeParts(a: Labelled, b: Labelled, c: Labelled, d: Labelled)
    requires FreeOf(a, '.') && FreeOf(b, '.') && FreeOf(c, '.') && FreeOf(d, '.')
    ensures FreeOf(a + b + c + d, '.') && a + b + [] + [] == a + b
  {
    hide Without;
  }

  /** Every name the OSS rewrite answers ends in `aliyuncs.com`. */
  lemma OssNameShape(name: Name)
    requires ValidName(name) && Rewritten(Oss, name).Some?
    ensures var r := Rewritten(Oss, name).value; |r| > 2 && r[|r| - 2..] == ["aliyuncs", "com"]
  {
    hide Labels, OssReversed, Without, ValidName, Reverse;
    var s := Reverse(Labels(name));
    LabelsFree(name);
    OssShape(s);
    OssReversedFree(s);
    var r := OssReversed(s).value;
    BackToName(Oss, name, r);
    hide *;
    EndsReversed(r, "com", "aliyuncs");
  }

  lemma EndsReversed(r: Labelled, a: string, b: string)
    requires |r| > 2 && r[0] == a && r[1] == b
    ensures |Reverse(r)| > 2 && Reverse(r)[|r| - 2..] == [b, a]
  {
  }

  /** The labels of a name hold no dot, in either order. */
  lemma LabelsFree(name: Name)
    requires ValidName(name)
    ensures FreeOf(Labels(name), '.') && FreeOf(Reverse(Labels(name)), '.')
  {
    LabelsValid(name);
    hide Labels;
  }

  /** A name already under a known region and `oss.aliyuncs.com` is left as it is, but for
      letter case. */
  lemma OssFixedName(name: Name)
    requires ValidName(name)
    requires var s := Reverse(Labels(name)); |s| > 3 && s[0] == "com" && s[1] == "aliyuncs" && s[2] == "oss" && KnownRegion(s[3])
    ensures Rewritten(Oss, name) == Some(LowerAll(name))
  {
    var l := Labels(name);
    LabelsFree(name);
    LabelsValid(name);
    LabelsAreLowered(name);
    hide Labels, KnownRegion, OssReversed, Without, LowerAll;
    OssFixedPoint(Reverse(l));
    ReverseTwice(l);
    RejoinedLabels(l);
  }

  lemma OssReversedFree(s: Labelled)
    requires OssReversed(s).Some? && FreeOf(s, '.')
    ensures FreeOf(OssReversed(s).value, '.')
  {
    var t := ["com", "aliyuncs"] + s[2..];
    assert Without("com", '.') && Without("aliyuncs", '.');
    hide OssBody, Without;
    OssBodyFree(t);
  }

  /** A rewritten name is the reversed list, label for label. */
  lemma BackToName(f: Labelled -> Option<Labelled>, name: Name, r: Labelled)
    requires f(Labels(name)) == Some(Reverse(r)) && FreeOf(r, '.') && |r| >= 2
    requires Rewritten(f, name).Some?
    ensures Rewritten(f, name).value == Reverse(r)
  {
    hide Without;
    assert FreeOf(Reverse(r), '.');
    RejoinedLabels(Reverse(r));
  }

  /** A character no label the port writes holds. */
  predicate Foreign(c: char) { c == '.' || 'A' <= c <= 'Z' }

  lemma PortLabelsFree(c: char)
    requires Foreign(c)
    ensures Without("dualstack", c) && Without("us-east-1", c) && Without("s3-r-w", c)
    ensures Without("s3-website", c) && Without("s3", c) && Without("cn", c) && c != '-'
  {
  }

  lemma S3FormFree(s: Labelled, cn: bool, c: char)
    requires |s| > 2 && FreeOf(s, c) && S3Form(s, cn).Some? && Foreign(c)
    ensures FreeOf(S3Form(s, cn).value.0, c)
  {
    var ss := Split(s[2], '-');
    PortLabelsFree(c);
    SplitKeepsOut(s[2], '-', c);
    JoinKeepsOut(if |ss| == 4 && !cn then ss[1..] else ss, '-', c);
    var region := DashedRegionOf(s[2], cn);
    assert Without(region, c);
    hide Idx, Split, Join, Without, DashedRegionOf, S3KindOf;
    var t := if |s| == 5 then s + [s[4]] else s;
    assert FreeOf(t, c);
    FreeSplices(t, 2, "dualstack", c);
    FreeSplices(t, 2, "us-east-1", c);
    FreeSplices(Insert(t, 2, "us-east-1"), 3, "s3-r-w", c);
    FreeSplices(t, 4, "s3", c);
    hide Insert, Drop;
    FreeSides(t, ["us-east-1", "s3-website"], c);
    FreeSides(t, [region], c);
    FreeSides(t, [region, "s3"], c);
    assert [region] + [] == [region] && [region] + ["s3"] == [region, "s3"];
  }

  lemma FreeSides(t: Labelled, mid: Labelled, c: char)
    requires |t| > 2 && FreeOf(t, c) && FreeOf(mid, c)
    ensures FreeOf(t[..2] + mid + t[3..], c)
    ensures FreeOf(t[..2] + mid + (if |t| > 4 then t[4..] else []), c)
  {
    hide Without;
  }

  lemma FreeSplices(v: Labelled, i: nat, x: string, c: char)
    requires FreeOf(v, c) && Without(x, c)
    ensures FreeOf(Insert(v, i, x), c) && FreeOf(Drop(v, i), c)
    ensures i < |v| ==> FreeOf(v[i := x], c)
  {
    hide Without;
  }

  /** Every name the S3 rewrite answers is a dual-stack name: `amazonaws` second from the
      TLD and `dualstack` third or fourth, after a `cn` put back is taken off. */
  lemma S3NameShape(name: Name)
    requires ValidName(name) && Rewritten(S3, name).Some?
    ensures var r := Reverse(Rewritten(S3, name).value); var l := Reverse(Labels(name));
      DualStackS3(r) || (|r| > 0 && r[0] == "cn" && l[0] == "cn" && DualStackS3(r[1..]))
  {
    LabelsValid(name);
    var s0 := Reverse(Labels(name));
    assert FreeOf(s0, '.');
    S3ShapeReversed(s0);
    S3ReversedFree(s0, '.');
    var r := S3Reversed(s0).value;
    hide S3Reversed, Without;
    BackToName(S3, name, r);
    ReverseTwice(r);
    if !DualStackS3(r) {
      var u: Labelled :| DualStackS3(u) && r == ["cn"] + u;
      assert r[1..] == u;
    }
  }

  /** What a rewritten name is, and when its bucket is the one that was asked for. */
  lemma S3NameKeepsBucket(name: Name)
    requires ValidName(name) && Rewritten(S3, name).Some?
    ensures var s0 := Reverse(Labels(name)); var cn := Idx(s0, "cn") == 0; var s := if cn then s0[1..] else s0;
      && |s| > 2 && S3KindOf(s, cn).Some?
      && var k := S3KindOf(s, cn).value;
        && |s| >= S3HeadSize(k)
        && (Reverse(Rewritten(S3, name).value) == S3Endpoint(k, s, cn) + s[S3HeadSize(k)..] <==> BucketCarried(k, s[S3HeadSize(k)..]))
  {
    hide Labels, S3Reversed, Without, Idx, S3KindOf, BucketCarried, Carried, S3Endpoint, ValidName, Reverse;
    var s0 := Reverse(Labels(name));
    S3AnsweredName(name);
    S3KeepsBucket(s0);
  }

  /** The labels of an answered name, reversed, are the port's answer on the reversed labels. */
  lemma S3AnsweredName(name: Name)
    requires ValidName(name) && Rewritten(S3, name).Some?
    ensures var s0 := Reverse(Labels(name)); S3Reversed(s0) == Some(Reverse(Rewritten(S3, name).value))
  {
    hide Labels, S3Reversed, Without, ValidName, Reverse;
    var s0 := Reverse(Labels(name));
    LabelsFree(name);
    S3ReversedFree(s0, '.');
    S3ShapeReversed(s0);
    var r := S3Reversed(s0).value;
    BackToName(S3, name, r);
    ReverseTwice(r);
  }

  lemma S3ReversedFree(s0: Labelled, c: char)
    requires S3Reversed(s0).Some? && FreeOf(s0, c) && Foreign(c)
    ensures FreeOf(S3Reversed(s0).value, c)
  {
    var cn := Idx(s0, "cn") == 0;
    var s := if cn then s0[1..] else s0;
    S3FormFree(s, cn, c);
    PortLabelsFree(c);
    hide Idx, S3Form, Without;
  }

  /** An answered name has clean labels: its own lower-cased labels are those it has. */
  lemma S3AnswerClean(name: Name)
    requires ValidName(name) && Rewritten(S3, name).Some?
    ensures var r := Rewritten(S3, name).value; ValidName(r) && Labels(r) == r
  {
    var s0, r := Reverse(Labels(name)), Rewritten(S3, name).value;
    S3AnsweredName(name);
    LabelsClean(name);
    LabelsFree(name);
    hide Labels, S3Reversed, ValidName;
    S3ReversedFree(s0, '.');
    ReverseTwice(r);
    assert FreeOf(r, '.') by { FreeReversed(Reverse(r), '.'); }
    forall x | x in r ensures Lower(x) == x {
      AnswerLower(s0, x);
    }
    assert S3(Labels(name)) == Some(r) by { ReverseTwice(Labels(name)); }
    AnsweredValid(S3, name, r);
    LowerName(r);
  }

  lemma FreeReversed(l: Labelled, c: char)
    requires FreeOf(l, c)
    ensures FreeOf(Reverse(l), c)
  {
    hide Without;
  }

  /** A label of an answer is lower case, because every upper-case letter is foreign to it. */
  lemma AnswerLower(s0: Labelled, x: string)
    requires S3Reversed(s0).Some? && x in S3Reversed(s0).value && Clean(s0)
    ensures Lower(x) == x
  {
    hide S3Reversed;
    forall c: char | 'A' <= c <= 'Z' ensures c !in x {
      CleanIsFree(s0, c);
      S3ReversedFree(s0, c);
      assert Without(x, c);
    }
    assert forall i :: 0 <= i < |x| ==> x[i] in x && LowerChar(x[i]) == x[i];
  }

  lemma CleanIsFree(l: Labelled, c: char)
    requires Clean(l) && 'A' <= c <= 'Z'
    ensures FreeOf(l, c)
  {
    forall i | 0 <= i < |l| ensures Without(l[i], c) {
      assert CleanLabel(l[i]);
      LowerHasNoUpper(l[i], c);
    }
  }

  lemma LowerHasNoUpper(x: string, c: char)
    requires Lower(x) == x && 'A' <= c <= 'Z'
    ensures c !in x
  {
    assert forall i :: 0 <= i < |x| ==> x[i] == LowerChar(x[i]);
  }

  lemma AnsweredValid(f: Labelled -> Option<Labelled>, name: Name, r: Labelled)
    requires f(Labels(name)) == Some(r) && FreeOf(r, '.') && Rewritten(f, name).Some? && Rewritten(f, name).value == r
    ensures ValidName(r)
  {
    hide Labels;
    RejoinedLabels(r);
    assert forall i :: 0 <= i < |r| ==> r[i] in r && Without(r[i], '.');
  }

  lemma LowerName(r: Name)
    requires ValidName(r) && forall x :: x in r ==> Lower(x) == x
    ensures Labels(r) == r
  {
    LabelsAreLowered(r);
    assert forall i :: 0 <= i < |r| ==> r[i] in r;
    assert LowerAll(r) == r;
  }

  ghost predicate NoneEmpty(l: Labelled) {
    forall i :: 0 <= i < |l| ==> l[i] != ""
  }

  lemma FullSplices(v: Labelled, i: nat, x: string)
    requires NoneEmpty(v) && x != ""
    ensures NoneEmpty(Insert(v, i, x)) && NoneEmpty(Drop(v, i)) && (i < |v| ==> NoneEmpty(v[i := x]))
  {
  }

  lemma FullSides(t: Labelled, mid: Labelled)
    requires |t| > 2 && NoneEmpty(t) && NoneEmpty(mid)
    ensures NoneEmpty(t[..2] + mid + t[3..]) && NoneEmpty(t[..2] + mid + (if |t| > 4 then t[4..] else []))
  {
  }

  lemma Widen(s: Labelled)
    requires |s| > 2 && NoneEmpty(s)
    ensures NoneEmpty(if |s| == 5 then s + [s[4]] else s)
  {
  }

  /** The splices write no empty label. */
  lemma S3EditFull(k: S3Kind, s: Labelled, cn: bool)
    requires |s| > 2 && NoneEmpty(s) && (k.DashedRegion? ==> DashedRegionOf(s[2], cn) != "")
    ensures NoneEmpty(S3Edit(k, s, cn))
  {
    Widen(s);
    hide Idx, Split, Join, DashedRegionOf, Insert, Drop, NoneEmpty;
    var t := if |s| == 5 then s + [s[4]] else s;
    match k
    case Accelerated => FullSplices(t, 2, "dualstack");
    case Keyword => FullSplices(t, 4, "s3");
    case Site => FullSplices(t, 4, "s3");
    case Dashed =>
      FullSplices(t, 2, "us-east-1");
      FullSplices(Insert(t, 2, "us-east-1"), 3, "s3-r-w");
    case DashedSite =>
      assert NoneEmpty(["us-east-1", "s3-website"]) by { TwoFull("us-east-1", "s3-website"); }
      FullSides(t, ["us-east-1", "s3-website"]);
    case DashedRegion =>
      var region := DashedRegionOf(s[2], cn);
      TwoFull(region, "s3");
      FullSides(t, [region]);
      FullSides(t, [region, "s3"]);
      assert [region] + [] == [region] && [region] + ["s3"] == [region, "s3"];
    case Global => FullSplices(t, 2, "us-east-1");
  }

  lemma TwoFull(a: string, b: string)
    requires a != "" && b != ""
    ensures NoneEmpty([a]) && NoneEmpty([a, b])
  {
  }

  lemma S3FormFull(s: Labelled, cn: bool)
    requires |s| > 2 && NoneEmpty(s) && S3Form(s, cn).Some?
    ensures NoneEmpty(S3Form(s, cn).value.0)
  {
    DashedRegionHyphen(s, cn);
    hide Idx, S3KindOf, S3Edit, DashedRegionOf, NoneEmpty;
    S3EditFull(S3KindOf(s, cn).value, s, cn);
  }

  lemma S3ReversedFull(s0: Labelled)
    requires S3Reversed(s0).Some? && NoneEmpty(s0)
    ensures NoneEmpty(S3Reversed(s0).value)
  {
    var cn := Idx(s0, "cn") == 0;
    S3FormFull(if cn then s0[1..] else s0, cn);
    hide Idx, S3Form;
  }

  /** On a name with clean labels the rewrite gives up only where the port does. */
  lemma S3Refuses(name: Name)
    requires ValidName(name)
    ensures Rewritten(S3, name) == None <==> S3(Labels(name)) == None
  {
    var l := Labels(name);
    LabelsFree(name);
    LabelsValid(name);
    hide Labels, S3Reversed, Without;
    var s0 := Reverse(l);
    if S3Reversed(s0).Some? {
      var r := S3Reversed(s0).value;
      assert NoneEmpty(s0);
      S3ReversedFull(s0);
      S3ReversedFree(s0, '.');
      FreeReversed(r, '.');
      assert forall p :: p in Reverse(r) ==> p != "";
      S3ShapeReversed(s0);
      RejoinedLabels(Reverse(r));
    }
  }

  /** On names: the rewrite refuses a name it answered exactly unless the name it was given
      was of the kind that is taken again. */
  lemma S3OwnAnsweredName(name: Name)
    requires ValidName(name) && Rewritten(S3, name).Some?
    ensures var s0 := Reverse(Labels(name)); var cn := Idx(s0, "cn") == 0; var s := if cn then s0[1..] else s0;
      && |s| > 2 && S3KindOf(s, cn).Some?
      && (Rewritten(S3, Rewritten(S3, name).value) == None <==> !TakenAgain(S3KindOf(s, cn).value, s, cn))
  {
    hide Labels, Idx, S3Reversed, S3KindOf, TakenAgain, Reverse;
    var s0, r := Reverse(Labels(name)), Rewritten(S3, name).value;
    S3AnsweredName(name);
    S3OwnAnswer(s0);
    S3AnswerClean(name);
    hide Rewritten;
    S3Refuses(r);
    assert S3(r) == None <==> S3Reversed(Reverse(r)) == None;
  }

  /** `b.s3.dualstack.amazonaws.com` is rewritten, and so is its answer. */
  lemma OwnNameTaken()
    ensures var name := ["b", "s3", "dualstack", "amazonaws", "com"];
      Rewritten(S3, name).Some? && Rewritten(S3, Rewritten(S3, name).value).Some?
  {
    var name := ["b", "s3", "dualstack", "amazonaws", "com"];
    var s := ["com", "amazonaws", "dualstack", "s3", "b"];
    OwnAnswerTaken();
    LowerExample(name);
    assert Reverse(name) == s;
    hide Labels, S3Reversed, Rewritten;
    LowerName(name);
    S3Refuses(name);
    var r := Rewritten(S3, name).value;
    S3AnsweredName(name);
    S3AnswerClean(name);
    S3Refuses(r);
  }

  lemma LowerExample(name: Name)
    requires name == ["b", "s3", "dualstack", "amazonaws", "com"]
    ensures ValidName(name) && forall x :: x in name ==> Lower(x) == x
  {
    assert Lower("b") == "b" && Lower("s3") == "s3" && Lower("dualstack") == "dualstack";
    assert Lower("amazonaws") == "amazonaws" && Lower("com") == "com";
  }

  // ================================================================ Oracle

  const ORACLE_CLOUD: seq<string> := ["oraclecloud", "com"]
  const CUSTOMER_OCI: seq<string> := ["oci", "customer-oci", "com"]

  predicate Service(x: string) { x == "objectstorage" || x == "swiftobjectstorage" }

  /** The dual-stack form of an endpoint body: `ds` behind it and the suffix kept, except
      that the legacy suffix moves to the new one when the name had no `ds`. */
  function OracleBody(body: Labelled, ds: bool, suffix: Labelled): Option<Labelled> {
    var out := if suffix == ORACLE_CLOUD && !ds then CUSTOMER_OCI else suffix;
    if |body| == 2 && Service(body[0]) then Some(body + ["ds"] + out)
    else if |body| == 3 && body[0] == "compat" && body[1] == "objectstorage" then
      Some(["objectstorage", body[2], "ds"] + CUSTOMER_OCI)
    else if |body| == 3 && Service(body[1]) then Some(body + ["ds"] + out)
    else if |body| == 4 && body[1] == "compat" && body[2] == "objectstorage" then Some(body + ["ds"] + out)
    else None
  }

  predicate EndsWith(l: Labelled, suffix: Labelled) {
    |l| >= |suffix| && l[|l| - |suffix|..] == suffix
  }

  function OracleOn(l: Labelled, suffix: Labelled): Option<Labelled>
    requires EndsWith(l, suffix)
  {
    var body := l[..|l| - |suffix|];
    if |body| < 2 then None
    else if body[|body| - 1] == "ds" then OracleBody(body[..|body| - 1], true, suffix)
    else OracleBody(body, false, suffix)
  }

  function Oracle(l: Labelled): Option<Labelled> {
    if EndsWith(l, ORACLE_CLOUD) then OracleOn(l, ORACLE_CLOUD)
    else if EndsWith(l, CUSTOMER_OCI) then OracleOn(l, CUSTOMER_OCI)
    else None
  }

  /** The rewritten endpoint is left alone by the rewrite. */
  lemma OracleFixed(l: Labelled)
    requires Oracle(l).Some?
    ensures var m := Oracle(l).value; |m| >= 2 && Oracle(m) == Some(m)
  {
    var suffix := if EndsWith(l, ORACLE_CLOUD) then ORACLE_CLOUD else CUSTOMER_OCI;
    var body := l[..|l| - |suffix|];
    var ds := body[|body| - 1] == "ds";
    OracleBodyFixed(if ds then body[..|body| - 1] else body, ds, suffix);
  }

  lemma OracleBodyFixed(body: Labelled, ds: bool, suffix: Labelled)
    requires suffix == ORACLE_CLOUD || suffix == CUSTOMER_OCI
    requires OracleBody(body, ds, suffix).Some?
    ensures var m := OracleBody(body, ds, suffix).value; |m| >= 2 && Oracle(m) == Some(m)
  {
    var m := OracleBody(body, ds, suffix).value;
    var out := if suffix == ORACLE_CLOUD && !ds then CUSTOMER_OCI else suffix;
    if |body| == 3 && body[0] == "compat" && body[1] == "objectstorage" {
      assert m == ["objectstorage", body[2]] + ["ds"] + CUSTOMER_OCI;
      OracleSettled(["objectstorage", body[2]], CUSTOMER_OCI);
    } else {
      OracleSettled(body, out);
    }
  }

  /** A body in dual-stack position is settled. */
  lemma OracleSettled(body: Labelled, suffix: Labelled)
    requires suffix == ORACLE_CLOUD || suffix == CUSTOMER_OCI
    requires || (|body| == 2 && Service(body[0]))
             || (|body| == 3 && Service(body[1]) && !(body[0] == "compat" && body[1] == "objectstorage"))
             || (|body| == 4 && body[1] == "compat" && body[2] == "objectstorage")
    ensures var m := body + ["ds"] + suffix; Oracle(m) == Some(m)
  {
    var m := body + ["ds"] + suffix;
    assert m[|m| - |suffix|..] == suffix && m[..|m| - |suffix|] == body + ["ds"];
    assert (body + ["ds"])[..|body|] == body;
    assert suffix == CUSTOMER_OCI ==> !EndsWith(m, ORACLE_CLOUD) by {
      if suffix == CUSTOMER_OCI {
        assert m[|m| - 2] == suffix[1] == "customer-oci";
        assert m[|m| - 2..][0] == m[|m| - 2];
        assert ORACLE_CLOUD[0] == "oraclecloud";
      }
    }
  }

  lemma OracleLabelsClean()
    ensures CleanLabel("ds") && CleanLabel("objectstorage")
    ensures Clean(ORACLE_CLOUD) && Clean(CUSTOMER_OCI)
  {
    assert CleanLabel("oraclecloud") && CleanLabel("com") && CleanLabel("oci") && CleanLabel("customer-oci");
    hide CleanLabel;
  }

  lemma OracleClean(l: Labelled)
    requires Clean(l) && Oracle(l).Some?
    ensures Clean(Oracle(l).value)
  {
    OracleLabelsClean();
    hide CleanLabel, OracleBody;
    var suffix := if EndsWith(l, ORACLE_CLOUD) then ORACLE_CLOUD else CUSTOMER_OCI;
    var body := l[..|l| - |suffix|];
    var ds := body[|body| - 1] == "ds";
    OracleBodyClean(if ds then body[..|body| - 1] else body, ds, suffix);
  }

  lemma OracleBodyClean(body: Labelled, ds: bool, suffix: Labelled)
    requires Clean(body) && Clean(suffix) && Clean(CUSTOMER_OCI) && CleanLabel("ds") && CleanLabel("objectstorage")
    requires OracleBody(body, ds, suffix).Some?
    ensures Clean(OracleBody(body, ds, suffix).value)
  {
    hide CleanLabel, Service;
    var out := if suffix == ORACLE_CLOUD && !ds then CUSTOMER_OCI else suffix;
    assert Clean(body + ["ds"] + out);
    if |body| == 3 {
      assert Clean(["objectstorage", body[2], "ds"] + CUSTOMER_OCI);
    }
  }

  /** Rewriting an Oracle endpoint twice is rewriting it once. */
  lemma OracleIdempotent(name: Name)
    requires ValidName(name) && Rewritten(Oracle, name).Some?
    ensures Rewritten(Oracle, Rewritten(Oracle, name).value) == Rewritten(Oracle, name)
  {
    LabelsClean(name);
    OracleClean(Labels(name));
    OracleFixed(Labels(name));
    hide Oracle, Clean;
    IdempotentOnNames(Oracle, name);
  }

  method OracleRewrite(name: Name) returns (r: Option<Name>)
    ensures r == Rewritten(Oracle, name)
  {
    var l := Labels(name);
    var n := |l|;
    hide Labels, NameFromLabels;
    var suffix: Labelled;
    OracleSuffix(l);
    if n >= 2 && l[n - 2] == "oraclecloud" && l[n - 1] == "com" {
      suffix := ORACLE_CLOUD;
    } else if n >= 3 && l[n - 3] == "oci" && l[n - 2] == "customer-oci" && l[n - 1] == "com" {
      suffix := CUSTOMER_OCI;
    } else {
      return None;
    }
    var body := l[..n - |suffix|];
    if |body| < 2 {
      return None;
    }
    var dsEnabled := body[|body| - 1] == "ds";
    if dsEnabled {
      body := body[..|body| - 1];
    }
    var out := OracleAssemble(body, dsEnabled, suffix);
    assert Oracle(l) == out;
    match out {
      case None => return None;
      case Some(o) => r := NameFromLabels(o);
    }
  }

  /** The namespace, service and region of a body, pushed back in dual-stack order. */
  method OracleAssemble(body: Labelled, dsEnabled: bool, suffix: Labelled) returns (r: Option<Labelled>)
    ensures r == OracleBody(body, dsEnabled, suffix)
  {
    var namespace: Option<string> := None;
    var isCompat := false;
    var service, region;
    if |body| == 2 && (body[0] == "objectstorage" || body[0] == "swiftobjectstorage") {
      service, region := body[0], body[1];
    } else if |body| == 3 && body[0] == "compat" && body[1] == "objectstorage" {
      return Some(["objectstorage", body[2], "ds"] + CUSTOMER_OCI);
    } else if |body| == 3 && (body[1] == "objectstorage" || body[1] == "swiftobjectstorage") {
      namespace, service, region := Some(body[0]), body[1], body[2];
    } else if |body| == 4 && body[1] == "compat" && body[2] == "objectstorage" {
      namespace, isCompat := Some(body[0]), true;
      service, region := body[2], body[3];
    } else {
      return None;
    }
    var outputSuffix := if suffix == ORACLE_CLOUD && !dsEnabled then CUSTOMER_OCI else suffix;
    var out: Labelled := [];
    if namespace.Some? {
      out := out + [namespace.value];
    }
    if isCompat {
      out := out + ["compat"];
    }
    out := out + [service];
    out := out + [region];
    assert out == body;
    out := out + ["ds"];
    out := out + outputSuffix;
    r := Some(out);
  }

  lemma OracleSuffix(l: Labelled)
    ensures var n := |l|;
      EndsWith(l, ORACLE_CLOUD) <==> (n >= 2 && l[n - 2] == "oraclecloud" && l[n - 1] == "com")
    ensures var n := |l|;
      EndsWith(l, CUSTOMER_OCI) <==> (n >= 3 && l[n - 3] == "oci" && l[n - 2] == "customer-oci" && l[n - 1] == "com")
  {
    var n := |l|;
    TailIs(l, "oraclecloud", "com");
    if n >= 3 {
      var t := l[n - 3..];
      assert t[0] == l[n - 3] && t[1] == l[n - 2] && t[2] == l[n - 1];
    }
  }

  lemma TailIs(l: Labelled, a: string, b: string)
    ensures (|l| >= 2 && l[|l| - 2..] == [a, b]) <==> (|l| >= 2 && l[|l| - 2] == a && l[|l| - 1] == b)
  {
    if |l| >= 2 {
      var t := l[|l| - 2..];
      assert t[0] == l[|l| - 2] && t[1] == l[|l| - 1];
    }
  }
}
