/** What the object-store rewrites answer, endpoint by endpoint, label for label. */
module ObjectNames {
  import opened Text
  import opened Dns
  import opened Rewrites
  import opened ObjectStores

  // ================================================================ Oracle

  /** The endpoint bodies: native, in a namespace, S3-compatible, and that in a namespace. */
  datatype OracleForm = Native | Scoped | Compat | ScopedCompat

  function Body(form: OracleForm, ns: string, svc: string, region: string): Labelled {
    match form
    case Native => [svc, region]
    case Scoped => [ns, svc, region]
    case Compat => ["compat", "objectstorage", region]
    case ScopedCompat => [ns, "compat", "objectstorage", region]
  }

  const LEGACY: Labelled := ["oraclecloud", "com"]
  const CURRENT: Labelled := ["oci", "customer-oci", "com"]

  function Asked(body: Labelled, ds: bool, legacy: bool): Labelled {
    body + (if ds then ["ds"] else []) + (if legacy then LEGACY else CURRENT)
  }

  /** A name of that form: one of the two services, with `ds` behind the body or not. */
  ghost predicate OracleNamed(l: Labelled, form: OracleForm, ns: string, svc: string, region: string, ds: bool, legacy: bool) {
    && l == Asked(Body(form, ns, svc, region), ds, legacy)
    && (svc == "objectstorage" || svc == "swiftobjectstorage")
    && (!ds ==> region != "ds")
    && (form.Scoped? ==> ns != "compat" || svc != "objectstorage")
  }

  /** The answer: body kept, `ds` behind it, and the current suffix, unless the name was
      legacy and had `ds` already; the S3-compatible body alone becomes the native one under
      the current suffix. */
  function OracleAnswer(form: OracleForm, ns: string, svc: string, region: string, ds: bool, legacy: bool): Labelled {
    if form.Compat? then ["objectstorage", region, "ds"] + CURRENT
    else Body(form, ns, svc, region) + ["ds"] + (if legacy && ds then LEGACY else CURRENT)
  }

  lemma OracleSplit(body: Labelled, ds: bool, legacy: bool)
    requires |body| >= 2
    ensures var l := Asked(body, ds, legacy); var suffix := if legacy then ORACLE_CLOUD else CUSTOMER_OCI;
      && EndsWith(l, suffix) && l[..|l| - |suffix|] == body + (if ds then ["ds"] else [])
      && (!legacy ==> !EndsWith(l, ORACLE_CLOUD))
  {
    var l := Asked(body, ds, legacy);
    var suffix := if legacy then ORACLE_CLOUD else CUSTOMER_OCI;
    var front := body + (if ds then ["ds"] else []);
    EndsAt(front, suffix);
    assert l == front + suffix;
    if !legacy {
      assert l[|l| - 2..][0] == "customer-oci" && ORACLE_CLOUD[0] == "oraclecloud";
    }
  }

  lemma OracleOnLabels(form: OracleForm, ns: string, svc: string, region: string, ds: bool, legacy: bool)
    requires OracleNamed(Asked(Body(form, ns, svc, region), ds, legacy), form, ns, svc, region, ds, legacy)
    ensures Oracle(Asked(Body(form, ns, svc, region), ds, legacy)) == Some(OracleAnswer(form, ns, svc, region, ds, legacy))
  {
    var body := Body(form, ns, svc, region);
    hide Asked, OracleBody;
    OracleRead(body, ds, legacy);
    OracleBodyOf(form, ns, svc, region, ds, legacy);
  }

  lemma OracleRead(body: Labelled, ds: bool, legacy: bool)
    requires |body| >= 2 && (!ds ==> body[|body| - 1] != "ds")
    ensures Oracle(Asked(body, ds, legacy)) == OracleBody(body, ds, if legacy then ORACLE_CLOUD else CUSTOMER_OCI)
  {
    OracleSplit(body, ds, legacy);
    hide EndsWith, Asked, OracleBody;
    assert (body + ["ds"])[..|body|] == body && (body + ["ds"])[|body|] == "ds";
    assert body + [] == body;
  }

  lemma OracleBodyOf(form: OracleForm, ns: string, svc: string, region: string, ds: bool, legacy: bool)
    requires svc == "objectstorage" || svc == "swiftobjectstorage"
    requires form.Scoped? ==> ns != "compat" || svc != "objectstorage"
    ensures OracleBody(Body(form, ns, svc, region), ds, if legacy then ORACLE_CLOUD else CUSTOMER_OCI) == Some(OracleAnswer(form, ns, svc, region, ds, legacy))
  {
  }

  lemma OracleValid(form: OracleForm, ns: string, svc: string, region: string, ds: bool, legacy: bool)
    requires var l := Asked(Body(form, ns, svc, region), ds, legacy); ValidName(l) && FreeOf(l, '.')
    ensures var r := OracleAnswer(form, ns, svc, region, ds, legacy); ValidName(r) && FreeOf(r, '.')
  {
    var body := Body(form, ns, svc, region);
    assert Asked(body, ds, legacy) == body + ((if ds then ["ds"] else []) + (if legacy then LEGACY else CURRENT));
    PartsValid(body, (if ds then ["ds"] else []) + (if legacy then LEGACY else CURRENT));
    SuffixValid();
    assert body[|body| - 1] == region && '.' !in region && region != "" && Without(region, '.');
    hide ValidName, FreeOf, Without;
    var out := if legacy && ds then LEGACY else CURRENT;
    WholeValid(["ds"], out);
    WholeValid(body, ["ds"] + out);
    assert body + ["ds"] + out == body + (["ds"] + out);
    CompatValid(region);
    WholeValid(["objectstorage", region, "ds"], CURRENT);
  }

  lemma SuffixValid()
    ensures ValidName(["ds"]) && FreeOf(["ds"], '.') && ValidName(LEGACY) && FreeOf(LEGACY, '.') && ValidName(CURRENT) && FreeOf(CURRENT, '.')
  {
    assert Without("ds", '.') && Without("oraclecloud", '.') && Without("com", '.') && Without("oci", '.') && Without("customer-oci", '.');
  }

  lemma CompatValid(region: string)
    requires Without(region, '.') && region != ""
    ensures ValidName(["objectstorage", region, "ds"]) && FreeOf(["objectstorage", region, "ds"], '.')
  {
    assert Without("objectstorage", '.') && Without("ds", '.');
  }

  /** Oracle names keep namespace, service and region, and get `ds` under the right suffix. */
  lemma OracleAnswers(name: Name, form: OracleForm, ns: string, svc: string, region: string, ds: bool, legacy: bool)
    requires ValidName(name) && OracleNamed(LowerAll(name), form, ns, svc, region, ds, legacy)
    ensures Rewritten(Oracle, name) == Some(OracleAnswer(form, ns, svc, region, ds, legacy))
  {
    LoweredValid(name);
    hide LowerAll, Oracle, OracleAnswer;
    OracleOnLabels(form, ns, svc, region, ds, legacy);
    OracleValid(form, ns, svc, region, ds, legacy);
    RewrittenIs(Oracle, name);
  }

  /** Which form an accepted body is of. */
  lemma OracleFormOf(body: Labelled, dsd: bool, suffix: Labelled) returns (form: OracleForm, ns: string, svc: string, region: string)
    requires OracleBody(body, dsd, suffix).Some?
    ensures body == Body(form, ns, svc, region) && (svc == "objectstorage" || svc == "swiftobjectstorage")
    ensures form.Scoped? ==> ns != "compat" || svc != "objectstorage"
    ensures |body| > 0 && region == body[|body| - 1]
  {
    if |body| == 2 {
      form, ns, svc, region := Native, "", body[0], body[1];
    } else if |body| == 3 && body[0] == "compat" && body[1] == "objectstorage" {
      form, ns, svc, region := Compat, "", "objectstorage", body[2];
    } else if |body| == 3 {
      form, ns, svc, region := Scoped, body[0], body[1], body[2];
    } else {
      form, ns, svc, region := ScopedCompat, body[0], "objectstorage", body[3];
    }
  }

  /** A list the rewrite accepts is a name of one of the forms. */
  lemma OracleAccepted(l: Labelled)
    requires Oracle(l).Some?
    ensures exists form, ns, svc, region, ds, legacy :: OracleNamed(l, form, ns, svc, region, ds, legacy)
  {
    var legacy := EndsWith(l, ORACLE_CLOUD);
    var suffix := if legacy then ORACLE_CLOUD else CUSTOMER_OCI;
    var all := l[..|l| - |suffix|];
    var ds := all[|all| - 1] == "ds";
    var body := if ds then all[..|all| - 1] else all;
    var form, ns, svc, region := OracleFormOf(body, ds, suffix);
    assert all == body + (if ds then ["ds"] else []);
    assert l == all + suffix;
    hide Oracle, OracleBody;
    assert OracleNamed(l, form, ns, svc, region, ds, legacy);
  }

  /** Only names of those forms are rewritten. */
  lemma OracleOnly(name: Name)
    requires ValidName(name)
    ensures Rewritten(Oracle, name).Some? <==>
      exists form, ns, svc, region, ds, legacy :: OracleNamed(LowerAll(name), form, ns, svc, region, ds, legacy)
  {
    LabelsAreLowered(name);
    hide LowerAll, Labels, Oracle, OracleNamed;
    if form, ns, svc, region, ds, legacy :| OracleNamed(LowerAll(name), form, ns, svc, region, ds, legacy) {
      OracleAnswers(name, form, ns, svc, region, ds, legacy);
    }
    if Rewritten(Oracle, name).Some? {
      OracleAccepted(LowerAll(name));
    }
  }

  // ================================================================ S3

  /** A reversed S3 list: `cn` or not, the TLD and `amazonaws`, the service labels, the bucket. */
  function S3List(cn: bool, service: Labelled, bucket: Labelled): Labelled {
    (if cn then ["cn"] else []) + ["com", "amazonaws"] + service + bucket
  }

  /** The labels that mean something where a bucket's first label may stand. */
  predicate Ordinary(bucket: Labelled) {
    |bucket| > 0 ==>
      && bucket[0] != "dualstack" && bucket[0] != "s3" && bucket[0] != "s3-control"
      && bucket[0] != "s3-accesspoint" && bucket[0] != "s3-website"
  }

  lemma S3ListParts(cn: bool, service: Labelled, bucket: Labelled)
    requires |service| > 0
    ensures var s0 := S3List(cn, service, bucket); var s := ["com", "amazonaws"] + service + bucket;
      && (Idx(s0, "cn") == 0 <==> cn) && (cn ==> s0[1..] == s) && (!cn ==> s0 == s)
      && s[0] == "com" && s[1] == "amazonaws" && |s| > 2 && s[2] == service[0] && Idx(s, "amazonaws") == 1
      && (|service| == 1 && |bucket| > 0 ==> s[3] == bucket[0]) && (|service| > 1 ==> s[3] == service[1])
      && s[2 + |service|..] == bucket
  {
    var s0, s := S3List(cn, service, bucket), ["com", "amazonaws"] + service + bucket;
    IdxIsFirst(s0, "cn");
    IdxIsFirst(s, "amazonaws");
    hide Idx;
    assert cn ==> s0[0] == "cn" && s0[1..] == s;
    assert !cn ==> s0 == s;
    assert s[0] == "com" && s[1] == "amazonaws" && "com" != "cn";
  }

  /** Once the form is known, the answer is its endpoint and what it carries of the bucket. */
  lemma S3OfKind(cn: bool, service: Labelled, bucket: Labelled, k: S3Kind)
    requires 0 < |service| && S3HeadSize(k) == 2 + |service|
    requires S3KindOf(["com", "amazonaws"] + service + bucket, cn) == Some(k)
    requires Idx(["com", "amazonaws"] + service + bucket, "dualstack") != 3
    ensures S3Reversed(S3List(cn, service, bucket))
      == Some(S3Endpoint(k, ["com", "amazonaws"] + service + bucket, cn) + Carried(k, bucket))
  {
    var s0, s := S3List(cn, service, bucket), ["com", "amazonaws"] + service + bucket;
    S3ListParts(cn, service, bucket);
    S3Taken(s0, cn, s);
    hide Idx, S3KindOf, S3Reversed, S3Endpoint, Carried, S3List;
    S3KeepsBucket(s0);
  }

  lemma S3Taken(s0: Labelled, cn: bool, s: Labelled)
    requires cn == (Idx(s0, "cn") == 0) && s == (if cn then s0[1..] else s0)
    requires Idx(s, "amazonaws") == 1 && |s| > 2 && Idx(s, "dualstack") != 3 && S3KindOf(s, cn).Some?
    ensures S3Reversed(s0).Some?
  {
    hide Idx, S3KindOf, S3Edit;
  }

  /** The service keywords that stand behind a region. */
  predicate RegionalService(w: string) { w == "s3" || w == "s3-control" || w == "s3-accesspoint" || w == "s3-website" }

  lemma RegionalKind(region: string, w: string, bucket: Labelled, cn: bool)
    requires PlainRegion(region) && RegionalService(w)
    ensures var s := ["com", "amazonaws"] + [region, w] + bucket;
      S3KindOf(s, cn) == Some(if w == "s3-website" then Site else Keyword) && Idx(s, "dualstack") != 3
  {
    var s := ["com", "amazonaws"] + [region, w] + bucket;
    assert s[0] == "com" && s[1] == "amazonaws" && s[2] == region && s[3] == w;
    IdxIsFirst(s, "s3-accelerate");
    IdxIsFirst(s, "console-l");
    IdxIsFirst(s, "dualstack");
    RegionalIndex(s, w);
    hide Idx, Split;
  }

  lemma RegionalIndex(s: Labelled, w: string)
    requires |s| > 3 && s[0] == "com" && s[1] == "amazonaws" && PlainRegion(s[2]) && s[3] == w && RegionalService(w)
    ensures Idx(s, "s3") == 3 <==> w == "s3"
    ensures Idx(s, "s3-control") == 3 <==> w == "s3-control"
    ensures Idx(s, "s3-accesspoint") == 3 <==> w == "s3-accesspoint"
    ensures Idx(s, "s3-website") == 3 <==> w == "s3-website"
  {
    IdxIsFirst(s, "s3");
    IdxIsFirst(s, "s3-control");
    IdxIsFirst(s, "s3-accesspoint");
    IdxIsFirst(s, "s3-website");
    PlainIsNoService(s[2]);
    hide Idx, PlainRegion;
  }

  lemma PlainIsNoService(region: string)
    requires PlainRegion(region)
    ensures region != "s3-control" && region != "s3-accesspoint" && region != "s3-website"
  {
    TwoPieces("s3", "control");
    TwoPieces("s3", "accesspoint");
    TwoPieces("s3", "website");
    S3Texts();
    hide Split;
  }

  lemma S3Texts()
    ensures "s3" + ['-'] + "control" == "s3-control" && "s3" + ['-'] + "accesspoint" == "s3-accesspoint"
    ensures "s3" + ['-'] + "website" == "s3-website" && "s3" + ['-'] + "accelerate" == "s3-accelerate"
    ensures '-' !in "s3" && '-' !in "control" && '-' !in "accesspoint" && '-' !in "website" && '-' !in "accelerate"
  {
  }

  /** A head of four labels, finished. */
  lemma FinishedList(head: Labelled, a: string, b: string, keep: bool, c: Labelled)
    requires head == ["com", "amazonaws", a, b] && a != "dualstack"
    ensures Finished(head, keep) + c == S3List(keep, [a, "dualstack", b], c)
  {
    assert Insert(head, 3, "dualstack") == ["com", "amazonaws"] + [a, "dualstack", b];
    hide Insert;
    Regroup(keep, [a, "dualstack", b], c);
  }

  /** A service behind its region gets `dualstack` between the two; `cn` comes back, but not
      for a website. */
  lemma RegionalAnswers(cn: bool, region: string, w: string, bucket: Labelled)
    requires PlainRegion(region) && RegionalService(w)
    ensures S3Reversed(S3List(cn, [region, w], bucket))
      == Some(S3List(cn && w != "s3-website", [region, "dualstack", w], if |bucket| <= 1 then bucket else bucket[1..]))
  {
    var k := if w == "s3-website" then Site else Keyword;
    var s := ["com", "amazonaws"] + [region, w] + bucket;
    RegionalKind(region, w, bucket, cn);
    hide S3KindOf, Idx, S3Reversed, Finished, PlainRegion;
    S3OfKind(cn, [region, w], bucket, k);
    var c := if |bucket| <= 1 then bucket else bucket[1..];
    assert Carried(k, bucket) == c;
    assert S3Head(k, s, cn) == ["com", "amazonaws", region, w];
    assert region != "dualstack" by { PlainNotDual(region); }
    FinishedList(S3Head(k, s, cn), region, w, cn && w != "s3-website", c);
  }

  lemma PlainNotDual(region: string)
    requires PlainRegion(region)
    ensures region != "dualstack"
  {
  }

  /** A bucket of exactly two labels gets its last one twice. */
  function Doubled(bucket: Labelled): Labelled {
    if |bucket| == 2 then [bucket[0], bucket[1], bucket[1]] else bucket
  }

  lemma CarriedDoubled(k: S3Kind, bucket: Labelled)
    requires k.Accelerated? || k.Dashed? || k.DashedRegion? || k.Global?
    ensures Carried(k, bucket) == Doubled(bucket)
  {
    assert |bucket| == 2 ==> bucket + [bucket[1]] == [bucket[0], bucket[1], bucket[1]];
  }

  /** `s3` alone gets the default region. */
  lemma GlobalAnswers(bucket: Labelled)
    requires Ordinary(bucket)
    ensures S3Reversed(S3List(false, ["s3"], bucket)) == Some(S3List(false, ["us-east-1", "dualstack", "s3"], Doubled(bucket)))
  {
    var s := ["com", "amazonaws"] + ["s3"] + bucket;
    ServiceKind("s3", bucket, false);
    OneService("s3");
    hide S3KindOf, Idx, S3Reversed;
    S3OfKind(false, ["s3"], bucket, Global);
    CarriedDoubled(Global, bucket);
    var head := S3Head(Global, s, false);
    assert s[..2] == ["com", "amazonaws"] && s[2] == "s3";
    assert head == ["com", "amazonaws", "us-east-1", "s3"];
    assert Insert(head, 3, "dualstack") == ["com", "amazonaws"] + ["us-east-1", "dualstack", "s3"];
    hide S3Head, Insert, Carried, Doubled;
    assert [] + ["com", "amazonaws"] == ["com", "amazonaws"];
  }

  lemma OneService(x: string)
    requires '-' !in x
    ensures Split(x, '-') == [x]
  {
    SplitPiece(x, '-');
  }

  /** The form of a list whose third label holds the service, by that label's pieces. */
  lemma ServiceKind(x: string, bucket: Labelled, cn: bool)
    requires Ordinary(bucket) && x != "dualstack" && x != "com" && x != "amazonaws"
    ensures var s := ["com", "amazonaws"] + [x] + bucket; var ss := Split(x, '-');
      && Idx(s, "dualstack") != 3
      && S3KindOf(s, cn) ==
        if x == "s3-accelerate" then Some(Accelerated)
        else if ss[0] != "s3" then None
        else if (|ss| == 2 || |ss| == 3) && !cn then Some(Dashed)
        else if |ss| > 1 && ss[1] == "website" then Some(DashedSite)
        else if |ss| > 1 then Some(DashedRegion)
        else if !cn then Some(Global) else None
  {
    var s := ["com", "amazonaws"] + [x] + bucket;
    assert s[0] == "com" && s[1] == "amazonaws" && s[2] == x && (|s| > 3 ==> s[3] == bucket[0]);
    IdxIsFirst(s, "dualstack");
    IdxIsFirst(s, "s3-accelerate");
    IdxIsFirst(s, "console-l");
    OrdinaryIndex(s);
    KeywordPieces(x);
    hide Idx, Split, Join;
  }

  lemma OrdinaryIndex(s: Labelled)
    requires |s| > 2 && s[0] == "com" && s[1] == "amazonaws" && Ordinary(s[3..])
    ensures Idx(s, "s3-accesspoint") != 3 && Idx(s, "s3-website") != 3 && Idx(s, "s3") != 3 && Idx(s, "s3-control") != 3
    ensures Idx(s, "s3") == 2 <==> s[2] == "s3"
  {
    IdxIsFirst(s, "s3-accesspoint");
    IdxIsFirst(s, "s3-website");
    IdxIsFirst(s, "s3");
    IdxIsFirst(s, "s3-control");
    assert |s| > 3 ==> s[3..][0] == s[3];
    hide Idx;
  }

  /** Transfer acceleration goes behind `dualstack`, and loses a `cn`. */
  lemma AcceleratedAnswers(cn: bool, bucket: Labelled)
    requires Ordinary(bucket)
    ensures S3Reversed(S3List(cn, ["s3-accelerate"], bucket)) == Some(S3List(false, ["dualstack", "s3-accelerate"], Doubled(bucket)))
  {
    var s := ["com", "amazonaws"] + ["s3-accelerate"] + bucket;
    ServiceKind("s3-accelerate", bucket, cn);
    hide S3KindOf, Idx, S3Reversed;
    S3OfKind(cn, ["s3-accelerate"], bucket, Accelerated);
    CarriedDoubled(Accelerated, bucket);
    assert s[..2] == ["com", "amazonaws"] && s[2] == "s3-accelerate";
    assert S3Head(Accelerated, s, cn) == ["com", "amazonaws"] + ["dualstack", "s3-accelerate"];
    assert S3Head(Accelerated, s, cn)[2] == "dualstack";
    hide S3Head, Insert, Carried, Doubled;
    assert [] + ["com", "amazonaws"] == ["com", "amazonaws"];
  }

  /** `s3-x` and `s3-x-y` are kept under the default region, but that `s3-1` and `s3-1-y`
      become the read-write endpoint. */
  lemma DashedAnswers(x: string, more: seq<string>, bucket: Labelled)
    requires Ordinary(bucket) && |more| <= 1 && FreeOf([x] + more, '-')
    requires x != "accelerate" || more != []
    ensures var service := Join(["s3", x] + more, '-');
      S3Reversed(S3List(false, [service], bucket))
      == Some(S3List(false, ["us-east-1", "dualstack", if x == "1" then "s3-r-w" else service], Doubled(bucket)))
  {
    var service := Join(["s3", x] + more, '-');
    var s := ["com", "amazonaws"] + [service] + bucket;
    DashedPieces(x, more);
    ServiceKind(service, bucket, false);
    hide S3KindOf, Idx, S3Reversed, Split, Join, Finished;
    S3OfKind(false, [service], bucket, Dashed);
    CarriedDoubled(Dashed, bucket);
    DashedHead(s, service, x);
    hide S3Head, Carried, Doubled;
    FinishedList(S3Head(Dashed, s, false), "us-east-1", if x == "1" then "s3-r-w" else service, false, Doubled(bucket));
  }

  lemma DashedHead(s: Labelled, service: string, x: string)
    requires |s| > 2 && s[..2] == ["com", "amazonaws"] && s[2] == service
    requires |Split(service, '-')| > 1 && Split(service, '-')[1] == x
    ensures S3Head(Dashed, s, false) == ["com", "amazonaws", "us-east-1", if x == "1" then "s3-r-w" else service]
  {
    hide Split;
  }

  /** A dashed service label reads back as its pieces, and is no label of another kind. */
  lemma DashedPieces(x: string, more: seq<string>)
    requires FreeOf([x] + more, '-')
    ensures var service := Join(["s3", x] + more, '-');
      && Split(service, '-') == ["s3", x] + more
      && service != "dualstack" && service != "com" && service != "amazonaws"
      && (service == "s3-accelerate" <==> x == "accelerate" && more == [])
  {
    var pieces := ["s3", x] + more;
    S3Texts();
    hide Split, Join;
    FreeCons("s3", [x] + more);
    assert ["s3"] + ([x] + more) == pieces;
    SplitJoin(pieces, '-');
    SeveralPieces(Join(pieces, '-'));
    assert pieces[0] == "s3" && pieces[1] == x && pieces[2..] == more;
    assert pieces == ["s3", "accelerate"] <==> x == "accelerate" && more == [];
  }

  /** A label of several pieces that starts with `s3`. */
  lemma SeveralPieces(service: string)
    requires |Split(service, '-')| > 1
    ensures service != "dualstack" && service != "com" && service != "amazonaws"
    ensures service == "s3-accelerate" <==> Split(service, '-') == ["s3", "accelerate"]
  {
    hide Split, Join;
    NoHyphens();
    OneService("dualstack");
    OneService("com");
    OneService("amazonaws");
    AcceleratePieces(service);
  }

  lemma NoHyphens()
    ensures '-' !in "dualstack" && '-' !in "com" && '-' !in "amazonaws"
  {
  }

  lemma AcceleratePieces(service: string)
    ensures service == "s3-accelerate" <==> Split(service, '-') == ["s3", "accelerate"]
  {
    hide Split, Join;
    S3Texts();
    TwoPieces("s3", "accelerate");
    JoinSplit(service, '-');
    JoinTwo("s3", "accelerate");
  }

  lemma FreeCons(p: string, rest: seq<string>)
    requires '-' !in p && FreeOf(rest, '-')
    ensures FreeOf([p] + rest, '-')
  {
    assert Without(p, '-');
  }

  /** The dashed website form gets the default region, and its first label goes. */
  lemma DashedSiteAnswers(cn: bool, more: seq<string>, bucket: Labelled)
    requires Ordinary(bucket) && |more| >= 2 && FreeOf(more, '-')
    ensures S3Reversed(S3List(cn, [Join(["s3", "website"] + more, '-')], bucket))
      == Some(S3List(cn, ["us-east-1", "dualstack", "s3-website"], if |bucket| == 0 then [] else Doubled(bucket)[1..]))
  {
    hide S3KindOf, Idx, S3Reversed, Split, Join, Finished;
    var service := Join(["s3", "website"] + more, '-');
    var s := ["com", "amazonaws"] + [service] + bucket;
    DashedSiteKind(cn, more, bucket);
    S3OfKind(cn, [service], bucket, DashedSite);
    SiteCarried(bucket);
    assert s[..2] == ["com", "amazonaws"];
    assert S3Head(DashedSite, s, cn) == ["com", "amazonaws", "us-east-1", "s3-website"];
    hide S3Head, Carried, Doubled;
    FinishedList(S3Head(DashedSite, s, cn), "us-east-1", "s3-website", cn, Carried(DashedSite, bucket));
  }

  lemma DashedSiteKind(cn: bool, more: seq<string>, bucket: Labelled)
    requires Ordinary(bucket) && |more| >= 2 && FreeOf(more, '-')
    ensures var s := ["com", "amazonaws"] + [Join(["s3", "website"] + more, '-')] + bucket;
      S3KindOf(s, cn) == Some(DashedSite) && Idx(s, "dualstack") != 3
  {
    hide S3KindOf, Idx, Split, Join;
    var service := Join(["s3", "website"] + more, '-');
    S3Texts();
    FreeCons("website", more);
    assert ["website"] + more != [];
    DashedPieces("website", more);
    ServiceKind(service, bucket, cn);
    assert (["s3", "website"] + more)[1] == "website";
  }

  lemma SiteCarried(bucket: Labelled)
    ensures Carried(DashedSite, bucket) == if |bucket| == 0 then [] else Doubled(bucket)[1..]
  {
    assert |bucket| == 2 ==> bucket + [bucket[1]] == Doubled(bucket);
  }

  lemma Regroup(cn: bool, service: Labelled, c: Labelled)
    ensures (if cn then ["cn"] + (["com", "amazonaws"] + service) else ["com", "amazonaws"] + service) + c == S3List(cn, service, c)
  {
    assert [] + ["com", "amazonaws"] == ["com", "amazonaws"];
  }

  /** `s3-<region>` of three pieces is that region's endpoint. */
  lemma DashedRegionAnswers(a: string, b: string, c: string, bucket: Labelled)
    requires Ordinary(bucket) && "s3" !in bucket && FreeOf([a, b, c], '-') && a != "website"
    ensures S3Reversed(S3List(false, [Join(["s3", a, b, c], '-')], bucket))
      == Some(S3List(false, [Join([a, b, c], '-'), "dualstack", "s3"], Doubled(bucket)))
  {
    var service, region := Join(["s3", a, b, c], '-'), Join([a, b, c], '-');
    var s := ["com", "amazonaws"] + [service] + bucket;
    assert [a] + [b, c] == [a, b, c] && ["s3", a] + [b, c] == ["s3", a, b, c];
    DashedPieces(a, [b, c]);
    ServiceKind(service, bucket, false);
    NoS3(s, service, bucket);
    JoinHasSeparator([a, b, c], '-');
    assert region != "dualstack" by { assert '-' !in "dualstack"; }
    assert DashedRegionOf(service, false) == region by { assert ["s3", a, b, c][1..] == [a, b, c]; }
    hide S3KindOf, Idx, S3Reversed, Split, Join, DashedRegionOf;
    S3OfKind(false, [service], bucket, DashedRegion);
    CarriedDoubled(DashedRegion, bucket);
    assert s[..2] == ["com", "amazonaws"] && s[2] == service;
    var head := S3Head(DashedRegion, s, false);
    assert head == ["com", "amazonaws", region, "s3"];
    assert Insert(head, 3, "dualstack") == ["com", "amazonaws"] + [region, "dualstack", "s3"];
    hide S3Head, Insert;
    Regroup(false, [region, "dualstack", "s3"], Doubled(bucket));
  }

  lemma NoS3(s: Labelled, service: string, bucket: Labelled)
    requires s == ["com", "amazonaws"] + [service] + bucket && "s3" !in bucket && Split(service, '-')[0] == "s3" && |Split(service, '-')| > 1
    ensures Idx(s, "s3") == -1
  {
    IdxIsFirst(s, "s3");
    KeywordPieces("s3");
    hide Idx, Split;
    assert forall i :: 0 <= i < |s| ==> s[i] == if i < 2 then ["com", "amazonaws"][i] else if i == 2 then service else bucket[i - 3];
  }

  /** What is refused: other names, */
  lemma OthersRefused(cn: bool, s: Labelled)
    requires |s| > 0 ==> s[0] != "cn"
    requires |s| <= 2 || s[1] != "amazonaws" || s[0] == "amazonaws"
    ensures S3Reversed((if cn then ["cn"] else []) + s) == None
  {
    Prefixed(cn, s);
    IdxIsFirst(s, "amazonaws");
    hide Idx, S3Form;
  }

  /** names that are dual-stack already, */
  lemma DualStackRefused(cn: bool, s: Labelled)
    requires |s| > 3 && s[0] != "cn" && s[0] != "dualstack" && s[1] != "dualstack" && s[2] != "dualstack" && s[3] == "dualstack"
    ensures S3Reversed((if cn then ["cn"] else []) + s) == None
  {
    hide Idx, S3Form;
    Prefixed(cn, s);
    DualStackIndex(s);
  }

  lemma DualStackIndex(s: Labelled)
    requires |s| > 3 && s[0] != "dualstack" && s[1] != "dualstack" && s[2] != "dualstack" && s[3] == "dualstack"
    ensures Idx(s, "dualstack") == 3
  {
    IdxIsFirst(s, "dualstack");
    hide Idx;
  }

  /** and names without an S3 service in either of its places. */
  lemma NoServiceRefused(cn: bool, s: Labelled)
    requires |s| > 2 && s[0] != "cn" && Split(s[2], '-')[0] != "s3" && (|s| > 3 ==> !RegionalService(s[3]))
    ensures S3Reversed((if cn then ["cn"] else []) + s) == None
  {
    Prefixed(cn, s);
    NoServiceKind(s, cn);
    hide Idx, S3KindOf, S3Edit;
  }

  lemma NoServiceKind(s: Labelled, cn: bool)
    requires |s| > 2 && Split(s[2], '-')[0] != "s3" && (|s| > 3 ==> !RegionalService(s[3]))
    ensures S3KindOf(s, cn) == None
  {
    IdxIsFirst(s, "s3-accelerate");
    IdxIsFirst(s, "s3-accesspoint");
    IdxIsFirst(s, "s3-website");
    IdxIsFirst(s, "s3-control");
    IdxIsFirst(s, "s3");
    KeywordPieces(s[2]);
    hide Idx, Split;
  }

  lemma Prefixed(cn: bool, s: Labelled)
    requires |s| > 0 ==> s[0] != "cn"
    ensures var s0 := (if cn then ["cn"] else []) + s;
      (Idx(s0, "cn") == 0 <==> cn) && (if cn then s0[1..] else s0) == s
  {
    var s0 := (if cn then ["cn"] else []) + s;
    IdxIsFirst(s0, "cn");
    hide Idx;
    assert cn ==> s0[0] == "cn" && s0[1..] == s;
    assert !cn ==> s0 == s;
  }

  // ================================================================ OSS

  /** Which lists the OSS port takes: those under `com` and one of its two domains, with a
      label more. */
  lemma OssOnly(s: Labelled)
    ensures OssReversed(s).Some? <==> |s| > 2 && s[0] == "com" && (s[1] == "aliyuncs" || s[1] == "aliyun-inc")
  {
    hide OssBody;
  }

  /** The service alone gets the default region, under either domain. */
  lemma OssAlone(domain: string)
    requires domain == "aliyuncs" || domain == "aliyun-inc"
    ensures OssReversed(["com", domain, "oss"]) == Some(["com", "aliyuncs", "oss", "cn-hangzhou"])
  {
    EmptyIsNoRegion();
    RegionOrUnknown([]);
    DefaultRegionText();
    assert ["cn", "hangzhou"] + [] == ["cn", "hangzhou"];
    hide Join, RegionOr, KnownRegion;
    assert ["com", domain, "oss"][2..] == ["oss"];
    var s := ["com", "aliyuncs"] + ["oss"];
    assert s == ["com", "aliyuncs", "oss"] && s[..2] == ["com", "aliyuncs"];
    assert OssBody(s) == ["com", "aliyuncs"] + ["oss", "cn-hangzhou"];
    assert ["com", "aliyuncs"] + ["oss", "cn-hangzhou"] == ["com", "aliyuncs", "oss", "cn-hangzhou"];
  }

  /** The older domain becomes the current one, for every list. */
  lemma OssDomain(rest: Labelled)
    requires |rest| > 0
    ensures OssReversed(["com", "aliyun-inc"] + rest) == OssReversed(["com", "aliyuncs"] + rest)
  {
    assert (["com", "aliyun-inc"] + rest)[2..] == rest && (["com", "aliyuncs"] + rest)[2..] == rest;
    hide OssBody;
  }

  /** `oss-<region>` becomes that region under `oss`; a single label in front of it goes. */
  lemma OssRegionService(region: string, rest: Labelled)
    ensures OssReversed(["com", "aliyuncs", "oss-" + region] + rest)
      == Some(["com", "aliyuncs", "oss", region] + (if |rest| == 1 && rest[0] != "oss" then [] else rest))
  {
    var service := "oss-" + region;
    assert "oss" + ['-'] + region == service;
    assert '-' !in "oss";
    SplitAt("oss", '-', region);
    JoinSplit(region, '-');
    assert (["oss"] + Split(region, '-'))[1..] == Split(region, '-');
    assert Join(WithoutOss(Split(service, '-')), '-') == region;
    assert |service| > 3 && service != "oss";
    var s := ["com", "aliyuncs", service] + rest;
    hide Split, Join, WithoutOss;
    OssUnder(s);
    assert s[..2] == ["com", "aliyuncs"] && s[2] == service && s[3..] == rest;
    assert |s| == 4 ==> s[3] == rest[0];
    hide OssReversed;
    assert ["com", "aliyuncs"] + ["oss"] + [region] == ["com", "aliyuncs", "oss", region];
  }

  /** Any other label stays; a single label in front of it goes too. */
  lemma OssOtherService(service: string, rest: Labelled)
    requires Split(service, '-')[0] != "oss"
    ensures OssReversed(["com", "aliyuncs", service] + rest)
      == Some(["com", "aliyuncs", service] + (if |rest| == 1 && rest[0] != "oss" then [] else rest))
  {
    JoinSplit(service, '-');
    SplitPiece("oss", '-');
    var s := ["com", "aliyuncs", service] + rest;
    hide Split, Join;
    OssUnder(s);
    assert s[..2] == ["com", "aliyuncs"] && s[2] == service && s[3..] == rest;
    assert |s| == 4 ==> s[3] == rest[0];
    hide OssReversed;
    assert ["com", "aliyuncs"] + [] + [service] == ["com", "aliyuncs", service];
  }
}
