/** The string operations the resolver is built from: splitting and joining on a
    separator, trimming, and ASCII lower-casing, with their round trips. */
module Text {

  datatype Option<+T> = None | Some(value: T)

  function Min(a: nat, b: nat): nat { if a < b then a else b }

  function One(b: bool): nat { if b then 1 else 0 }

  // ---------------------------------------------------------------- split and join

  /** Rust's `str::split(c)`: always at least one piece. */
  function Split(s: string, c: char): (pieces: seq<string>)
    ensures |pieces| >= 1
  {
    if s == "" then [""]
    else
      var rest := Split(s[1..], c);
      if s[0] == c then [""] + rest else [[s[0]] + rest[0]] + rest[1..]
  }

  function Join(parts: seq<string>, c: char): string {
    if |parts| == 0 then ""
    else if |parts| == 1 then parts[0]
    else parts[0] + [c] + Join(parts[1..], c)
  }

  ghost predicate Without(part: string, c: char) { c !in part }

  /** No part holds the separator. */
  ghost predicate FreeOf(parts: seq<string>, c: char) {
    forall i :: 0 <= i < |parts| ==> Without(parts[i], c)
  }

  lemma {:induction false} SplitFree(s: string, c: char)
    ensures FreeOf(Split(s, c), c)
  {
    if s != "" {
      SplitFree(s[1..], c);
    }
  }

  lemma {:induction false} SplitPiece(p: string, c: char)
    requires c !in p
    ensures Split(p, c) == [p]
  {
    if p != "" {
      SplitPiece(p[1..], c);
      assert p[0] in p;
      assert [p[0]] + p[1..] == p;
    }
  }

  lemma {:induction false} SplitAt(p: string, c: char, s: string)
    requires c !in p
    ensures Split(p + [c] + s, c) == [p] + Split(s, c)
  {
    if p == "" {
      assert p + [c] + s == [c] + s;
    } else {
      SplitAt(p[1..], c, s);
      assert (p + [c] + s)[1..] == p[1..] + [c] + s;
      assert [p[0]] + p[1..] == p;
    }
  }

  /** Splitting undoes joining when no part holds the separator. */
  lemma {:induction false} SplitJoin(parts: seq<string>, c: char)
    requires |parts| >= 1 && FreeOf(parts, c)
    ensures Split(Join(parts, c), c) == parts
  {
    if |parts| == 1 {
      SplitPiece(parts[0], c);
    } else {
      assert FreeOf(parts[1..], c);
      SplitJoin(parts[1..], c);
      SplitAt(parts[0], c, Join(parts[1..], c));
    }
  }

  /** Joining undoes splitting. */
  lemma {:induction false} JoinSplit(s: string, c: char)
    ensures Join(Split(s, c), c) == s
  {
    if s != "" {
      JoinSplit(s[1..], c);
      var rest := Split(s[1..], c);
      if s[0] == c {
        assert ([""] + rest)[1..] == rest;
      } else if |rest| > 1 {
        var pieces := [[s[0]] + rest[0]] + rest[1..];
        assert pieces[1..] == rest[1..];
      }
    }
  }

  lemma {:induction false} JoinAppend(a: seq<string>, b: seq<string>, c: char)
    requires |a| >= 1 && |b| >= 1
    ensures Join(a + b, c) == Join(a, c) + [c] + Join(b, c)
  {
    if |a| == 1 {
      assert (a + b)[1..] == b;
    } else {
      JoinAppend(a[1..], b, c);
      assert (a + b)[1..] == a[1..] + b;
    }
  }

  /** Splitting and joining bring in no characters but the separator. */
  lemma {:induction false} SplitKeepsOut(s: string, c: char, d: char)
    requires d !in s
    ensures FreeOf(Split(s, c), d)
  {
    if s != "" {
      SplitKeepsOut(s[1..], c, d);
      assert s[0] in s;
    }
  }

  lemma {:induction false} JoinKeepsOut(parts: seq<string>, c: char, d: char)
    requires FreeOf(parts, d) && c != d
    ensures Without(Join(parts, c), d)
  {
    if |parts| > 1 {
      JoinKeepsOut(parts[1..], c, d);
    }
  }

  /** Two lists of separator-free parts with the same text are the same list. */
  lemma JoinInjective(a: seq<string>, b: seq<string>, c: char)
    requires |a| >= 1 && |b| >= 1 && FreeOf(a, c) && FreeOf(b, c)
    requires Join(a, c) == Join(b, c)
    ensures a == b
  {
    SplitJoin(a, c);
    SplitJoin(b, c);
  }

  // ---------------------------------------------------------------- trimming, case

  /** Rust's `trim_end_matches(c)`. */
  function TrimEnd(s: string, c: char): string
  {
    if s != "" && s[|s| - 1] == c then TrimEnd(s[..|s| - 1], c) else s
  }

  lemma {:induction false} TrimEndOnce(s: string, c: char)
    requires s == "" || s[|s| - 1] != c
    ensures TrimEnd(s + [c], c) == s && TrimEnd(s, c) == s
  {
    assert (s + [c])[..|s|] == s;
  }

  /** The Unicode `White_Space` property, by code point. */
  predicate WhiteSpace(c: int) {
    || 0x09 <= c <= 0x0D || c == 0x20 || c == 0x85 || c == 0xA0 || c == 0x1680
    || 0x2000 <= c <= 0x200A || c == 0x2028 || c == 0x2029 || c == 0x202F || c == 0x205F || c == 0x3000
  }

  /** A sequence without the blanks around it. */
  function TrimBlank<T>(blank: T -> bool, s: seq<T>): seq<T> {
    if |s| > 0 && blank(s[0]) then TrimBlank(blank, s[1..])
    else if |s| > 0 && blank(s[|s| - 1]) then TrimBlank(blank, s[..|s| - 1])
    else s
  }

  lemma TrimBlankStart<T>(blank: T -> bool, s: seq<T>)
    ensures |TrimBlank(blank, s)| > 0 ==> !blank(TrimBlank(blank, s)[0])
  {
  }

  function LowerChar(ch: char): char {
    if 'A' <= ch <= 'Z' then ch + 32 as char else ch
  }

  function Lower(s: string): (r: string)
    ensures |r| == |s|
    ensures forall i :: 0 <= i < |s| ==> r[i] == LowerChar(s[i])
  {
    seq(|s|, i requires 0 <= i < |s| => LowerChar(s[i]))
  }

  function LowerAll(parts: seq<string>): (r: seq<string>)
    ensures |r| == |parts|
    ensures forall i :: 0 <= i < |parts| ==> r[i] == Lower(parts[i])
  {
    seq(|parts|, i requires 0 <= i < |parts| => Lower(parts[i]))
  }

  lemma LowerIdempotent(s: string)
    ensures Lower(Lower(s)) == Lower(s)
  {
  }

  lemma LowerConcat(a: string, b: string)
    ensures Lower(a + b) == Lower(a) + Lower(b)
  {
  }

  /** Lower-casing a joined list lower-cases every part. */
  lemma {:induction false} LowerJoin(parts: seq<string>, c: char)
    requires LowerChar(c) == c
    ensures Lower(Join(parts, c)) == Join(LowerAll(parts), c)
  {
    if |parts| > 1 {
      LowerJoin(parts[1..], c);
      LowerConcat(parts[0], [c] + Join(parts[1..], c));
      assert parts[0] + [c] + Join(parts[1..], c) == parts[0] + ([c] + Join(parts[1..], c));
      LowerConcat([c], Join(parts[1..], c));
      assert LowerAll(parts)[1..] == LowerAll(parts[1..]);
    }
  }

  lemma LowerFree(s: string, c: char)
    requires LowerChar(c) == c && !('a' <= c <= 'z')
    requires c !in s
    ensures c !in Lower(s)
  {
  }

  // ---------------------------------------------------------------- filtering

  function Filter<T(!new)>(p: T -> bool, xs: seq<T>): (r: seq<T>)
    ensures forall x :: x in r <==> x in xs && p(x)
  {
    if |xs| == 0 then []
    else if p(xs[0]) then [xs[0]] + Filter(p, xs[1..])
    else Filter(p, xs[1..])
  }

  lemma {:induction false} FilterAll<T(!new)>(p: T -> bool, xs: seq<T>)
    requires forall x :: x in xs ==> p(x)
    ensures Filter(p, xs) == xs
  {
    if |xs| > 0 {
      FilterAll(p, xs[1..]);
    }
  }

  /** `at` lists, in increasing order, places of accepted elements, and `f` what stands there. */
  ghost predicate PlacedAt<T(!new)>(p: T -> bool, xs: seq<T>, f: seq<T>, at: seq<nat>) {
    && |at| == |f|
    && (forall k :: 0 <= k < |at| ==> at[k] < |xs| && f[k] == xs[at[k]] && p(f[k]))
    && (forall j, k :: 0 <= j < k < |at| ==> at[j] < at[k])
  }

  ghost predicate AllPlaced<T(!new)>(p: T -> bool, xs: seq<T>, at: seq<nat>) {
    forall i :: 0 <= i < |xs| && p(xs[i]) ==> i in at
  }

  function Shifted(at: seq<nat>): (r: seq<nat>)
    ensures |r| == |at| && forall k :: 0 <= k < |at| ==> r[k] == at[k] + 1
  {
    seq(|at|, k requires 0 <= k < |at| => at[k] + 1)
  }

  lemma ShiftedHas(at: seq<nat>, i: nat)
    requires i in at
    ensures i + 1 in Shifted(at)
  {
    var k :| 0 <= k < |at| && at[k] == i;
    assert Shifted(at)[k] == i + 1;
  }

  /** The filtered sequence is exactly the accepted elements, each once, in their order. */
  lemma {:induction false} FilterIndexed<T(!new)>(p: T -> bool, xs: seq<T>) returns (at: seq<nat>)
    ensures PlacedAt(p, xs, Filter(p, xs), at) && AllPlaced(p, xs, at)
  {
    if |xs| == 0 {
      at := [];
    } else {
      var rest := FilterIndexed(p, xs[1..]);
      at := if p(xs[0]) then [0] + Shifted(rest) else Shifted(rest);
      hide PlacedAt, AllPlaced;
      PlacedNext(p, xs, Filter(p, xs[1..]), rest);
      AllPlacedNext(p, xs, rest);
    }
  }

  lemma PlacedNext<T(!new)>(p: T -> bool, xs: seq<T>, f: seq<T>, rest: seq<nat>)
    requires |xs| > 0 && PlacedAt(p, xs[1..], f, rest)
    ensures p(xs[0]) ==> PlacedAt(p, xs, [xs[0]] + f, [0] + Shifted(rest))
    ensures PlacedAt(p, xs, f, Shifted(rest))
  {
    hide Shifted;
  }

  lemma AllPlacedNext<T(!new)>(p: T -> bool, xs: seq<T>, rest: seq<nat>)
    requires |xs| > 0 && AllPlaced(p, xs[1..], rest)
    ensures p(xs[0]) ==> AllPlaced(p, xs, [0] + Shifted(rest))
    ensures !p(xs[0]) ==> AllPlaced(p, xs, Shifted(rest))
  {
    hide Shifted;
    forall i | 0 <= i < |xs| && p(xs[i]) && i > 0 ensures i in Shifted(rest) {
      assert xs[i] == xs[1..][i - 1];
      ShiftedHas(rest, i - 1);
    }
  }

  // ---------------------------------------------------------------- what trimming keeps

  /** All of the characters at the end, and no more. */
  lemma {:induction false} TrimEndExact(s: string, c: char)
    ensures var t := TrimEnd(s, c);
      && |t| <= |s| && t == s[..|t|] && (t != "" ==> t[|t| - 1] != c)
      && forall i :: |t| <= i < |s| ==> s[i] == c
  {
    if s != "" && s[|s| - 1] == c {
      TrimEndExact(s[..|s| - 1], c);
    }
  }

  /** All blanks on both sides, and no more. */
  lemma {:induction false} TrimBlankExact<T>(blank: T -> bool, s: seq<T>) returns (from: nat, to: nat)
    ensures from <= to <= |s| && TrimBlank(blank, s) == s[from..to]
    ensures forall i :: 0 <= i < from || to <= i < |s| ==> blank(s[i])
    ensures from < to ==> !blank(s[from]) && !blank(s[to - 1])
  {
    if |s| > 0 && blank(s[0]) {
      var f, t := TrimBlankExact(blank, s[1..]);
      from, to := f + 1, t + 1;
      assert forall i :: 1 <= i < |s| ==> s[i] == s[1..][i - 1];
    } else if |s| > 0 && blank(s[|s| - 1]) {
      from, to := TrimBlankExact(blank, s[..|s| - 1]);
    } else {
      from, to := 0, |s|;
    }
  }

  /** Blanks around a text that neither starts nor ends with one are what is trimmed. */
  lemma {:induction false} TrimAround<T>(blank: T -> bool, pre: seq<T>, mid: seq<T>, post: seq<T>)
    requires forall i :: 0 <= i < |pre| ==> blank(pre[i])
    requires forall i :: 0 <= i < |post| ==> blank(post[i])
    requires |mid| > 0 && !blank(mid[0]) && !blank(mid[|mid| - 1])
    ensures TrimBlank(blank, pre + mid + post) == mid
    decreases |pre| + |post|
  {
    var s := pre + mid + post;
    if |pre| > 0 {
      assert s[0] == pre[0] && s[1..] == pre[1..] + mid + post;
      TrimAround(blank, pre[1..], mid, post);
    } else if |post| > 0 {
      assert s[0] == mid[0] && s[|s| - 1] == post[|post| - 1] && s[..|s| - 1] == pre + mid + post[..|post| - 1];
      TrimAround(blank, pre, mid, post[..|post| - 1]);
    } else {
      assert s == mid;
    }
  }

  /** ASCII case folding: the capital letters to the small ones, everything else as it is. */
  lemma LowerLetters(c: char)
    ensures 'A' <= c <= 'Z' ==> LowerChar(c) as int == 'a' as int + (c as int - 'A' as int)
    ensures !('A' <= c <= 'Z') ==> LowerChar(c) == c
  {
  }
}
