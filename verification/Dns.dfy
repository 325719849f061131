/** DNS values: names, records, questions and upstream responses. */
module Dns {
  import opened Text

  type u32 = x: int | 0 <= x < 0x1_0000_0000

  /** Addresses as the numbers their octets spell, most significant first. */
  type V4 = x: int | 0 <= x < 0x1_0000_0000
  type V6 = x: int | 0 <= x < 0x1_0000_0000_0000_0000_0000_0000_0000_0000

  // ---------------------------------------------------------------- names

  /** A name is its labels, root dropped. Escapes and length limits are not modelled. */
  type Name = seq<string>

  ghost predicate ValidName(n: Name) {
    forall i :: 0 <= i < |n| ==> n[i] != "" && '.' !in n[i]
  }

  /** The presentation form: labels joined with dots, with the root's trailing dot. */
  function ToAscii(n: Name): string {
    Join(n, '.') + "."
  }

  /** Lower-cased labels, recovered from the presentation form. */
  function Labels(n: Name): seq<string> {
    LowerAll(Filter((p: string) => p != "", Split(TrimEnd(ToAscii(n), '.'), '.')))
  }

  /** Reading an absolute presentation form: an empty label is an error. */
  function FromAscii(s: string): Option<Name> {
    if s == "." then Some([])
    else if s == "" || s[|s| - 1] != '.' then None
    else
      var pieces := Split(s[..|s| - 1], '.');
      if forall p :: p in pieces ==> p != "" then Some(pieces) else None
  }

  /** A possibly relative string as an absolute name. */
  function ParseName(s: string): Option<Name> {
    FromAscii(TrimEnd(s, '.') + ".")
  }

  /** Labels back to a name, through the presentation form. */
  function NameFromLabels(l: seq<string>): Option<Name> {
    FromAscii(Join(l, '.') + ".")
  }

  /** Re-joining labels gives those labels back, unless one of them is empty; a single
      empty label reads as the root. */
  lemma RejoinedLabels(l: seq<string>)
    requires FreeOf(l, '.')
    ensures NameFromLabels(l) == if l == [""] then Some([]) else if forall p :: p in l ==> p != "" then Some(l) else None
  {
    var s := Join(l, '.');
    if |l| == 0 {
      assert s + "." == ".";
    } else {
      SplitJoin(l, '.');
      assert (s + ".")[..|s|] == s;
      if s == "" {
        assert s + "." == ".";
        EmptyJoin(l);
      } else {
        assert s + "." != ".";
      }
    }
  }

  lemma EmptyJoin(l: seq<string>)
    requires |l| >= 1 && Join(l, '.') == ""
    ensures l == [""]
  {
  }

  lemma {:induction false} JoinNotDotEnded(n: Name)
    requires ValidName(n) && |n| >= 1
    ensures Join(n, '.') != "" && Join(n, '.')[|Join(n, '.')| - 1] != '.'
  {
    if |n| > 1 {
      assert ValidName(n[1..]) by {
        assert forall i :: 0 <= i < |n[1..]| ==> n[1..][i] == n[i + 1];
      }
      JoinNotDotEnded(n[1..]);
    } else {
      var l := n[0];
      assert l[|l| - 1] in l;
    }
  }

  lemma TrimmedName(n: Name)
    requires ValidName(n)
    ensures TrimEnd(ToAscii(n), '.') == Join(n, '.')
  {
    if |n| == 0 {
      assert ToAscii(n) == ".";
    } else {
      JoinNotDotEnded(n);
    }
    TrimEndOnce(Join(n, '.'), '.');
  }

  /** Going through the presentation form recovers exactly the labels. */
  lemma LabelsAreLowered(n: Name)
    requires ValidName(n)
    ensures Labels(n) == LowerAll(n)
  {
    TrimmedName(n);
    var nonEmpty := (p: string) => p != "";
    if |n| == 0 {
      assert Filter(nonEmpty, [""]) == [];
    } else {
      SplitJoin(n, '.');
      FilterAll(nonEmpty, n);
    }
  }

  lemma LabelsValid(n: Name)
    requires ValidName(n)
    ensures ValidName(Labels(n))
  {
    LabelsAreLowered(n);
    forall i | 0 <= i < |n| ensures LowerAll(n)[i] != "" && '.' !in LowerAll(n)[i] {
      LowerFree(n[i], '.');
    }
  }

  /** Parsing undoes printing, for every name. */
  lemma ParsePrinted(n: Name)
    requires ValidName(n)
    ensures FromAscii(ToAscii(n)) == Some(n) && ParseName(ToAscii(n)) == Some(n)
  {
    TrimmedName(n);
    if |n| > 0 {
      JoinNotDotEnded(n);
      SplitJoin(n, '.');
      var s := Join(n, '.');
      assert (s + ".")[..|s|] == s;
    }
  }

  // ---------------------------------------------------------------- records

  datatype RecordType = A | AAAA | CNAME | MX | TXT | NS | PTR | SOA | SRV | CAA
    | HTTPS | SVCB | DS | DNSKEY | NAPTR | ANY | OtherType(code: nat)

  datatype RData =
    | AData(v4: V4)
    | AaaaData(v6: V6)
    | CnameData(target: Name)
    | SoaData(rname: Name, minimum: u32)
    | OtherData(rtype: RecordType, bytes: seq<nat>)

  datatype Record = Record(owner: Name, ttl: u32, data: RData)

  datatype Rcode = NoError | NXDomain | ServFail | NotImp | FormErr | Refused | OtherCode(code: nat)

  datatype Question = Question(name: Name, qtype: RecordType, qclass: nat)

  const CLASS_IN: nat := 1

  datatype Response = Response(
    rcode: Rcode,
    authenticData: bool,
    question: seq<Question>,
    answers: seq<Record>,
    authority: seq<Record>,
    additionals: seq<Record>)

  /** A query on its way to the pool. */
  datatype Query = Query(questions: seq<Question>, dnssecOk: bool, checkingDisabled: bool)
}
