/** How the handler reads an upstream response: the branch an AAAA answer puts a query
    on, and the data synthesis works from (section 5.1 of RFC 6147). */
module Decision {
  import opened Text
  import opened Dns

  /** Authority-section signals: the first SOA's mailbox and zone. */
  datatype Authority = Authority(soaAdmin: Option<Name>, soaZone: Option<Name>)

  const NO_SIGNALS := Authority(None, None)

  function SignalsOf(records: seq<Record>): Authority {
    if |records| == 0 then NO_SIGNALS
    else if records[0].data.SoaData? then Authority(Some(records[0].data.rname), Some(records[0].owner))
    else SignalsOf(records[1..])
  }

  method ExtractAuthority(resp: Response) returns (a: Authority)
    ensures a == SignalsOf(resp.authority)
  {
    for i := 0 to |resp.authority|
      invariant SignalsOf(resp.authority) == SignalsOf(resp.authority[i..])
    {
      var r := resp.authority[i];
      if r.data.SoaData? {
        return Authority(Some(r.data.rname), Some(r.owner));
      }
    }
    return NO_SIGNALS;
  }

  predicate HasAaaa(records: seq<Record>) {
    exists i :: 0 <= i < |records| && records[i].data.AaaaData?
  }

  /** CNAME targets in order. */
  function CnameTargets(records: seq<Record>): seq<Name> {
    if |records| == 0 then []
    else (if records[0].data.CnameData? then [records[0].data.target] else []) + CnameTargets(records[1..])
  }

  /** Addresses of the A records, in order. */
  function Addresses4(records: seq<Record>): seq<V4> {
    if |records| == 0 then []
    else (if records[0].data.AData? then [records[0].data.v4] else []) + Addresses4(records[1..])
  }

  /** Addresses and TTLs of the A records, in order. */
  function ARecords(records: seq<Record>): (r: seq<(V4, u32)>)
    ensures |r| == |Addresses4(records)|
    ensures forall i :: 0 <= i < |r| ==> r[i].0 == Addresses4(records)[i]
  {
    if |records| == 0 then []
    else (if records[0].data.AData? then [(records[0].data.v4, records[0].ttl)] else []) + ARecords(records[1..])
  }

  /** The branch an AAAA response takes, with the data the branch uses. */
  datatype Branch =
    | Native
    | NoSuchName
    | UpstreamError(rcode: Rcode)
    | Nodata(targets: seq<Name>, signals: Authority)

  function Decide(aaaa: Response): Branch {
    if HasAaaa(aaaa.answers) then Native
    else if aaaa.rcode == NXDomain then NoSuchName
    else if aaaa.rcode != NoError then UpstreamError(aaaa.rcode)
    else Nodata(CnameTargets(aaaa.answers), SignalsOf(aaaa.authority))
  }

  /** The A data a response to the parallel A lookup contributes. */
  function LookupA(a: Option<Response>): seq<(V4, u32)> {
    match a
    case Some(r) => if r.rcode == NoError then ARecords(r.answers) else []
    case None => []
  }

  // ---------------------------------------------------------------- by index over the records

  predicate IsCname(r: Record) { r.data.CnameData? }
  predicate IsA(r: Record) { r.data.AData? }

  /** The signals are the mailbox and the owner of the first SOA record, if there is one. */
  lemma {:induction false} SignalsByIndex(records: seq<Record>)
    ensures (forall i :: 0 <= i < |records| ==> !records[i].data.SoaData?) ==> SignalsOf(records) == Authority(None, None)
    ensures forall i :: 0 <= i < |records| && FirstSoa(records, i) ==>
      SignalsOf(records) == Authority(Some(records[i].data.rname), Some(records[i].owner))
  {
    if |records| > 0 && !records[0].data.SoaData? {
      SignalsByIndex(records[1..]);
      forall i | 0 <= i < |records| && FirstSoa(records, i)
        ensures SignalsOf(records) == Authority(Some(records[i].data.rname), Some(records[i].owner))
      {
        assert FirstSoa(records[1..], i - 1);
      }
    }
  }

  predicate FirstSoa(records: seq<Record>, i: nat) {
    i < |records| && records[i].data.SoaData? && forall j :: 0 <= j < i ==> !records[j].data.SoaData?
  }

  /** The targets are those of the CNAME records, in their order. */
  lemma {:induction false} TargetsByIndex(records: seq<Record>)
    ensures var cnames := Filter(IsCname, records); var t := CnameTargets(records);
      |t| == |cnames| && forall k :: 0 <= k < |t| ==> cnames[k].data.CnameData? && t[k] == cnames[k].data.target
  {
    if |records| > 0 {
      TargetsByIndex(records[1..]);
    }
  }

  predicate AddressesOf(t: seq<(V4, u32)>, records: seq<Record>) {
    |t| == |records| && forall k :: 0 <= k < |t| ==> records[k].data.AData? && t[k] == (records[k].data.v4, records[k].ttl)
  }

  /** The addresses are those of the A records, in their order, with their TTLs. */
  lemma {:induction false} AddressesByIndex(records: seq<Record>)
    ensures AddressesOf(ARecords(records), Filter(IsA, records))
  {
    if |records| > 0 {
      AddressesByIndex(records[1..]);
    }
  }

  /** The parallel A lookup contributes the A records of a NOERROR answer, and nothing else. */
  lemma LookupAByIndex(a: Option<Response>)
    ensures a.None? || a.value.rcode != NoError ==> LookupA(a) == []
    ensures a.Some? && a.value.rcode == NoError ==> AddressesOf(LookupA(a), Filter(IsA, a.value.answers))
  {
    if a.Some? {
      AddressesByIndex(a.value.answers);
    }
  }

  /** The branch of an answer, from its RCODE and records alone. */
  lemma DecidedByAnswer(aaaa: Response)
    ensures Decide(aaaa).Native? <==> exists i :: 0 <= i < |aaaa.answers| && aaaa.answers[i].data.AaaaData?
    ensures Decide(aaaa).Nodata? <==>
      aaaa.rcode == NoError && forall i :: 0 <= i < |aaaa.answers| ==> !aaaa.answers[i].data.AaaaData?
    ensures Decide(aaaa).NoSuchName? <==>
      aaaa.rcode == NXDomain && forall i :: 0 <= i < |aaaa.answers| ==> !aaaa.answers[i].data.AaaaData?
    ensures Decide(aaaa).UpstreamError? ==> Decide(aaaa).rcode == aaaa.rcode
  {
  }
}
